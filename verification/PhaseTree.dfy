/** The invariant of the phase tree, kept by every update. */
module PhaseTree {
  import opened Wrappers
  import opened Scenario
  import opened PhaseSemantics

  ghost predicate AllIn(phases: seq<PhaseRt>, kids: seq<nat>, s: PhaseState) {
    forall i :: 0 <= i < |kids| ==> kids[i] < |phases| && phases[kids[i]].state == s
  }

  /** A running serial phase: children before the position have ended, the one at the
      position has not, and later ones are idle. */
  ghost predicate SerialOK(phases: seq<PhaseRt>, kids: seq<nat>, rt: PhaseRt)
    requires rt.position <= |kids|
  {
    && AllIn(phases, kids[..rt.position], End)
    && (rt.position < |kids| ==>
          && kids[rt.position] < |phases|
          && phases[kids[rt.position]].state != End
          && AllIn(phases, kids[rt.position + 1..], Idle))
    && (rt.childrenDone <==> rt.position == |kids|)
  }

  /** The invariant of one phase and the phases directly below it. */
  ghost predicate NodeOK(d: Diagram, phases: seq<PhaseRt>, q: nat)
    requires q < |d.phases| == |phases|
  {
    var ph, rt := d.phases[q], phases[q];
    && rt.position <= |ph.children|
    && (rt.state == Idle || rt.state == Start ==>
          && rt.position == 0 && !rt.childrenDone
          && AllIn(phases, ph.children, Idle)
          && AllIn(phases, ph.systemActions, Idle))
    && (rt.state == Run && ph.kind.Serial? ==> SerialOK(phases, ph.children, rt))
    && (rt.state == Run && ph.kind.Mix? ==> (rt.childrenDone <==> AllIn(phases, ph.children, End)))
    && (rt.state == End ==> AllIn(phases, ph.children, End))
  }

  /** What an update leaves behind in a running phase: no initial actions are pending, and
      a mix phase has its execution order. */
  ghost predicate Settled(d: Diagram, phases: seq<PhaseRt>, q: nat)
    requires q < |d.phases| == |phases|
  {
    phases[q].state == Run ==>
      !phases[q].initPending && (d.phases[q].kind.Mix? ==> phases[q].execOrder != [])
  }

  /** The subtree below `p` is in order. */
  ghost predicate Inner(d: Diagram, phases: seq<PhaseRt>, p: nat)
    requires p < |d.phases| == |phases|
  {
    forall q: nat :: p < q < d.phases[p].last && q < |phases| ==> NodeOK(d, phases, q) && Settled(d, phases, q)
  }

  /** ... and so is `p`, which may still have initial actions pending. */
  ghost predicate Whole(d: Diagram, phases: seq<PhaseRt>, p: nat)
    requires p < |d.phases| == |phases|
  {
    Inner(d, phases, p) && NodeOK(d, phases, p)
  }

  /** The subtree of `p` between updates. */
  ghost predicate AtRest(d: Diagram, phases: seq<PhaseRt>, p: nat)
    requires p < |d.phases| == |phases|
  {
    Whole(d, phases, p) && Settled(d, phases, p)
  }

  // ---------------------------------------------------------------- framing

  ghost predicate SameOutside(a: seq<PhaseRt>, b: seq<PhaseRt>, lo: nat, hi: nat) {
    |a| == |b| && forall q :: 0 <= q < |a| && (q < lo || hi <= q) ==> b[q] == a[q]
  }

  /** The phases directly below `q` are the same. */
  ghost predicate SameKids(d: Diagram, a: seq<PhaseRt>, b: seq<PhaseRt>, q: nat)
    requires |a| == |b| == |d.phases| && q < |d.phases|
  {
    && (forall i :: 0 <= i < |d.phases[q].children| ==>
          var c := d.phases[q].children[i]; c < |a| && a[c] == b[c])
    && (forall i :: 0 <= i < |d.phases[q].systemActions| ==>
          var c := d.phases[q].systemActions[i]; c < |a| && a[c] == b[c])
  }

  lemma SameNode(d: Diagram, a: seq<PhaseRt>, b: seq<PhaseRt>, q: nat)
    requires |a| == |b| == |d.phases| && q < |d.phases|
    requires a[q] == b[q] && SameKids(d, a, b, q)
    ensures NodeOK(d, a, q) <==> NodeOK(d, b, q)
  {
  }

  /** Only phases of the changed subtree and the parent of its top can lose their invariant. */
  lemma NodeFrame(d: Diagram, a: seq<PhaseRt>, b: seq<PhaseRt>, c: nat, q: nat)
    requires |a| == |b| == |d.phases| && c < |d.phases| && q < |d.phases|
    requires SameOutside(a, b, c, d.phases[c].last)
    requires q < c || d.phases[c].last <= q
    requires d.phases[c].parent != Some(q)
    ensures NodeOK(d, a, q) <==> NodeOK(d, b, q)
  {
    assert d.PhaseOK(c) && d.Nested(c);
    forall i | 0 <= i < |d.phases[q].children|
      ensures var k := d.phases[q].children[i]; k < |a| && a[k] == b[k]
    {
      var k := Child(d, q, i);
    }
    forall i | 0 <= i < |d.phases[q].systemActions|
      ensures var k := d.phases[q].systemActions[i]; k < |a| && a[k] == b[k]
    {
      var k := Operation(d, q, i);
    }
    SameNode(d, a, b, q);
  }

  /** Changing the subtree of a kid `c` of `p`, and leaving it at rest, keeps the rest below `p`. */
  lemma KidFrame(d: Diagram, a: seq<PhaseRt>, b: seq<PhaseRt>, p: nat, c: nat)
    requires |a| == |b| == |d.phases| && p < |d.phases| && d.KidOK(p, c)
    requires SameOutside(a, b, c, d.phases[c].last)
    requires Inner(d, a, p) && AtRest(d, b, c)
    ensures Inner(d, b, p)
  {
    forall q: nat | p < q < d.phases[p].last && q < |b|
      ensures NodeOK(d, b, q) && Settled(d, b, q)
    {
      if q < c || d.phases[c].last <= q {
        NodeFrame(d, a, b, c, q);
        assert Settled(d, a, q);
      }
    }
  }

  lemma InnerBelow(d: Diagram, a: seq<PhaseRt>, p: nat, c: nat)
    requires |a| == |d.phases| && p < |d.phases| && d.KidOK(p, c)
    requires Inner(d, a, p)
    ensures AtRest(d, a, c)
  {
  }

  /** A change of `p` alone keeps everything below it. */
  lemma OwnFrame(d: Diagram, a: seq<PhaseRt>, b: seq<PhaseRt>, p: nat)
    requires |a| == |b| == |d.phases| && p < |d.phases|
    requires SameOutside(a, b, p, p + 1)
    ensures Inner(d, a, p) ==> Inner(d, b, p)
    ensures SameKids(d, a, b, p)
  {
    KidsAreOthers(d, a, b, p, p);
    if Inner(d, a, p) {
      forall q: nat | p < q < d.phases[p].last && q < |b|
        ensures NodeOK(d, b, q) && Settled(d, b, q)
      {
        assert NodeOK(d, a, q) && Settled(d, a, q);
        KidsAreOthers(d, a, b, p, q);
        SameNode(d, a, b, q);
      }
    }
  }

  lemma KidsAreOthers(d: Diagram, a: seq<PhaseRt>, b: seq<PhaseRt>, p: nat, q: nat)
    requires |a| == |b| == |d.phases| && p <= q < |d.phases|
    requires SameOutside(a, b, p, p + 1)
    ensures SameKids(d, a, b, q)
  {
    forall i | 0 <= i < |d.phases[q].children|
      ensures var k := d.phases[q].children[i]; k < |a| && a[k] == b[k]
    {
      var k := Child(d, q, i);
    }
    forall i | 0 <= i < |d.phases[q].systemActions|
      ensures var k := d.phases[q].systemActions[i]; k < |a| && a[k] == b[k]
    {
      var k := Operation(d, q, i);
    }
  }

  // ---------------------------------------------------------------- ending

  ghost predicate ChildEnded(d: Diagram, phases: seq<PhaseRt>, p: nat, k: nat)
    requires p < |d.phases|
  {
    && k < |d.phases[p].children|
    && d.phases[p].children[k] < |phases|
    && phases[d.phases[p].children[k]].state == End
  }

  /** What ending the children from number `i` on leads to. */
  function EndRest(d: Diagram, m: Machine, p: nat, i: nat): Machine
    requires Pre(d, m, p)
  {
    EndChildren(d, m, p, i)
  }

  lemma EndFirstChild(d: Diagram, m: Machine, p: nat, i: nat)
    requires Pre(d, m, p)
    ensures i >= |d.phases[p].children| ==> EndRest(d, m, p, i) == m
    ensures i < |d.phases[p].children| ==>
              var m1 := OnEnd(d, m, Child(d, p, i)); Pre(d, m1, p) && EndRest(d, m, p, i) == EndRest(d, m1, p, i + 1)
  {
  }

  lemma EndedChildStays(d: Diagram, m: Machine, p: nat, i: nat, j: nat)
    requires Pre(d, m, p) && ChildEnded(d, m.phases, p, j)
    ensures ChildEnded(d, EndRest(d, m, p, i).phases, p, j)
  {
  }

  lemma {:induction false} OnEndKeepsTree(d: Diagram, m: Machine, p: nat)
    requires Pre(d, m, p) && Whole(d, m.phases, p)
    ensures AtRest(d, OnEnd(d, m, p).phases, p)
    decreases |d.phases| - p, 2, 0
  {
    EndBelowKeepsTree(d, m, p);
    Ended(d, EndBelow(d, m, p).phases, OnEnd(d, m, p).phases, p);
  }

  lemma Ended(d: Diagram, a: seq<PhaseRt>, b: seq<PhaseRt>, p: nat)
    requires |a| == |b| == |d.phases| && p < |d.phases|
    requires SameOutside(a, b, p, p + 1) && b[p] == a[p].(state := End)
    requires Inner(d, a, p) && AllIn(a, d.phases[p].children, End) && a[p].position <= |d.phases[p].children|
    ensures AtRest(d, b, p)
  {
    OwnFrame(d, a, b, p);
  }

  lemma {:induction false} EndBelowKeepsTree(d: Diagram, m: Machine, p: nat)
    requires Pre(d, m, p) && Whole(d, m.phases, p)
    ensures Inner(d, EndBelow(d, m, p).phases, p) && AllIn(EndBelow(d, m, p).phases, d.phases[p].children, End)
    decreases |d.phases| - p, 1, 0
  {
    var m1, kids := EndBelow(d, m, p), d.phases[p].children;
    CompositeHasChildren(d, p);
    if d.phases[p].kind.Mix? || d.phases[p].kind.Serial? {
      var k := if d.phases[p].kind.Mix? then 0 else m.phases[p].position;
      EndChildrenKeepsTree(d, m, p, k, m1);
      forall i: nat | i < |kids| ensures kids[i] < |m1.phases| && m1.phases[kids[i]].state == End {
        if i < k {
          PassedChildEnded(d, m, p, i);
          EndedChildStays(d, m, p, k, i);
        } else {
          EndChildrenEnds(d, m, p, k, i);
        }
        assert ChildEnded(d, m1.phases, p, i);
      }
    }
  }

  /** The children before the position of a serial phase have ended. */
  lemma PassedChildEnded(d: Diagram, m: Machine, p: nat, i: nat)
    requires Pre(d, m, p) && NodeOK(d, m.phases, p) && d.phases[p].kind.Serial? && i < m.phases[p].position
    ensures ChildEnded(d, m.phases, p, i)
  {
    var kids := d.phases[p].children;
    assert kids[..m.phases[p].position][i] == kids[i];
  }

  lemma {:induction false} EndChildrenKeepsTree(d: Diagram, m: Machine, p: nat, i: nat, m': Machine)
    requires Pre(d, m, p) && Inner(d, m.phases, p) && m' == EndRest(d, m, p, i)
    ensures |m'.phases| == |d.phases| && Inner(d, m'.phases, p)
    decreases |d.phases| - p, 0, |d.phases[p].children| - i
  {
    EndFirstChild(d, m, p, i);
    if i < |d.phases[p].children| {
      var c := Child(d, p, i);
      var m1 := OnEnd(d, m, c);
      InnerBelow(d, m.phases, p, c);
      OnEndKeepsTree(d, m, c);
      KidFrame(d, m.phases, m1.phases, p, c);
      EndChildrenKeepsTree(d, m1, p, i + 1, m');
    }
  }

  lemma {:induction false} EndChildrenEnds(d: Diagram, m: Machine, p: nat, i: nat, j: nat)
    requires Pre(d, m, p) && i <= j < |d.phases[p].children|
    ensures ChildEnded(d, EndRest(d, m, p, i).phases, p, j)
    decreases j - i
  {
    var m1 := OnEnd(d, m, Child(d, p, i));
    EndFirstChild(d, m, p, i);
    if i == j {
      EndedChildStays(d, m1, p, i + 1, j);
    } else {
      EndChildrenEnds(d, m1, p, i + 1, j);
    }
  }

  // ---------------------------------------------------------------- updates

  /** Main result: an update that throws nothing leaves the subtree at rest. */
  lemma {:induction false} UpdateKeepsTree(d: Diagram, e: Env, m: Machine, p: nat)
    requires Pre(d, m, p) && Whole(d, m.phases, p)
    ensures Update(d, e, m, p).out.Returned? ==> AtRest(d, Update(d, e, m, p).m.phases, p)
    decreases |d.phases| - p, 3 - Rank(m.phases[p].state), 5, 0
  {
    AdvanceKeepsTree(d, e, m, p);
    var r := Advance(d, e, m, p);
    if r.out == Returned(true) {
      UpdateKeepsTree(d, e, r.m, p);
    }
  }

  lemma {:induction false} AdvanceKeepsTree(d: Diagram, e: Env, m: Machine, p: nat)
    requires Pre(d, m, p) && Whole(d, m.phases, p)
    ensures var r := Advance(d, e, m, p);
            r.out.Returned? ==> Whole(d, r.m.phases, p) && (!r.out.value ==> Settled(d, r.m.phases, p))
    decreases |d.phases| - p, 3 - Rank(m.phases[p].state), 4, 0
  {
    match m.phases[p].state {
      case Idle =>
        LeaveIdle(d, m.phases, OnStart(d, e, m, p).m.phases, p);
      case Start =>
        TryRunKeepsTree(d, e, m, p);
      case Run =>
        TryEndKeepsTree(d, e, m, p);
      case End =>
    }
  }

  lemma TryRunKeepsTree(d: Diagram, e: Env, m: Machine, p: nat)
    requires Pre(d, m, p) && m.phases[p].state == Start && Whole(d, m.phases, p)
    ensures var r := TryRun(d, e, m, p);
            r.out.Returned? ==> Whole(d, r.m.phases, p) && (!r.out.value ==> Settled(d, r.m.phases, p))
  {
    if StartDecision(d, e, m, p) == Satisfied {
      var r := OnRun(d, e, m, p);
      if r.out.Returned? {
        LeaveIdle(d, m.phases, r.m.phases, p);
      }
    }
  }

  lemma {:induction false} TryEndKeepsTree(d: Diagram, e: Env, m: Machine, p: nat)
    requires Pre(d, m, p) && m.phases[p].state == Run && Whole(d, m.phases, p)
    ensures var r := TryEnd(d, e, m, p);
            r.out.Returned? ==> Whole(d, r.m.phases, p) && (!r.out.value ==> Settled(d, r.m.phases, p))
    decreases |d.phases| - p, 1, 3, 0
  {
    DoRunUpdateKeepsTree(d, e, m, p);
    var r1 := DoRunUpdate(d, e, m, p);
    if r1.out == Returned(true) {
      OnEndKeepsTree(d, r1.m, p);
    }
  }

  /** Starting and running a phase whose kids are all idle keeps its invariant. */
  lemma LeaveIdle(d: Diagram, a: seq<PhaseRt>, b: seq<PhaseRt>, p: nat)
    requires |a| == |b| == |d.phases| && p < |d.phases|
    requires SameOutside(a, b, p, p + 1) && b[p] == a[p].(state := b[p].state)
    requires (a[p].state == Idle || a[p].state == Start) && b[p].state != End
    requires Whole(d, a, p)
    ensures Whole(d, b, p)
  {
    OwnFrame(d, a, b, p);
    CompositeHasChildren(d, p);
    var kids := d.phases[p].children;
    assert AllIn(b, kids, Idle) && AllIn(b, d.phases[p].systemActions, Idle);
    if kids != [] {
      assert b[kids[0]].state == Idle;
    }
  }

  lemma {:induction false} DoRunUpdateKeepsTree(d: Diagram, e: Env, m: Machine, p: nat)
    requires Pre(d, m, p) && m.phases[p].state == Run && Whole(d, m.phases, p)
    ensures var r := DoRunUpdate(d, e, m, p);
            r.out.Returned? ==> Whole(d, r.m.phases, p) && (!r.out.value ==> Settled(d, r.m.phases, p))
    decreases |d.phases| - p, 0, 3, 0
  {
    var r1 := UpdateContent(d, e, m, p);
    if r1.out.Returned? {
      UpdateContentKeepsTree(d, e, m, p);
      UpdateSystemActionsKeepsTree(d, e, r1.m, p, 0);
      var r2 := UpdateSystemActions(d, e, r1.m, p, 0);
      if r2.out.Returned? {
        ConcludeKeepsTree(d, e, r2.m, p);
      }
    }
  }

  lemma ConcludeKeepsTree(d: Diagram, e: Env, m: Machine, p: nat)
    requires Pre(d, m, p) && m.phases[p].state == Run && Whole(d, m.phases, p)
    requires d.phases[p].kind.Mix? ==> m.phases[p].execOrder != []
    ensures var r := Conclude(d, e, m, p);
            r.out.Returned? ==> Whole(d, r.m.phases, p) && (!r.out.value ==> Settled(d, r.m.phases, p))
  {
    if m.phases[p].initPending {
      OwnFrame(d, m.phases, ClearInitPending(d, m, p).phases, p);
    }
  }

  lemma {:induction false} UpdateContentKeepsTree(d: Diagram, e: Env, m: Machine, p: nat)
    requires Pre(d, m, p) && m.phases[p].state == Run && Whole(d, m.phases, p)
    ensures var r := UpdateContent(d, e, m, p);
            r.out.Returned? ==> Whole(d, r.m.phases, p) && (d.phases[p].kind.Mix? ==> r.m.phases[p].execOrder != [])
    decreases |d.phases| - p, 0, 2, 1
  {
    match d.phases[p].kind {
      case Mix =>
        MixKeepsTree(d, e, m, p);
      case Serial =>
        UpdateInOrderKeepsTree(d, e, m, p);
      case _ =>
    }
  }

  lemma {:induction false} MixKeepsTree(d: Diagram, e: Env, m: Machine, p: nat)
    requires Pre(d, m, p) && m.phases[p].state == Run && d.phases[p].kind.Mix? && Whole(d, m.phases, p)
    ensures var r := UpdateContent(d, e, m, p);
            r.out.Returned? ==> Whole(d, r.m.phases, p) && r.m.phases[p].execOrder != []
    decreases |d.phases| - p, 0, 2, 0
  {
    var r1 := SortIfNeeded(d, e, m, p);
    if r1.out.Returned? {
      SortKeepsTree(d, e, m, p);
      var m2 := SetChildrenDone(d, r1.m, p, true);
      var r := UpdateChildren(d, e, m2, p, 0);
      UpdateChildrenKeepsTree(d, e, m2, p, m2.phases[p].execOrder, 0, r);
      if r.out.Returned? {
        AllVisited(d, r.m.phases, p, m2.phases[p].execOrder);
      }
    }
  }

  lemma SortKeepsTree(d: Diagram, e: Env, m: Machine, p: nat)
    requires Pre(d, m, p) && m.phases[p].state == Run && d.phases[p].kind.Mix? && Whole(d, m.phases, p)
    requires SortIfNeeded(d, e, m, p).out.Returned?
    ensures var m2 := SetChildrenDone(d, SortIfNeeded(d, e, m, p).m, p, true);
            Visiting(d, m2.phases, p, m2.phases[p].execOrder, 0) && m2.phases[p].position <= |d.phases[p].children|
  {
    var m1 := SortIfNeeded(d, e, m, p).m;
    OrdersKeepTree(d, m.phases, m1.phases, p);
    OwnFrame(d, m1.phases, SetChildrenDone(d, m1, p, true).phases, p);
  }

  /** Installing execution orders disturbs no invariant. */
  lemma OrdersKeepTree(d: Diagram, a: seq<PhaseRt>, b: seq<PhaseRt>, p: nat)
    requires |a| == |b| == |d.phases| && p < |d.phases|
    requires forall q :: 0 <= q < |a| ==> b[q] == a[q].(execOrder := b[q].execOrder)
    requires forall q :: 0 <= q < |a| && a[q].execOrder != [] && d.phases[q].kind.Mix? ==> b[q].execOrder != []
    requires Inner(d, a, p)
    ensures Inner(d, b, p)
  {
    forall q: nat | p < q < d.phases[p].last && q < |b|
      ensures NodeOK(d, b, q) && Settled(d, b, q)
    {
      assert NodeOK(d, a, q) && Settled(d, a, q);
      assert forall kids, s :: AllIn(a, kids, s) <==> AllIn(b, kids, s);
    }
  }

  lemma {:induction false} UpdateKidKeepsTree(d: Diagram, e: Env, m: Machine, p: nat, c: nat)
    requires Pre(d, m, p) && d.KidOK(p, c) && Inner(d, m.phases, p)
    ensures var r := UpdateKid(d, e, m, p, c);
            r.out.Returned? ==> Inner(d, r.m.phases, p)
    decreases |d.phases| - p, 0, 0, 0
  {
    InnerBelow(d, m.phases, p, c);
    UpdateKeepsTree(d, e, m, c);
    var r := UpdateKid(d, e, m, p, c);
    if r.out.Returned? {
      KidFrame(d, m.phases, r.m.phases, p, c);
    }
  }

  /** The children at positions `..i` of the execution order have ended. */
  ghost predicate OrderEnded(d: Diagram, phases: seq<PhaseRt>, p: nat, order: seq<nat>, i: nat)
    requires p < |d.phases|
  {
    forall j :: 0 <= j < i && j < |order| ==> ChildEnded(d, phases, p, order[j])
  }

  /** While children are updated, `childrenDone` says whether all visited ones have ended. */
  ghost predicate Visiting(d: Diagram, phases: seq<PhaseRt>, p: nat, order: seq<nat>, i: nat)
    requires p < |d.phases| == |phases|
  {
    && Inner(d, phases, p)
    && phases[p].execOrder == order
    && (phases[p].childrenDone <==> OrderEnded(d, phases, p, order, i))
  }

  /** What updating the children from position `i` of the execution order on leads to. */
  function UpdateRest(d: Diagram, e: Env, m: Machine, p: nat, order: seq<nat>, i: nat): Step
    requires Pre(d, m, p) && m.phases[p].state == Run && d.phases[p].kind.Mix?
    requires IsOrder(order, |d.phases[p].children|) && m.phases[p].execOrder == order
  {
    UpdateChildren(d, e, m, p, i)
  }

  ghost predicate VisitingFrom(d: Diagram, m: Machine, p: nat, order: seq<nat>, i: nat) {
    && Pre(d, m, p) && m.phases[p].state == Run && d.phases[p].kind.Mix?
    && IsOrder(order, |d.phases[p].children|) && i <= |order| && Visiting(d, m.phases, p, order, i)
  }

  lemma {:induction false} UpdateChildrenKeepsTree(d: Diagram, e: Env, m: Machine, p: nat, order: seq<nat>, i: nat, r: Step)
    requires VisitingFrom(d, m, p, order, i) && r == UpdateRest(d, e, m, p, order, i)
    ensures r.out.Raised? || Visiting(d, r.m.phases, p, order, |order|)
    decreases |d.phases| - p, 0, 1, |order| - i
  {
    if i < |order| {
      UpdateChildKeepsTree(d, e, m, p, order, i);
      var r1 := UpdateChild(d, e, m, p, order[i]);
      if r1.out.Returned? {
        UpdateChildrenKeepsTree(d, e, r1.m, p, order, i + 1, r);
      }
    }
  }

  lemma UpdateFirstChild(d: Diagram, e: Env, m: Machine, p: nat, order: seq<nat>, i: nat)
    requires Pre(d, m, p) && m.phases[p].state == Run && d.phases[p].kind.Mix?
    requires IsOrder(order, |d.phases[p].children|) && m.phases[p].execOrder == order && i < |order|
    ensures var r1 := UpdateChild(d, e, m, p, order[i]);
            UpdateChildren(d, e, m, p, i) == if r1.out.Raised? then r1 else UpdateChildren(d, e, r1.m, p, i + 1)
  {
  }

  lemma NoChildToUpdate(d: Diagram, e: Env, m: Machine, p: nat)
    requires Pre(d, m, p) && m.phases[p].state == Run && d.phases[p].kind.Mix?
    requires IsOrder(m.phases[p].execOrder, |d.phases[p].children|)
    ensures UpdateChildren(d, e, m, p, |m.phases[p].execOrder|) == Step(m, Returned(true))
  {
  }

  lemma {:induction false} UpdateChildKeepsTree(d: Diagram, e: Env, m: Machine, p: nat, order: seq<nat>, i: nat)
    requires VisitingFrom(d, m, p, order, i) && i < |order|
    ensures var r := UpdateChild(d, e, m, p, order[i]);
            r.out.Raised? || (VisitingFrom(d, r.m, p, order, i + 1)
                              && UpdateRest(d, e, m, p, order, i) == UpdateRest(d, e, r.m, p, order, i + 1))
    decreases |d.phases| - p, 0, 0, 1
  {
    var c := Child(d, p, order[i]);
    var r1 := UpdateKid(d, e, m, p, c);
    UpdateFirstChild(d, e, m, p, order, i);
    if r1.out.Returned? {
      UpdateKidKeepsTree(d, e, m, p, c);
      OrderEndedStep(d, m.phases, r1.m.phases, p, order, i);
      if !r1.out.value {
        NotAllEnded(d, r1.m, p, order, i);
      }
    }
  }

  lemma NotAllEnded(d: Diagram, m: Machine, p: nat, order: seq<nat>, i: nat)
    requires Fits(d, m) && p < |d.phases|
    requires i < |order| && m.phases[p].execOrder == order
    requires Inner(d, m.phases, p) && !OrderEnded(d, m.phases, p, order, i + 1)
    ensures Visiting(d, SetChildrenDone(d, m, p, false).phases, p, order, i + 1)
  {
    var b := SetChildrenDone(d, m, p, false).phases;
    OwnFrame(d, m.phases, b, p);
    var j :| 0 <= j < i + 1 && j < |order| && !ChildEnded(d, m.phases, p, order[j]);
    if order[j] < |d.phases[p].children| {
      var c := Child(d, p, order[j]);
    }
    assert !ChildEnded(d, b, p, order[j]);
  }

  /** Once every child was visited, `childrenDone` says whether all children have ended. */
  lemma AllVisited(d: Diagram, phases: seq<PhaseRt>, p: nat, order: seq<nat>)
    requires p < |d.phases| == |phases| && phases[p].state == Run && d.phases[p].kind.Mix?
    requires IsOrder(order, |d.phases[p].children|) && phases[p].position <= |d.phases[p].children|
    requires Visiting(d, phases, p, order, |order|)
    ensures Whole(d, phases, p) && order != []
  {
    CompositeHasChildren(d, p);
    var kids := d.phases[p].children;
    if OrderEnded(d, phases, p, order, |order|) {
      forall k: nat | k < |kids| ensures kids[k] < |phases| && phases[kids[k]].state == End {
        assert k in order;
        var j :| 0 <= j < |order| && order[j] == k;
        assert ChildEnded(d, phases, p, order[j]);
      }
    }
  }

  /** Updating child number `order[i]` extends the ended prefix exactly when that child ends. */
  lemma OrderEndedStep(d: Diagram, a: seq<PhaseRt>, b: seq<PhaseRt>, p: nat, order: seq<nat>, i: nat)
    requires |a| == |b| == |d.phases| && p < |d.phases|
    requires IsOrder(order, |d.phases[p].children|) && i < |order|
    requires var c := d.phases[p].children[order[i]];
             c < |d.phases| && SameOutside(a, b, c, d.phases[c].last)
    ensures OrderEnded(d, b, p, order, i + 1) <==> OrderEnded(d, a, p, order, i) && ChildEnded(d, b, p, order[i])
  {
    forall j | 0 <= j < i ensures ChildEnded(d, a, p, order[j]) <==> ChildEnded(d, b, p, order[j]) {
      assert order[j] != order[i];
      ChildrenApart(d, p, order[j], order[i]);
    }
    if OrderEnded(d, b, p, order, i + 1) {
      assert ChildEnded(d, b, p, order[i]);
      forall j | 0 <= j < i ensures ChildEnded(d, a, p, order[j]) {
        assert ChildEnded(d, b, p, order[j]);
      }
    }
  }

  lemma {:induction false} UpdateInOrderKeepsTree(d: Diagram, e: Env, m: Machine, p: nat)
    requires Pre(d, m, p) && m.phases[p].state == Run && d.phases[p].kind.Serial? && Whole(d, m.phases, p)
    ensures var r := UpdateInOrder(d, e, m, p);
            r.out.Returned? ==> Whole(d, r.m.phases, p)
    decreases |d.phases| - p, 0, 1, |d.phases[p].children| - m.phases[p].position
  {
    var k, kids := m.phases[p].position, d.phases[p].children;
    if k < |kids| {
      var c := Child(d, p, k);
      var r1 := UpdateKid(d, e, m, p, c);
      if r1.out.Returned? {
        UpdateKidKeepsTree(d, e, m, p, c);
        SerialStep(d, m.phases, r1.m.phases, p);
        if r1.out.value {
          var m2 := PassChild(d, r1.m, p);
          SerialPass(d, r1.m.phases, m2.phases, p);
          UpdateInOrderKeepsTree(d, e, m2, p);
        }
      }
    }
  }

  /** While the child at the position is updated, its siblings stay as they were. */
  lemma SerialStep(d: Diagram, a: seq<PhaseRt>, b: seq<PhaseRt>, p: nat)
    requires |a| == |b| == |d.phases| && p < |d.phases|
    requires a[p].state == Run && d.phases[p].kind.Serial? && NodeOK(d, a, p) && b[p] == a[p]
    requires a[p].position < |d.phases[p].children|
    requires var c := d.phases[p].children[a[p].position];
             c < |d.phases| && SameOutside(a, b, c, d.phases[c].last)
    ensures var k, kids := a[p].position, d.phases[p].children;
            AllIn(b, kids[..k], End) && AllIn(b, kids[k + 1..], Idle)
    ensures b[d.phases[p].children[a[p].position]].state != End ==> NodeOK(d, b, p)
  {
    var k, kids := a[p].position, d.phases[p].children;
    forall i | 0 <= i < |kids| && i != k ensures kids[i] < |a| && a[kids[i]] == b[kids[i]] {
      ChildrenApart(d, p, i, k);
    }
  }

  /** Passing an ended child keeps the serial invariant. */
  lemma SerialPass(d: Diagram, a: seq<PhaseRt>, b: seq<PhaseRt>, p: nat)
    requires |a| == |b| == |d.phases| && p < |d.phases|
    requires a[p].state == Run && d.phases[p].kind.Serial?
    requires var k, kids := a[p].position, d.phases[p].children;
             && k < |kids| && !a[p].childrenDone && kids[k] < |a| && a[kids[k]].state == End
             && AllIn(a, kids[..k], End) && AllIn(a, kids[k + 1..], Idle)
             && b[p] == a[p].(position := k + 1, childrenDone := k + 1 == |kids|)
    requires SameOutside(a, b, p, p + 1) && Inner(d, a, p)
    ensures Whole(d, b, p)
  {
    OwnFrame(d, a, b, p);
    var k, kids := a[p].position, d.phases[p].children;
    forall i | 0 <= i < k + 1 ensures a[kids[i]].state == End {
      if i < k {
        assert kids[..k][i] == kids[i];
      }
    }
    forall i | k + 1 <= i < |kids| ensures a[kids[i]].state == Idle {
      assert kids[k + 1..][i - (k + 1)] == kids[i];
    }
  }

  lemma {:induction false} UpdateSystemActionsKeepsTree(d: Diagram, e: Env, m: Machine, p: nat, i: nat)
    requires Pre(d, m, p) && m.phases[p].state == Run && Whole(d, m.phases, p)
    ensures var r := UpdateSystemActions(d, e, m, p, i);
            r.out.Returned? ==> Whole(d, r.m.phases, p) && r.m.phases[p] == m.phases[p]
    decreases |d.phases| - p, 0, 1, |d.phases[p].systemActions| - i
  {
    if i < |d.phases[p].systemActions| {
      var c := Operation(d, p, i);
      var r1 := UpdateKid(d, e, m, p, c);
      if r1.out.Returned? {
        UpdateKidKeepsTree(d, e, m, p, c);
        SystemFrame(d, m.phases, r1.m.phases, p, i);
        UpdateSystemActionsKeepsTree(d, e, r1.m, p, i + 1);
      }
    }
  }

  /** What updating the operations from number `i` on leads to. */
  function OperationsRest(d: Diagram, e: Env, m: Machine, p: nat, i: nat): Step
    requires Pre(d, m, p) && m.phases[p].state == Run
  {
    UpdateSystemActions(d, e, m, p, i)
  }

  lemma UpdateFirstOperation(d: Diagram, e: Env, m: Machine, p: nat, i: nat)
    requires Pre(d, m, p) && m.phases[p].state == Run && i < |d.phases[p].systemActions|
    ensures var r1 := UpdateKid(d, e, m, p, Operation(d, p, i));
            OperationsRest(d, e, m, p, i) == if r1.out.Raised? then r1 else OperationsRest(d, e, r1.m, p, i + 1)
  {
  }

  lemma SystemFrame(d: Diagram, a: seq<PhaseRt>, b: seq<PhaseRt>, p: nat, i: nat)
    requires |a| == |b| == |d.phases| && p < |d.phases|
    requires a[p].state == Run && NodeOK(d, a, p) && b[p] == a[p]
    requires i < |d.phases[p].systemActions|
    requires var c := d.phases[p].systemActions[i];
             c < |d.phases| && SameOutside(a, b, c, d.phases[c].last)
    ensures NodeOK(d, b, p)
  {
    var kids := d.phases[p].children;
    forall j | 0 <= j < |kids| ensures kids[j] < |a| && a[kids[j]] == b[kids[j]] {
      OperationsFirst(d, p, i, j);
    }
  }
}
