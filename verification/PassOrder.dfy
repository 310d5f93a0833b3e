/** In one pass the effects below two children of a mix phase come in the execution order of the children. */
module PassOrder {
  import opened Wrappers
  import opened Scenario
  import opened PhaseSemantics
  import opened PhaseTree
  import opened PhaseCompletion
  import opened PhaseVisits
  import opened OrdersKept
  import opened EffectOrder
  import opened SortingGroups
  import opened RaceTracks

  // ---------------------------------------------------------------- effects of two subtrees

  /** No effect of the subtree of `x` is added. */
  ghost predicate EffectsAvoid(d: Diagram, a: seq<Effect>, b: seq<Effect>, x: nat)
    requires x < |d.phases|
  {
    a <= b && forall i :: |a| <= i < |b| ==> !InSubtree(d, x, Owner(d, b[i]))
  }

  ghost predicate Avoids(d: Diagram, m: Machine, m': Machine, x: nat)
    requires x < |d.phases| == |m.phases| == |m'.phases|
  {
    EffectsAvoid(d, m.effects, m'.effects, x) && m'.phases[x] == m.phases[x]
  }

  /** Among the added effects those of the subtree of `c1` come before those of the subtree of `c2`. */
  ghost predicate Ordered(d: Diagram, a: seq<Effect>, b: seq<Effect>, c1: nat, c2: nat)
    requires c1 < |d.phases| && c2 < |d.phases|
  {
    a <= b && forall i, j :: |a| <= i < j < |b| && InSubtree(d, c2, Owner(d, b[i])) ==> !InSubtree(d, c1, Owner(d, b[j]))
  }

  lemma AvoidChain(d: Diagram, a: seq<Effect>, b: seq<Effect>, c: seq<Effect>, x: nat)
    requires x < |d.phases| && EffectsAvoid(d, a, b, x) && EffectsAvoid(d, b, c, x)
    ensures EffectsAvoid(d, a, c, x)
  {
    forall i | |a| <= i < |c| ensures !InSubtree(d, x, Owner(d, c[i])) {
      if i < |b| {
        assert c[i] == b[i];
      }
    }
  }

  lemma OrderedThenNone(d: Diagram, a: seq<Effect>, b: seq<Effect>, c: seq<Effect>, c1: nat, c2: nat)
    requires c1 < |d.phases| && c2 < |d.phases| && Ordered(d, a, b, c1, c2) && EffectsAvoid(d, b, c, c1)
    ensures Ordered(d, a, c, c1, c2)
  {
    forall i, j | |a| <= i < j < |c| && InSubtree(d, c2, Owner(d, c[i])) ensures !InSubtree(d, c1, Owner(d, c[j])) {
      if j < |b| {
        assert c[i] == b[i] && c[j] == b[j];
      }
    }
  }

  lemma NoneThenOrdered(d: Diagram, a: seq<Effect>, b: seq<Effect>, c: seq<Effect>, c1: nat, c2: nat)
    requires c1 < |d.phases| && c2 < |d.phases| && EffectsAvoid(d, a, b, c2) && Ordered(d, b, c, c1, c2)
    ensures Ordered(d, a, c, c1, c2)
  {
    assert forall i :: 0 <= i < |b| ==> c[i] == b[i];
  }

  /** A phase outside the subtree of a kid of `p` lies apart from it with its whole subtree. */
  lemma KidApart(d: Diagram, p: nat, c: nat, x: nat)
    requires p < |d.phases| && d.KidOK(p, c) && p < x < |d.phases| && !InSubtree(d, c, x)
    ensures d.phases[c].last <= x || d.phases[x].last <= c
  {
    assert d.PhaseOK(x) && d.Nested(x);
  }

  /** Updating a kid does nothing in subtrees apart from it. */
  lemma KidAvoids(d: Diagram, e: Env, m: Machine, p: nat, c: nat, x: nat)
    requires Pre(d, m, p) && d.KidOK(p, c) && p < x < |d.phases| && !InSubtree(d, c, x)
    ensures Avoids(d, m, UpdateKid(d, e, m, p, c).m, x)
  {
    UpdateKidAdds(d, e, m, p, c);
    KidApart(d, p, c, x);
  }

  lemma {:induction false} ChildrenAvoid(d: Diagram, e: Env, m: Machine, p: nat, order: seq<nat>, i: nat, x: nat)
    requires Pre(d, m, p) && m.phases[p].state == Run && d.phases[p].kind.Mix? && p < x < |d.phases|
    requires m.phases[p].execOrder == order && IsOrder(order, |d.phases[p].children|)
    requires forall j :: i <= j < |order| ==> !InSubtree(d, Child(d, p, order[j]), x)
    ensures Avoids(d, m, UpdateChildren(d, e, m, p, i).m, x)
    decreases |order| - i
  {
    if i < |order| {
      KidAvoids(d, e, m, p, Child(d, p, order[i]), x);
      var r1 := UpdateChild(d, e, m, p, order[i]);
      if r1.out.Returned? {
        ChildrenAvoid(d, e, r1.m, p, order, i + 1, x);
        AvoidChain(d, m.effects, r1.m.effects, UpdateChildren(d, e, r1.m, p, i + 1).m.effects, x);
      }
    }
  }

  lemma {:induction false} InOrderAvoids(d: Diagram, e: Env, m: Machine, p: nat, x: nat)
    requires Pre(d, m, p) && m.phases[p].state == Run && d.phases[p].kind.Serial? && p < x < |d.phases|
    requires forall k: nat :: m.phases[p].position <= k < |d.phases[p].children| ==> !InSubtree(d, Child(d, p, k), x)
    ensures Avoids(d, m, UpdateInOrder(d, e, m, p).m, x)
    decreases |d.phases[p].children| - m.phases[p].position
  {
    if m.phases[p].position < |d.phases[p].children| {
      var c := Child(d, p, m.phases[p].position);
      KidAvoids(d, e, m, p, c, x);
      var r1 := UpdateKid(d, e, m, p, c);
      if r1.out == Returned(true) {
        var m2 := PassChild(d, r1.m, p);
        InOrderAvoids(d, e, m2, p, x);
        AvoidChain(d, m.effects, m2.effects, UpdateInOrder(d, e, m2, p).m.effects, x);
      }
    }
  }

  lemma {:induction false} OperationsAvoid(d: Diagram, e: Env, m: Machine, p: nat, i: nat, x: nat)
    requires Pre(d, m, p) && m.phases[p].state == Run && p < x < |d.phases|
    requires forall j: nat :: i <= j < |d.phases[p].systemActions| ==> !InSubtree(d, Operation(d, p, j), x)
    ensures Avoids(d, m, UpdateSystemActions(d, e, m, p, i).m, x)
    decreases |d.phases[p].systemActions| - i
  {
    if i < |d.phases[p].systemActions| {
      var c := Operation(d, p, i);
      KidAvoids(d, e, m, p, c, x);
      var r1 := UpdateKid(d, e, m, p, c);
      if r1.out.Returned? {
        OperationsAvoid(d, e, r1.m, p, i + 1, x);
        AvoidChain(d, m.effects, r1.m.effects, UpdateSystemActions(d, e, r1.m, p, i + 1).m.effects, x);
      }
    }
  }

  // ---------------------------------------------------------------- the children of one mix phase

  /** If the order puts child `k1` before child `k2`, so does a pass over the children. */
  lemma {:induction false} ChildrenInOrder(d: Diagram, e: Env, m: Machine, g: nat, order: seq<nat>, i: nat, k1: nat, k2: nat)
    requires Pre(d, m, g) && m.phases[g].state == Run && d.phases[g].kind.Mix?
    requires m.phases[g].execOrder == order && IsOrder(order, |d.phases[g].children|)
    requires k1 < |d.phases[g].children| && k2 < |d.phases[g].children| && k1 != k2 && Precedes(order, k1, k2)
    ensures Ordered(d, m.effects, UpdateChildren(d, e, m, g, i).m.effects, Child(d, g, k1), Child(d, g, k2))
    decreases |order| - i
  {
    var c1, c2 := Child(d, g, k1), Child(d, g, k2);
    if i < |order| {
      if order[i] == k2 {
        FirstIsDone(d, g, order, i, k1, k2);
        ChildrenAvoid(d, e, m, g, order, i, c1);
        NoneIsOrdered(d, m.effects, UpdateChildren(d, e, m, g, i).m.effects, c1, c2);
      } else {
        var r1 := UpdateChild(d, e, m, g, order[i]);
        OtherChildAvoids(d, e, m, g, order[i], k2);
        if r1.out.Returned? {
          ChildrenInOrder(d, e, r1.m, g, order, i + 1, k1, k2);
          NoneThenOrdered(d, m.effects, r1.m.effects, UpdateChildren(d, e, r1.m, g, i + 1).m.effects, c1, c2);
        } else {
          NoneIsOrdered(d, m.effects, r1.m.effects, c1, c2);
        }
        assert UpdateChildren(d, e, m, g, i) == if r1.out.Raised? then r1 else UpdateChildren(d, e, r1.m, g, i + 1);
      }
    } else {
      assert UpdateChildren(d, e, m, g, i) == Step(m, Returned(true));
    }
  }

  lemma NoneIsOrdered(d: Diagram, a: seq<Effect>, b: seq<Effect>, c1: nat, c2: nat)
    requires c1 < |d.phases| && c2 < |d.phases| && (EffectsAvoid(d, a, b, c1) || EffectsAvoid(d, a, b, c2))
    ensures Ordered(d, a, b, c1, c2)
  {
  }

  lemma OtherChildAvoids(d: Diagram, e: Env, m: Machine, g: nat, k: nat, k': nat)
    requires Pre(d, m, g) && k < |d.phases[g].children| && k' < |d.phases[g].children| && k != k'
    ensures EffectsAvoid(d, m.effects, UpdateChild(d, e, m, g, k).m.effects, Child(d, g, k'))
  {
    ChildrenApart(d, g, k, k');
    KidAvoids(d, e, m, g, Child(d, g, k), Child(d, g, k'));
  }

  /** When the second child's turn comes, the first one's is over. */
  lemma FirstIsDone(d: Diagram, g: nat, order: seq<nat>, i: nat, k1: nat, k2: nat)
    requires g < |d.phases| && IsOrder(order, |d.phases[g].children|) && i < |order| && order[i] == k2
    requires k1 < |d.phases[g].children| && k1 != k2 && Precedes(order, k1, k2)
    ensures forall j :: i <= j < |order| ==> !InSubtree(d, Child(d, g, order[j]), Child(d, g, k1))
  {
    var n, l :| 0 <= n < l < |order| && order[n] == k1 && order[l] == k2;
    assert l == i;
    forall j | i <= j < |order| ensures !InSubtree(d, Child(d, g, order[j]), Child(d, g, k1)) {
      ChildrenApart(d, g, order[j], k1);
    }
  }

  // ---------------------------------------------------------------- the whole tree

  /** If the mix phase `g` ends up with child `k1` before child `k2` in its execution order, then
      the added effects are in that order. */
  ghost predicate Follows(d: Diagram, m: Machine, m': Machine, g: nat, k1: nat, k2: nat)
    requires g < |d.phases| == |m'.phases| && k1 < |d.phases[g].children| && k2 < |d.phases[g].children|
  {
    && m.effects <= m'.effects
    && (Precedes(m'.phases[g].execOrder, k1, k2) ==> Ordered(d, m.effects, m'.effects, Child(d, g, k1), Child(d, g, k2)))
  }

  lemma NoneFollows(d: Diagram, m: Machine, m': Machine, g: nat, k1: nat, k2: nat)
    requires g < |d.phases| == |m'.phases| && k1 < |d.phases[g].children| && k2 < |d.phases[g].children|
    requires EffectsAvoid(d, m.effects, m'.effects, g)
    ensures Follows(d, m, m', g, k1, k2)
  {
  }

  lemma NoneThenFollows(d: Diagram, m1: Machine, m2: Machine, m3: Machine, g: nat, k1: nat, k2: nat)
    requires g < |d.phases| == |m3.phases| && k1 < |d.phases[g].children| && k2 < |d.phases[g].children|
    requires EffectsAvoid(d, m1.effects, m2.effects, g) && Follows(d, m2, m3, g, k1, k2)
    ensures Follows(d, m1, m3, g, k1, k2)
  {
    var c1, c2 := Child(d, g, k1), Child(d, g, k2);
    if Precedes(m3.phases[g].execOrder, k1, k2) {
      NoneThenOrdered(d, m1.effects, m2.effects, m3.effects, c1, c2);
    }
  }

  /** Nothing of the first child is added, and the execution order stays. */
  lemma FollowsThenNone(d: Diagram, m1: Machine, m2: Machine, m3: Machine, g: nat, k1: nat, k2: nat)
    requires g < |d.phases| == |m2.phases| == |m3.phases| && k1 < |d.phases[g].children| && k2 < |d.phases[g].children|
    requires Follows(d, m1, m2, g, k1, k2) && EffectsAvoid(d, m2.effects, m3.effects, Child(d, g, k1))
    requires m3.phases[g].execOrder == m2.phases[g].execOrder
    ensures Follows(d, m1, m3, g, k1, k2)
  {
    var c1, c2 := Child(d, g, k1), Child(d, g, k2);
    if Precedes(m3.phases[g].execOrder, k1, k2) {
      OrderedThenNone(d, m1.effects, m2.effects, m3.effects, c1, c2);
    }
  }

  lemma FollowsThenAvoids(d: Diagram, m1: Machine, m2: Machine, m3: Machine, g: nat, k1: nat, k2: nat)
    requires g < |d.phases| == |m2.phases| == |m3.phases| && k1 < |d.phases[g].children| && k2 < |d.phases[g].children|
    requires Follows(d, m1, m2, g, k1, k2) && Avoids(d, m2, m3, g)
    ensures Follows(d, m1, m3, g, k1, k2)
  {
    FollowsThenNone(d, m1, m2, m3, g, k1, k2);
  }

  /** Main result: whatever one update does below two children of a mix phase, it does in the
      execution order of these children. */
  lemma {:induction false} UpdateFollows(d: Diagram, e: Env, m: Machine, p: nat, g: nat, k1: nat, k2: nat)
    requires Pre(d, m, p) && InSubtree(d, p, g) && g < |d.phases| && d.phases[g].kind.Mix?
    requires k1 < |d.phases[g].children| && k2 < |d.phases[g].children| && k1 != k2
    ensures Follows(d, m, Update(d, e, m, p).m, g, k1, k2)
    decreases |d.phases| - p, 3 - Rank(m.phases[p].state), 5, 0
  {
    var r := Advance(d, e, m, p);
    match m.phases[p].state {
      case Idle =>
        OnStartAdds(d, e, m, p);
        OwnFollows(d, e, m, r, p, g, k1, k2);
      case Start =>
        if StartDecision(d, e, m, p) == Satisfied {
          OnRunAdds(d, e, m, p);
        }
        OwnFollows(d, e, m, r, p, g, k1, k2);
      case Run =>
        TryEndFollows(d, e, m, p, g, k1, k2);
      case End =>
    }
  }

  /** A phase's own start effects are not among those of its children. */
  lemma {:induction false} OwnFollows(d: Diagram, e: Env, m: Machine, r: Step, p: nat, g: nat, k1: nat, k2: nat)
    requires Pre(d, m, p) && InSubtree(d, p, g) && g < |d.phases| && d.phases[g].kind.Mix?
    requires k1 < |d.phases[g].children| && k2 < |d.phases[g].children| && k1 != k2
    requires r == Advance(d, e, m, p) && (m.phases[p].state == Idle || m.phases[p].state == Start)
    requires Adds(d, m.effects, r.m.effects, p, p + 1)
    ensures Follows(d, m, Update(d, e, m, p).m, g, k1, k2)
    decreases |d.phases| - p, 3 - Rank(m.phases[p].state), 4, 0
  {
    var c1, c2, m' := Child(d, g, k1), Child(d, g, k2), Update(d, e, m, p).m;
    if r.out == Returned(true) {
      UpdateFollows(d, e, r.m, p, g, k1, k2);
      if Precedes(m'.phases[g].execOrder, k1, k2) {
        NoneThenOrdered(d, m.effects, r.m.effects, m'.effects, c1, c2);
      }
    }
  }

  lemma {:induction false} TryEndFollows(d: Diagram, e: Env, m: Machine, p: nat, g: nat, k1: nat, k2: nat)
    requires Pre(d, m, p) && InSubtree(d, p, g) && g < |d.phases| && d.phases[g].kind.Mix? && m.phases[p].state == Run
    requires k1 < |d.phases[g].children| && k2 < |d.phases[g].children| && k1 != k2
    ensures Follows(d, m, Update(d, e, m, p).m, g, k1, k2)
    decreases |d.phases| - p, 1, 4, 0
  {
    DoRunUpdateFollows(d, e, m, p, g, k1, k2);
    var r1 := DoRunUpdate(d, e, m, p);
    if r1.out == Returned(true) {
      OnEndKeeps(d, r1.m, p, g);
      OnEndKeepsEffects(d, r1.m, p);
    }
    RunningUpdate(d, e, m, p);
  }

  lemma {:induction false} DoRunUpdateFollows(d: Diagram, e: Env, m: Machine, p: nat, g: nat, k1: nat, k2: nat)
    requires Pre(d, m, p) && InSubtree(d, p, g) && g < |d.phases| && d.phases[g].kind.Mix? && m.phases[p].state == Run
    requires k1 < |d.phases[g].children| && k2 < |d.phases[g].children| && k1 != k2
    ensures Follows(d, m, DoRunUpdate(d, e, m, p).m, g, k1, k2)
    decreases |d.phases| - p, 0, 3, 0
  {
    var r1 := UpdateContent(d, e, m, p);
    ContentFollows(d, e, m, p, g, k1, k2);
    if r1.out.Returned? {
      var r2 := UpdateSystemActions(d, e, r1.m, p, 0);
      OperationsAfterContent(d, e, m, p, g, k1, k2);
      if r2.out.Returned? {
        ConcludeKeepsEffects(d, e, r2.m, p);
      }
    }
  }

  /** Either the children of `p` or its operations have `g`, not both. */
  lemma {:induction false} OperationsAfterContent(d: Diagram, e: Env, m: Machine, p: nat, g: nat, k1: nat, k2: nat)
    requires Pre(d, m, p) && InSubtree(d, p, g) && g < |d.phases| && d.phases[g].kind.Mix? && m.phases[p].state == Run
    requires k1 < |d.phases[g].children| && k2 < |d.phases[g].children| && k1 != k2
    requires var r1 := UpdateContent(d, e, m, p); r1.out.Returned? && Follows(d, m, r1.m, g, k1, k2)
    ensures Follows(d, m, UpdateSystemActions(d, e, UpdateContent(d, e, m, p).m, p, 0).m, g, k1, k2)
    decreases |d.phases| - p, 0, 2, 1
  {
    var r1 := UpdateContent(d, e, m, p);
    var r2 := UpdateSystemActions(d, e, r1.m, p, 0);
    if p == g {
      forall j: nat | j < |d.phases[p].systemActions| ensures !InSubtree(d, Operation(d, p, j), Child(d, g, k1)) {
        OperationsFirst(d, p, j, k1);
      }
      OperationsAvoid(d, e, r1.m, p, 0, Child(d, g, k1));
      FollowsThenNone(d, m, r1.m, r2.m, g, k1, k2);
    } else if k: nat :| k < |d.phases[p].children| && InSubtree(d, Child(d, p, k), g) {
      forall j: nat | j < |d.phases[p].systemActions| ensures !InSubtree(d, Operation(d, p, j), g) {
        OperationsFirst(d, p, j, k);
      }
      OperationsAvoid(d, e, r1.m, p, 0, g);
      FollowsThenAvoids(d, m, r1.m, r2.m, g, k1, k2);
    } else {
      ContentAvoids(d, e, m, p, g);
      OperationsFollow(d, e, r1.m, p, 0, g, k1, k2);
      NoneThenFollows(d, m, r1.m, r2.m, g, k1, k2);
    }
  }

  lemma ContentAvoids(d: Diagram, e: Env, m: Machine, p: nat, x: nat)
    requires Pre(d, m, p) && m.phases[p].state == Run && p < x < |d.phases|
    requires forall k: nat :: k < |d.phases[p].children| ==> !InSubtree(d, Child(d, p, k), x)
    ensures EffectsAvoid(d, m.effects, UpdateContent(d, e, m, p).m.effects, x)
  {
    if d.phases[p].kind.Mix? {
      var r1 := SortIfNeeded(d, e, m, p);
      if r1.out.Returned? {
        var m2 := SetChildrenDone(d, r1.m, p, true);
        ChildrenAvoid(d, e, m2, p, m2.phases[p].execOrder, 0, x);
      }
    } else if d.phases[p].kind.Serial? {
      InOrderAvoids(d, e, m, p, x);
    }
  }

  lemma {:induction false} ContentFollows(d: Diagram, e: Env, m: Machine, p: nat, g: nat, k1: nat, k2: nat)
    requires Pre(d, m, p) && InSubtree(d, p, g) && g < |d.phases| && d.phases[g].kind.Mix? && m.phases[p].state == Run
    requires k1 < |d.phases[g].children| && k2 < |d.phases[g].children| && k1 != k2
    ensures Follows(d, m, UpdateContent(d, e, m, p).m, g, k1, k2)
    decreases |d.phases| - p, 0, 2, 0
  {
    if d.phases[p].kind.Mix? {
      var r1 := SortIfNeeded(d, e, m, p);
      if r1.out.Returned? {
        var m2 := SetChildrenDone(d, r1.m, p, true);
        if p == g {
          if Precedes(m2.phases[g].execOrder, k1, k2) {
            ChildrenInOrder(d, e, m2, g, m2.phases[g].execOrder, 0, k1, k2);
          }
          UpdateChildrenAdds(d, e, m2, g, 0);
        } else {
          ChildrenFollow(d, e, m2, p, m2.phases[p].execOrder, 0, g, k1, k2);
        }
      }
    } else if d.phases[p].kind.Serial? {
      InOrderFollows(d, e, m, p, g, k1, k2);
    }
  }

  lemma ChildFollows(d: Diagram, e: Env, m: Machine, p: nat, k: nat, g: nat, k1: nat, k2: nat)
    requires Pre(d, m, p) && k < |d.phases[p].children| && p < g < |d.phases|
    requires k1 < |d.phases[g].children| && k2 < |d.phases[g].children|
    requires Follows(d, m, Update(d, e, m, Child(d, p, k)).m, g, k1, k2)
    ensures Follows(d, m, UpdateChild(d, e, m, p, k).m, g, k1, k2)
  {
  }

  lemma {:induction false} ChildrenFollow(d: Diagram, e: Env, m: Machine, p: nat, order: seq<nat>, i: nat, g: nat, k1: nat, k2: nat)
    requires Pre(d, m, p) && InSubtree(d, p, g) && p < g < |d.phases| && d.phases[g].kind.Mix?
    requires m.phases[p].state == Run && d.phases[p].kind.Mix?
    requires m.phases[p].execOrder == order && IsOrder(order, |d.phases[p].children|)
    requires k1 < |d.phases[g].children| && k2 < |d.phases[g].children| && k1 != k2
    ensures Follows(d, m, UpdateChildren(d, e, m, p, i).m, g, k1, k2)
    decreases |d.phases| - p, 0, 1, |order| - i
  {
    if i < |order| {
      var c := Child(d, p, order[i]);
      var r1 := UpdateChild(d, e, m, p, order[i]);
      var r := UpdateChildren(d, e, r1.m, p, i + 1);
      if InSubtree(d, c, g) {
        UpdateFollows(d, e, m, c, g, k1, k2);
        ChildFollows(d, e, m, p, order[i], g, k1, k2);
        if r1.out.Returned? {
          forall j | i + 1 <= j < |order| ensures !InSubtree(d, Child(d, p, order[j]), g) {
            ChildrenApart(d, p, order[i], order[j]);
          }
          ChildrenAvoid(d, e, r1.m, p, order, i + 1, g);
          FollowsThenAvoids(d, m, r1.m, r.m, g, k1, k2);
        }
      } else {
        KidAvoids(d, e, m, p, c, g);
        if r1.out.Returned? {
          ChildrenFollow(d, e, r1.m, p, order, i + 1, g, k1, k2);
          NoneThenFollows(d, m, r1.m, r.m, g, k1, k2);
        } else {
          NoneFollows(d, m, r1.m, g, k1, k2);
        }
      }
    }
  }

  lemma {:induction false} InOrderFollows(d: Diagram, e: Env, m: Machine, p: nat, g: nat, k1: nat, k2: nat)
    requires Pre(d, m, p) && InSubtree(d, p, g) && p < g < |d.phases| && d.phases[g].kind.Mix?
    requires m.phases[p].state == Run && d.phases[p].kind.Serial?
    requires k1 < |d.phases[g].children| && k2 < |d.phases[g].children| && k1 != k2
    ensures Follows(d, m, UpdateInOrder(d, e, m, p).m, g, k1, k2)
    decreases |d.phases| - p, 0, 1, |d.phases[p].children| - m.phases[p].position
  {
    var n := m.phases[p].position;
    if n < |d.phases[p].children| {
      var c := Child(d, p, n);
      var r1 := UpdateKid(d, e, m, p, c);
      if InSubtree(d, c, g) {
        UpdateFollows(d, e, m, c, g, k1, k2);
        if r1.out == Returned(true) {
          var m2 := PassChild(d, r1.m, p);
          forall k: nat | n + 1 <= k < |d.phases[p].children| ensures !InSubtree(d, Child(d, p, k), g) {
            ChildrenApart(d, p, n, k);
          }
          InOrderAvoids(d, e, m2, p, g);
          FollowsThenAvoids(d, m, m2, UpdateInOrder(d, e, m2, p).m, g, k1, k2);
        }
      } else {
        KidAvoids(d, e, m, p, c, g);
        if r1.out == Returned(true) {
          var m2 := PassChild(d, r1.m, p);
          InOrderFollows(d, e, m2, p, g, k1, k2);
          NoneThenFollows(d, m, m2, UpdateInOrder(d, e, m2, p).m, g, k1, k2);
        } else {
          NoneFollows(d, m, r1.m, g, k1, k2);
        }
      }
    }
  }

  lemma {:induction false} OperationsFollow(d: Diagram, e: Env, m: Machine, p: nat, i: nat, g: nat, k1: nat, k2: nat)
    requires Pre(d, m, p) && InSubtree(d, p, g) && p < g < |d.phases| && d.phases[g].kind.Mix? && m.phases[p].state == Run
    requires k1 < |d.phases[g].children| && k2 < |d.phases[g].children| && k1 != k2
    ensures Follows(d, m, UpdateSystemActions(d, e, m, p, i).m, g, k1, k2)
    decreases |d.phases| - p, 0, 1, |d.phases[p].systemActions| - i
  {
    if i < |d.phases[p].systemActions| {
      var c := Operation(d, p, i);
      var r1 := UpdateKid(d, e, m, p, c);
      var r := UpdateSystemActions(d, e, r1.m, p, i + 1);
      if InSubtree(d, c, g) {
        UpdateFollows(d, e, m, c, g, k1, k2);
        if r1.out.Returned? {
          forall j: nat | i + 1 <= j < |d.phases[p].systemActions| ensures !InSubtree(d, Operation(d, p, j), g) {
            OperationsApart(d, p, i, j);
          }
          OperationsAvoid(d, e, r1.m, p, i + 1, g);
          FollowsThenAvoids(d, m, r1.m, r.m, g, k1, k2);
        }
      } else {
        KidAvoids(d, e, m, p, c, g);
        if r1.out.Returned? {
          OperationsFollow(d, e, r1.m, p, i + 1, g, k1, k2);
          NoneThenFollows(d, m, r1.m, r.m, g, k1, k2);
        } else {
          NoneFollows(d, m, r1.m, g, k1, k2);
        }
      }
    }
  }

  lemma OperationsApart(d: Diagram, p: nat, i: nat, j: nat)
    requires p < |d.phases| && i < j < |d.phases[p].systemActions|
    ensures d.phases[Operation(d, p, i)].last <= Operation(d, p, j)
  {
    assert d.PhaseOK(p);
  }

  // ---------------------------------------------------------------- racers first

  /** Under orders that meet all dependencies and are installed, whatever an update does for a member comes
      after everything it does for a racer the member needs, and likewise for all phases on their two branches. */
  lemma DependencyFollows(d: Diagram, e: Env, m: Machine, s: nat, orders: Orders, deps: map<nat, seq<nat>>,
                          member: nat, racer: nat, g: nat, c1: nat, c2: nat)
    requires Pre(d, m, s) && OrdersEverything(d, s, orders) && AllMet(d, s, orders, deps)
    requires member in deps && racer in deps[member] && Siblings(d, s, member, racer, g, c1, c2)
    requires Active(d, s, member) && Active(d, s, racer)
    requires Update(d, e, m, s).m.phases[g].execOrder == orders[g]
    ensures var added := Update(d, e, m, s).m.effects;
            Ordered(d, m.effects, added, c2, c1) && ActsFirst(d, m.effects, added, racer, member)
  {
    var kids := d.phases[g].children;
    ChildrenDistinct(d, g);
    DependencyIsLocal(d, s, orders, member, racer, g, c1, c2);
    ActiveIsBelow(d, s, g);
    UpdateFollows(d, e, m, s, g, IndexOf(kids, c2), IndexOf(kids, c1));
    ActiveIsBelow(d, c1, member);
    ActiveIsBelow(d, c2, racer);
  }

  /** Among the added effects those of the racer come before those of the member. */
  ghost predicate ActsFirst(d: Diagram, a: seq<Effect>, b: seq<Effect>, racer: nat, member: nat) {
    a <= b && forall i, j :: |a| <= i < j < |b| && Owner(d, b[i]) == member ==> Owner(d, b[j]) != racer
  }

  /** The phases that have initial actions pending. */
  function Pending(phases: seq<PhaseRt>): set<nat> {
    set p: nat | p < |phases| && phases[p].initPending
  }

  /** What a race track that succeeds has found, in a world with these actors and phases. */
  ghost predicate Raced(d: Diagram, s: nat, existing: set<ActorId>, pending: set<nat>, orders: Orders, deps: map<nat, seq<nat>>)
    requires s < |d.phases|
  {
    && (exists racers :: Dependencies(d, s, existing, pending, racers, deps))
    && OrdersEverything(d, s, orders) && AllMet(d, s, orders, deps)
  }

  /** The race track behind `e` does its work: `actors` tells which actors exist after some effects. */
  ghost predicate RunsRaceTrack(d: Diagram, e: Env, actors: seq<Effect> -> set<ActorId>) {
    forall s: nat, phases, effects ::
      s < |d.phases| == |phases| && d.phases[s].kind.Mix? && e.sort(s, phases, effects).Some? ==>
        exists deps :: Raced(d, s, actors(effects), Pending(phases), e.sort(s, phases, effects).value, deps)
  }

  /** Main result: when the race track does its work, the first pass of the mix phase that starts it does, for
      every dependency, everything for the racer before anything for the member that needs it. */
  lemma RacerFirst(d: Diagram, e: Env, actors: seq<Effect> -> set<ActorId>, m: Machine, s: nat)
    returns (deps: map<nat, seq<nat>>)
    requires Pre(d, m, s) && d.phases[s].kind.Mix? && m.phases[s].state == Run && m.phases[s].execOrder == []
    requires RunsRaceTrack(d, e, actors) && e.sort(s, m.phases, m.effects).Some?
    ensures Raced(d, s, actors(m.effects), Pending(m.phases), e.sort(s, m.phases, m.effects).value, deps)
    ensures forall member, racer :: member in deps && racer in deps[member] ==>
              ActsFirst(d, m.effects, Update(d, e, m, s).m.effects, racer, member)
  {
    var orders := e.sort(s, m.phases, m.effects).value;
    deps :| Raced(d, s, actors(m.effects), Pending(m.phases), orders, deps);
    var racers :| Dependencies(d, s, actors(m.effects), Pending(m.phases), racers, deps);
    forall member, racer | member in deps && racer in deps[member]
      ensures ActsFirst(d, m.effects, Update(d, e, m, s).m.effects, racer, member)
    {
      DependenciesLead(d, s, actors(m.effects), Pending(m.phases), racers, deps, member, racer);
      OrderedPair(d, e, m, s, orders, deps, member, racer);
    }
  }

  lemma OrderedPair(d: Diagram, e: Env, m: Machine, s: nat, orders: Orders, deps: map<nat, seq<nat>>, member: nat, racer: nat)
    requires Pre(d, m, s) && d.phases[s].kind.Mix? && m.phases[s].state == Run && m.phases[s].execOrder == []
    requires e.sort(s, m.phases, m.effects) == Some(orders) && OrdersEverything(d, s, orders) && AllMet(d, s, orders, deps)
    requires member in deps && racer in deps[member] && Member(d, s, member) && Member(d, s, racer)
    requires racer != member && d.phases[racer].kind.ActorAction?
    ensures ActsFirst(d, m.effects, Update(d, e, m, s).m.effects, racer, member)
  {
    UnrelatedIfMet(d, s, orders, member, racer);
    var g, c1, c2 := Diverge(d, s, member, racer);
    OrderIsInstalled(d, e, m, s, orders, g);
    DependencyFollows(d, e, m, s, orders, deps, member, racer, g, c1, c2);
  }

  /** The orders found at the start of the pass are in place at its end. */
  lemma OrderIsInstalled(d: Diagram, e: Env, m: Machine, s: nat, orders: Orders, g: nat)
    requires Pre(d, m, s) && d.phases[s].kind.Mix? && m.phases[s].state == Run && m.phases[s].execOrder == []
    requires e.sort(s, m.phases, m.effects) == Some(orders) && OrdersEverything(d, s, orders)
    requires g < |d.phases| && Active(d, s, g) && d.phases[g].kind.Mix?
    ensures Update(d, e, m, s).m.phases[g].execOrder == orders[g]
  {
    var m1 := SetExecOrders(d, m, s, orders);
    SortedUpdate(d, e, m, s, orders);
    OrdersFit(d, m, s, orders);
    SortedAreCovered(d, m1, s, orders, g);
    UpdateKeepsOrder(d, e, m1, s, g);
  }

  /** The pass goes on as if the execution orders had been there before. */
  lemma SortedUpdate(d: Diagram, e: Env, m: Machine, s: nat, orders: Orders)
    requires Pre(d, m, s) && d.phases[s].kind.Mix? && m.phases[s].state == Run && m.phases[s].execOrder == []
    requires e.sort(s, m.phases, m.effects) == Some(orders) && OrdersOK(d, s, orders)
    ensures var m1 := SetExecOrders(d, m, s, orders);
            && m1.phases[s].execOrder == orders[s] != []
            && Update(d, e, m, s) == Update(d, e, m1, s)
  {
    var m1 := SetExecOrders(d, m, s, orders);
    SortedRunUpdate(d, e, m, s, orders);
    RunningUpdate(d, e, m, s);
    RunningUpdate(d, e, m1, s);
  }

  lemma SortedRunUpdate(d: Diagram, e: Env, m: Machine, s: nat, orders: Orders)
    requires Pre(d, m, s) && d.phases[s].kind.Mix? && m.phases[s].state == Run && m.phases[s].execOrder == []
    requires e.sort(s, m.phases, m.effects) == Some(orders) && OrdersOK(d, s, orders)
    ensures var m1 := SetExecOrders(d, m, s, orders);
            m1.phases[s].execOrder == orders[s] != [] && DoRunUpdate(d, e, m, s) == DoRunUpdate(d, e, m1, s)
  {
    var m1 := SetExecOrders(d, m, s, orders);
    OrdersFit(d, m, s, orders);
    assert SortIfNeeded(d, e, m, s) == SortIfNeeded(d, e, m1, s) == Step(m1, Returned(true));
  }
}
