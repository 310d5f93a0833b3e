/** Super-step semantics: passes repeat until no phase changes state, and then every phase is held
    by its own condition alone. */
module SuperStep {
  import opened Wrappers
  import opened Scenario
  import opened PhaseSemantics
  import opened PhaseTree

  // ---------------------------------------------------------------- passes

  /** Outcome of the passes of one event, and their number. */
  datatype Passes = Passes(step: Step, count: nat)

  /** Updates the root; on an update event, repeats while some phase changed state.
      There are at most three transitions a phase, so `3n + 1` passes suffice. */
  function RunPasses(d: Diagram, e: Env, m: Machine, repeat: bool): (r: Passes)
    requires Pre(d, m, 0)
    ensures Frame(d, m.(transition := r.step.m.transition), r.step.m, 0, |d.phases|)
    ensures 1 <= r.count <= 3 * |d.phases| + 1 - RankSum(m.phases)
    ensures !repeat ==> r.count == 1
    ensures repeat && r.step.out.Returned? ==> !r.step.m.transition
    decreases 3 * |d.phases| - RankSum(m.phases)
  {
    var r := Update(d, e, m.(transition := false), 0);
    RankSumBounded(m.phases);
    RankSumBounded(r.m.phases);
    if r.out.Raised? || !repeat || !r.m.transition then Passes(r, 1)
    else
      var rest := RunPasses(d, e, r.m, repeat);
      Passes(rest.step, rest.count + 1)
  }

  lemma {:induction false} RunPassesKeepsTree(d: Diagram, e: Env, m: Machine, repeat: bool)
    requires Pre(d, m, 0) && AtRest(d, m.phases, 0)
    ensures var r := RunPasses(d, e, m, repeat).step;
            r.out.Returned? ==> AtRest(d, r.m.phases, 0)
    decreases 3 * |d.phases| - RankSum(m.phases)
  {
    UpdateKeepsTree(d, e, m.(transition := false), 0);
    var r := Update(d, e, m.(transition := false), 0);
    RankSumBounded(r.m.phases);
    if r.out.Returned? && repeat && r.m.transition {
      RunPassesKeepsTree(d, e, r.m, repeat);
    }
  }

  // ---------------------------------------------------------------- quiet changes

  predicate Met(d: Diagram, e: Env, effects: seq<Effect>, a: nat)
    requires a < |d.actions|
  {
    CheckStatus(d, e, effects, a) == Satisfied && d.actions[a].kind.HasRegularEnding()
  }

  /** Apart from phases, nothing but completed actions whose objective was met, and published events, differs. */
  ghost predicate Settles(d: Diagram, e: Env, m: Machine, m': Machine) {
    && |m.status| == |m'.status| == |d.actions|
    && m' == m.(phases := m'.phases, status := m'.status, trace := m'.trace)
    && (forall a :: 0 <= a < |m.status| ==>
          m'.status[a] == m.status[a] || (m.status[a] == Dispatched && m'.status[a] == Done && Met(d, e, m.effects, a)))
  }

  ghost predicate Quiet(d: Diagram, e: Env, m: Machine, m': Machine) {
    Settles(d, e, m, m') && m'.phases == m.phases
  }

  lemma SettlesChain(d: Diagram, e: Env, m1: Machine, m2: Machine, m3: Machine)
    requires Settles(d, e, m1, m2) && Settles(d, e, m2, m3)
    ensures Settles(d, e, m1, m3)
  {
  }

  // ---------------------------------------------------------------- poised phases

  /** Every phase of the subtree of `p` that an update reaches has done all it can until its condition
      changes: it starts or runs, no initial action is pending, final actions are not met, without an end
      condition it is not complete, and nothing but its condition can throw. */
  ghost predicate Poised(d: Diagram, e: Env, m: Machine, p: nat)
    requires |m.phases| == |d.phases| && |m.status| == |d.actions| && p < |d.phases|
    decreases |d.phases| - p, 1
  {
    match m.phases[p].state
    case Idle => false
    case Start => true
    case Run =>
      && !m.phases[p].initPending
      && ContentPoised(d, e, m, p)
      && OperationsPoised(d, e, m, p, 0)
      && ActionsPoised(d, e, m, p)
      && (d.phases[p].endCondition == None ==> !HasCompleted(d, m, p))
    case End => true
  }

  ghost predicate ContentPoised(d: Diagram, e: Env, m: Machine, p: nat)
    requires |m.phases| == |d.phases| && |m.status| == |d.actions| && p < |d.phases|
    decreases |d.phases| - p, 0
  {
    match d.phases[p].kind
    case Mix => m.phases[p].execOrder != [] && forall i: nat :: i < |d.phases[p].children| ==> Poised(d, e, m, Child(d, p, i))
    case Serial => m.phases[p].position < |d.phases[p].children| ==> Poised(d, e, m, Child(d, p, m.phases[p].position))
    case _ => NoneRaises(d, e, m.effects, Invariants(d, p))
  }

  ghost predicate OperationsPoised(d: Diagram, e: Env, m: Machine, p: nat, from: nat)
    requires |m.phases| == |d.phases| && |m.status| == |d.actions| && p < |d.phases|
    decreases |d.phases| - p, 0
  {
    forall i: nat :: from <= i < |d.phases[p].systemActions| ==> Poised(d, e, m, Operation(d, p, i))
  }

  /** A dispatched final action is not met, and checking it does not throw. */
  ghost predicate ActionsPoised(d: Diagram, e: Env, m: Machine, p: nat)
    requires |m.status| == |d.actions| && p < |d.phases|
  {
    d.phases[p].kind.ActorAction? || d.phases[p].kind.SystemAction? ==> Unmet(d, e, m, Finals(d, p))
  }

  ghost predicate Unmet(d: Diagram, e: Env, m: Machine, acts: seq<nat>)
    requires |m.status| == |d.actions| && d.Named(acts)
  {
    forall i :: 0 <= i < |acts| && m.status[acts[i]] == Dispatched ==>
      CheckStatus(d, e, m.effects, acts[i]) != Raises && !Met(d, e, m.effects, acts[i])
  }

  // ---------------------------------------------------------------- settling keeps phases poised

  ghost predicate SameSubtree(d: Diagram, m: Machine, m': Machine, p: nat)
    requires p < |d.phases|
  {
    |m.phases| == |m'.phases| && forall q :: p <= q < d.phases[p].last && q < |m.phases| ==> m'.phases[q] == m.phases[q]
  }

  lemma {:induction false} SettlingKeepsPoised(d: Diagram, e: Env, m: Machine, m': Machine, p: nat)
    requires |m.phases| == |d.phases| && |m.status| == |d.actions| && p < |d.phases|
    requires Settles(d, e, m, m') && SameSubtree(d, m, m', p) && Poised(d, e, m, p)
    ensures Poised(d, e, m', p)
    decreases |d.phases| - p, 1
  {
    SubtreeBounds(d, p);
    if m.phases[p].state == Run {
      SettlingKeepsContent(d, e, m, m', p);
      SettlingKeepsOperations(d, e, m, m', p, 0);
      SettlingKeepsUnmet(d, e, m, m', p);
    }
  }

  lemma {:induction false} SettlingKeepsContent(d: Diagram, e: Env, m: Machine, m': Machine, p: nat)
    requires |m.phases| == |d.phases| && |m.status| == |d.actions| && p < |d.phases|
    requires Settles(d, e, m, m') && SameSubtree(d, m, m', p) && ContentPoised(d, e, m, p)
    ensures ContentPoised(d, e, m', p)
    decreases |d.phases| - p, 0
  {
    SubtreeBounds(d, p);
    match d.phases[p].kind {
      case Mix =>
        forall i: nat | i < |d.phases[p].children| ensures Poised(d, e, m', Child(d, p, i)) {
          SettlingKeepsPoised(d, e, m, m', Child(d, p, i));
        }
      case Serial =>
        if m.phases[p].position < |d.phases[p].children| {
          SettlingKeepsPoised(d, e, m, m', Child(d, p, m.phases[p].position));
        }
      case _ =>
    }
  }

  lemma {:induction false} SettlingKeepsOperations(d: Diagram, e: Env, m: Machine, m': Machine, p: nat, from: nat)
    requires |m.phases| == |d.phases| && |m.status| == |d.actions| && p < |d.phases|
    requires Settles(d, e, m, m') && SameSubtree(d, m, m', p) && OperationsPoised(d, e, m, p, from)
    ensures OperationsPoised(d, e, m', p, from)
    decreases |d.phases| - p, 0
  {
    forall i: nat | from <= i < |d.phases[p].systemActions| ensures Poised(d, e, m', Operation(d, p, i)) {
      SettlingKeepsPoised(d, e, m, m', Operation(d, p, i));
    }
  }

  lemma SettlingKeepsUnmet(d: Diagram, e: Env, m: Machine, m': Machine, p: nat)
    requires |m.phases| == |d.phases| == |m'.phases| && |m.status| == |d.actions| && p < |d.phases|
    requires Settles(d, e, m, m') && m'.phases[p] == m.phases[p] && ActionsPoised(d, e, m, p)
    ensures ActionsPoised(d, e, m', p)
    ensures HasCompleted(d, m', p) ==> HasCompleted(d, m, p)
  {
    if !HasCompleted(d, m, p) && !d.phases[p].kind.Mix? && !d.phases[p].kind.Serial? {
      var i :| 0 <= i < |Finals(d, p)| && !Terminal(m.status[Finals(d, p)[i]]);
      assert !Terminal(m'.status[Finals(d, p)[i]]);
    }
  }

  // ---------------------------------------------------------------- completing actions

  lemma {:induction false} CompleteMetIsQuiet(d: Diagram, e: Env, m: Machine, acts: seq<nat>)
    requires Fits(d, m) && d.Named(acts)
    ensures var r := CompleteMet(d, e, m, acts);
            r.out.Returned? ==> Quiet(d, e, m, r.m) && Unmet(d, e, r.m, acts)
    ensures Unmet(d, e, m, acts) ==> CompleteMet(d, e, m, acts) == Step(m, Returned(true))
    decreases |acts|
  {
    if acts != [] {
      var a, rest := acts[0], acts[1..];
      assert Unmet(d, e, m, acts) ==> Unmet(d, e, m, rest);
      if m.status[a] != Dispatched {
        CompleteMetIsQuiet(d, e, m, rest);
        StillUnmet(d, e, m, CompleteMet(d, e, m, rest), acts);
      } else if CheckStatus(d, e, m.effects, a) != Raises {
        var m1 := if Met(d, e, m.effects, a) then Complete(d, m, a).m else m;
        assert Quiet(d, e, m, m1);
        CompleteMetIsQuiet(d, e, m1, rest);
        StillUnmet(d, e, m1, CompleteMet(d, e, m1, rest), acts);
      }
    }
  }

  lemma StillUnmet(d: Diagram, e: Env, m: Machine, r: Step, acts: seq<nat>)
    requires Fits(d, m) && d.Named(acts) && acts != []
    requires r.out.Returned? ==> Quiet(d, e, m, r.m) && Unmet(d, e, r.m, acts[1..])
    requires Unmet(d, e, m, [acts[0]])
    ensures r.out.Returned? ==> Unmet(d, e, r.m, acts)
  {
    if r.out.Returned? {
      assert [acts[0]][0] == acts[0];
      forall i | 0 <= i < |acts| && r.m.status[acts[i]] == Dispatched
        ensures CheckStatus(d, e, r.m.effects, acts[i]) != Raises && !Met(d, e, r.m.effects, acts[i])
      {
        if i > 0 {
          assert acts[1..][i - 1] == acts[i];
        }
      }
    }
  }

  // ---------------------------------------------------------------- a quiet update leaves its subtree poised

  /** Main result: an update without a transition changes nothing but completed actions, and leaves its subtree poised. */
  lemma {:induction false} QuietUpdateIsPoised(d: Diagram, e: Env, m: Machine, p: nat)
    requires Pre(d, m, p) && AtRest(d, m.phases, p)
    ensures var r := Update(d, e, m, p);
            r.out.Returned? && !r.m.transition ==> Quiet(d, e, m, r.m) && Poised(d, e, r.m, p)
    decreases |d.phases| - p, 5
  {
    QuietAdvanceIsPoised(d, e, m, p);
  }

  lemma {:induction false} QuietAdvanceIsPoised(d: Diagram, e: Env, m: Machine, p: nat)
    requires Pre(d, m, p) && AtRest(d, m.phases, p)
    ensures var r := Advance(d, e, m, p);
            r.out.Returned? && !r.m.transition ==> !r.out.value && Quiet(d, e, m, r.m) && Poised(d, e, r.m, p)
    decreases |d.phases| - p, 4
  {
    if m.phases[p].state == Run {
      QuietRunIsPoised(d, e, m, p);
    }
  }

  lemma {:induction false} QuietRunIsPoised(d: Diagram, e: Env, m: Machine, p: nat)
    requires Pre(d, m, p) && AtRest(d, m.phases, p) && m.phases[p].state == Run
    ensures var r := DoRunUpdate(d, e, m, p);
            r.out == Returned(false) && !r.m.transition ==> Quiet(d, e, m, r.m) && Poised(d, e, r.m, p)
    decreases |d.phases| - p, 3
  {
    var r1 := UpdateContent(d, e, m, p);
    if r1.out.Returned? {
      UpdateContentKeepsTree(d, e, m, p);
      QuietContentIsPoised(d, e, m, p);
      var r2 := UpdateSystemActions(d, e, r1.m, p, 0);
      if r2.out.Returned? && !r2.m.transition {
        QuietOperationsArePoised(d, e, r1.m, p, 0, r2);
        SettlesChain(d, e, m, r1.m, r2.m);
        QuietEnding(d, e, r1.m, r2.m, p);
      }
    }
  }

  lemma QuietEnding(d: Diagram, e: Env, m1: Machine, m2: Machine, p: nat)
    requires Pre(d, m2, p) && m2.phases[p].state == Run && !m2.phases[p].initPending
    requires |m1.phases| == |d.phases| && |m1.status| == |d.actions| && Quiet(d, e, m1, m2)
    requires ContentPoised(d, e, m1, p) && OperationsPoised(d, e, m2, p, 0)
    ensures var r := Conclude(d, e, m2, p);
            r.out == Returned(false) ==> Quiet(d, e, m2, r.m) && Poised(d, e, r.m, p)
  {
    var r := Conclude(d, e, m2, p);
    if r.out == Returned(false) {
      SettlingKeepsContent(d, e, m1, m2, p);
      QuietDecision(d, e, m2, p);
      SettlingKeepsContent(d, e, m2, r.m, p);
      SettlingKeepsOperations(d, e, m2, r.m, p, 0);
    }
  }

  lemma QuietDecision(d: Diagram, e: Env, m: Machine, p: nat)
    requires Pre(d, m, p) && m.phases[p].state == Run && !m.phases[p].initPending
    requires Conclude(d, e, m, p).out == Returned(false)
    ensures var m' := Conclude(d, e, m, p).m;
            Quiet(d, e, m, m') && ActionsPoised(d, e, m', p) && (d.phases[p].endCondition == None ==> !HasCompleted(d, m', p))
  {
    if !(d.phases[p].kind.Mix? || d.phases[p].kind.Serial?) {
      CompleteMetIsQuiet(d, e, m, Finals(d, p));
    }
  }

  lemma {:induction false} QuietKidIsPoised(d: Diagram, e: Env, m: Machine, p: nat, c: nat)
    requires Pre(d, m, p) && d.KidOK(p, c) && Inner(d, m.phases, p)
    ensures var r := UpdateKid(d, e, m, p, c);
            r.out.Returned? && !r.m.transition ==> Quiet(d, e, m, r.m) && Poised(d, e, r.m, c)
    decreases |d.phases| - p, 0, 0
  {
    InnerBelow(d, m.phases, p, c);
    QuietUpdateIsPoised(d, e, m, c);
  }

  lemma {:induction false} QuietContentIsPoised(d: Diagram, e: Env, m: Machine, p: nat)
    requires Pre(d, m, p) && AtRest(d, m.phases, p) && m.phases[p].state == Run
    ensures var r := UpdateContent(d, e, m, p);
            r.out.Returned? && !r.m.transition ==> Quiet(d, e, m, r.m) && ContentPoised(d, e, r.m, p)
    decreases |d.phases| - p, 2
  {
    match d.phases[p].kind {
      case Mix =>
        QuietMixIsPoised(d, e, m, p);
      case Serial =>
        if m.phases[p].position < |d.phases[p].children| {
          QuietKidIsPoised(d, e, m, p, Child(d, p, m.phases[p].position));
        }
      case _ =>
    }
  }

  /** The completion flag of a mix phase is recomputed to what it was. */
  lemma {:induction false} QuietMixIsPoised(d: Diagram, e: Env, m: Machine, p: nat)
    requires Pre(d, m, p) && AtRest(d, m.phases, p) && m.phases[p].state == Run && d.phases[p].kind.Mix?
    ensures var r := UpdateContent(d, e, m, p);
            r.out.Returned? && !r.m.transition ==> Quiet(d, e, m, r.m) && ContentPoised(d, e, r.m, p)
    decreases |d.phases| - p, 1, |d.phases[p].children| + 1
  {
    var m1, r := SetChildrenDone(d, m, p, true), UpdateContent(d, e, m, p);
    assert OrderOK(d, m.phases, p);
    assert r == UpdateChildren(d, e, m1, p, 0);
    if r.out.Returned? && !r.m.transition {
      OwnFrame(d, m.phases, m1.phases, p);
      QuietChildrenArePoised(d, e, m1, p, m1.phases[p].execOrder, 0);
      MixKeepsTree(d, e, m, p);
      SetTwice(d, m, p, true, r.m.phases[p].childrenDone);
      SameCompletion(d, m, p, r.m.phases[p].childrenDone);
      VisitedArePoised(d, e, r.m, p);
    }
  }

  lemma SetTwice(d: Diagram, m: Machine, p: nat, x: bool, y: bool)
    requires Fits(d, m) && p < |d.phases|
    ensures SetChildrenDone(d, SetChildrenDone(d, m, p, x), p, y) == SetChildrenDone(d, m, p, y)
    ensures SetChildrenDone(d, m, p, m.phases[p].childrenDone) == m
  {
    assert m.phases == SetChildrenDone(d, m, p, m.phases[p].childrenDone).phases;
    assert SetChildrenDone(d, SetChildrenDone(d, m, p, x), p, y).phases == SetChildrenDone(d, m, p, y).phases;
  }

  lemma SameCompletion(d: Diagram, m: Machine, p: nat, done: bool)
    requires Pre(d, m, p) && m.phases[p].state == Run && d.phases[p].kind.Mix? && NodeOK(d, m.phases, p)
    requires NodeOK(d, SetChildrenDone(d, m, p, done).phases, p)
    ensures SetChildrenDone(d, m, p, done) == m
  {
    OwnFrame(d, m.phases, SetChildrenDone(d, m, p, done).phases, p);
    SetTwice(d, m, p, done, done);
  }

  ghost predicate OrderPoised(d: Diagram, e: Env, m: Machine, p: nat, order: seq<nat>, from: nat)
    requires |m.phases| == |d.phases| && |m.status| == |d.actions| && p < |d.phases|
  {
    forall j :: from <= j < |order| && order[j] < |d.phases[p].children| ==> Poised(d, e, m, Child(d, p, order[j]))
  }

  lemma VisitedArePoised(d: Diagram, e: Env, m: Machine, p: nat)
    requires Fits(d, m) && p < |d.phases| && d.phases[p].kind.Mix? && m.phases[p].execOrder != []
    requires OrderPoised(d, e, m, p, m.phases[p].execOrder, 0)
    ensures ContentPoised(d, e, m, p)
  {
    var order := m.phases[p].execOrder;
    assert OrderOK(d, m.phases, p);
    forall i: nat | i < |d.phases[p].children| ensures Poised(d, e, m, Child(d, p, i)) {
      assert i in order;
      var j :| 0 <= j < |order| && order[j] == i;
    }
  }

  /** Only statuses and the flag of `p` differ. */
  ghost predicate QuietBut(d: Diagram, e: Env, m: Machine, m': Machine, p: nat)
    requires Fits(d, m) && p < |d.phases|
  {
    && Settles(d, e, m, m') && |m'.phases| == |m.phases|
    && m'.phases == SetChildrenDone(d, m, p, m'.phases[p].childrenDone).phases
  }

  lemma QuietButChain(d: Diagram, e: Env, m1: Machine, m2: Machine, m3: Machine, p: nat, c: nat)
    requires Fits(d, m1) && Fits(d, m2) && p < |d.phases| && d.KidOK(p, c)
    requires QuietBut(d, e, m1, m2, p) && QuietBut(d, e, m2, m3, p) && Poised(d, e, m2, c)
    ensures QuietBut(d, e, m1, m3, p) && Poised(d, e, m3, c)
  {
    SettlesChain(d, e, m1, m2, m3);
    SettlingKeepsPoised(d, e, m2, m3, c);
  }

  lemma {:induction false} QuietChildrenArePoised(d: Diagram, e: Env, m: Machine, p: nat, order: seq<nat>, i: nat)
    requires Pre(d, m, p) && m.phases[p].state == Run && d.phases[p].kind.Mix?
    requires IsOrder(order, |d.phases[p].children|) && i <= |order| && m.phases[p].execOrder == order
    requires Inner(d, m.phases, p)
    ensures var r := UpdateChildren(d, e, m, p, i);
            r.out.Raised? || r.m.transition || (QuietBut(d, e, m, r.m, p) && OrderPoised(d, e, r.m, p, order, i))
    decreases |d.phases| - p, 1, |order| - i
  {
    if i < |order| {
      QuietChildIsPoised(d, e, m, p, order[i]);
      var r1 := UpdateChild(d, e, m, p, order[i]);
      if r1.out.Returned? && !r1.m.transition {
        QuietChildrenArePoised(d, e, r1.m, p, order, i + 1);
        var r := UpdateChildren(d, e, r1.m, p, i + 1);
        if r.out.Returned? && !r.m.transition {
          QuietButChain(d, e, m, r1.m, r.m, p, Child(d, p, order[i]));
        }
      }
    } else {
      SetTwice(d, m, p, true, true);
    }
  }

  lemma {:induction false} QuietChildIsPoised(d: Diagram, e: Env, m: Machine, p: nat, k: nat)
    requires Pre(d, m, p) && k < |d.phases[p].children| && Inner(d, m.phases, p)
    ensures var r := UpdateChild(d, e, m, p, k);
            r.out.Returned? && !r.m.transition ==>
              QuietBut(d, e, m, r.m, p) && Poised(d, e, r.m, Child(d, p, k)) && Inner(d, r.m.phases, p)
    decreases |d.phases| - p, 0, 1
  {
    var c := Child(d, p, k);
    QuietKidIsPoised(d, e, m, p, c);
    var r1 := UpdateKid(d, e, m, p, c);
    SetTwice(d, m, p, true, true);
    if r1.out == Returned(false) && !r1.m.transition {
      var m2 := SetChildrenDone(d, r1.m, p, false);
      OwnFrame(d, r1.m.phases, m2.phases, p);
      SettlingKeepsPoised(d, e, r1.m, m2, c);
    }
  }

  lemma {:induction false} QuietOperationsArePoised(d: Diagram, e: Env, m: Machine, p: nat, i: nat, r: Step)
    requires Pre(d, m, p) && m.phases[p].state == Run && Inner(d, m.phases, p) && r == OperationsRest(d, e, m, p, i)
    ensures r.out.Raised? || r.m.transition || (Quiet(d, e, m, r.m) && OperationsPoised(d, e, r.m, p, i))
    decreases |d.phases| - p, 1, |d.phases[p].systemActions| - i
  {
    if i < |d.phases[p].systemActions| {
      var c := Operation(d, p, i);
      var r1 := UpdateKid(d, e, m, p, c);
      UpdateFirstOperation(d, e, m, p, i);
      QuietKidIsPoised(d, e, m, p, c);
      if r1.out.Returned? && !r1.m.transition {
        QuietOperationsArePoised(d, e, r1.m, p, i + 1, r);
        if r.out.Returned? && !r.m.transition {
          SettlesChain(d, e, m, r1.m, r.m);
          SettlingKeepsPoised(d, e, r1.m, r.m, c);
        }
      }
    }
  }
}
