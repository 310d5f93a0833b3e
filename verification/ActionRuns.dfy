/** Every update, every event and every client notification keeps the action invariant. */
module ActionRuns {
  import opened Scenario
  import opened PhaseSemantics
  import opened ActionLifeCycle
  import opened SuperStep

  // ---------------------------------------------------------------- transitions

  lemma {:induction false} DispatchAllEffect(d: Diagram, m: Machine, acts: seq<nat>)
    requires Fits(d, m) && d.Named(acts)
    ensures var m' := DispatchAll(d, m, acts);
            |m'.status| == |m.status| && forall a :: 0 <= a < |m.status| ==>
              m'.status[a] == if a in acts && m.status[a] == Unspecified then Dispatched else m.status[a]
    decreases |acts|
  {
    if acts != [] {
      var m1 := if m.status[acts[0]] == Unspecified then m.(status := m.status[acts[0] := Dispatched]) else m;
      DispatchAllEffect(d, m1, acts[1..]);
      assert forall a :: a in acts <==> a == acts[0] || a in acts[1..];
    }
  }

  lemma SystemRunKeepsActions(d: Diagram, m: Machine, p: nat)
    requires Pre(d, m, p) && ActionsOK(d, m) && m.phases[p].state == Start && d.phases[p].kind.SystemAction?
    ensures ActionsOK(d, SetState(d, DispatchAll(d, m, Finals(d, p)), p, Run))
    ensures Later(m, DispatchAll(d, m, Finals(d, p)))
  {
    var m1 := DispatchAll(d, m, Finals(d, p));
    var m2 := SetState(d, m1, p, Run);
    DispatchAllEffect(d, m, Finals(d, p));
    OtherPhasesUntouched(d, m, m1, p);
    forall a: nat | IsActorFinal(d, a) ensures m1.status[a] == m.status[a] {
      assert PhaseUntouched(d, m, m1, d.actions[a].owner);
    }
    forall q: nat | q < |d.phases| ensures PhaseActionsOK(d, m2, q) {
      assert PhaseActionsOK(d, m, q);
    }
    forall q: nat, r: nat | q < |d.phases| && r < |d.phases| ensures NoConflict(d, m2, q, r) {
      assert NoConflict(d, m, q, r);
      if q != p && r != p && SameActor(d, q, r) {
        assert PhaseUntouched(d, m, m1, q) && PhaseUntouched(d, m, m1, r);
      }
    }
  }

  lemma CompositeRunKeepsActions(d: Diagram, m: Machine, p: nat)
    requires Pre(d, m, p) && ActionsOK(d, m) && m.phases[p].state == Start
    requires d.phases[p].kind.Mix? || d.phases[p].kind.Serial?
    ensures ActionsOK(d, SetState(d, m, p, Run))
  {
    NoFinals(d, p);
    var m2 := SetState(d, m, p, Run);
    forall q: nat | q < |d.phases| ensures PhaseActionsOK(d, m2, q) {
      assert PhaseActionsOK(d, m, q);
    }
    forall q: nat, r: nat | q < |d.phases| && r < |d.phases| ensures NoConflict(d, m2, q, r) {
      assert NoConflict(d, m, q, r);
    }
  }

  lemma NoFinals(d: Diagram, p: nat)
    requires p < |d.phases|
    ensures d.phases[p].kind.Mix? || d.phases[p].kind.Serial? ==> Finals(d, p) == []
  {
    assert d.PhaseOK(p);
  }

  lemma OnRunKeepsActions(d: Diagram, e: Env, m: Machine, p: nat)
    requires Pre(d, m, p) && ActionsOK(d, m) && m.phases[p].state == Start
    ensures var m' := OnRun(d, e, m, p).m;
            ActionsOK(d, m') && Later(m, m')
  {
    var r1 := if d.phases[p].kind.ActorAction? then Apply(d, e, m, InitializeActor(p)) else Step(m, Returned(true));
    SameForActions(d, m, r1.m);
    if r1.out.Returned? {
      var m2 := SetState(d, BeforeRun(d, r1.m, p), p, Run);
      BeforeRunKeepsActions(d, r1.m, p);
      SameForActions(d, m2, AfterRun(d, e, m2, p).m);
    }
  }

  lemma BeforeRunKeepsActions(d: Diagram, m: Machine, p: nat)
    requires Pre(d, m, p) && ActionsOK(d, m) && m.phases[p].state == Start
    ensures var m1 := BeforeRun(d, m, p);
            ActionsOK(d, SetState(d, m1, p, Run)) && Later(m, m1)
  {
    match d.phases[p].kind {
      case ActorAction(_) => ActorRunKeepsActions(d, m, p);
      case SystemAction => SystemRunKeepsActions(d, m, p);
      case _ => CompositeRunKeepsActions(d, m, p);
    }
  }

  /** Ending an action phase untracks it and takes its final actions out of play. */
  lemma EndActionsEffect(d: Diagram, m: Machine, p: nat)
    requires Pre(d, m, p) && ActionsOK(d, m)
    ensures var m1 := EndActions(d, m, p);
            && Tracked(d, m, m1) && Only(m, m1, Finals(d, p))
            && m1.toDispatch == m.toDispatch - {p} && m1.inProcess == m.inProcess - {p}
            && forall i :: 0 <= i < |Finals(d, p)| ==> Terminal(m1.status[Finals(d, p)[i]])
  {
    var m1 := EndActions(d, m, p);
    var m0 := m.(toDispatch := m1.toDispatch, inProcess := m1.inProcess);
    assert PhaseActionsOK(d, m, p);
    assert m1.toDispatch == m.toDispatch - {p} && m1.inProcess == m.inProcess - {p};
    if m.phases[p].state == End {
      forall i | 0 <= i < |Finals(d, p)| ensures Terminal(m1.status[Finals(d, p)[i]]) {
        assert Finals(d, p)[i] in Finals(d, p);
      }
    } else {
      PreemptAllTracked(d, m0, Finals(d, p));
      assert LivesOK(d, m) ==> LivesOK(d, m0);
    }
  }

  lemma EndLeafKeepsActions(d: Diagram, m: Machine, p: nat)
    requires Pre(d, m, p) && ActionsOK(d, m) && (d.phases[p].kind.ActorAction? || d.phases[p].kind.SystemAction?)
    ensures ActionsOK(d, OnEnd(d, m, p)) && Later(m, OnEnd(d, m, p))
  {
    EndActionsEffect(d, m, p);
    EndedPhaseKeepsActions(d, m, EndActions(d, m, p), p);
  }

  lemma EndedPhaseKeepsActions(d: Diagram, m: Machine, m1: Machine, p: nat)
    requires Pre(d, m, p) && ActionsOK(d, m) && Fits(d, m1)
    requires Tracked(d, m, m1) && Only(m, m1, Finals(d, p)) && m1.phases == m.phases
    requires m1.toDispatch == m.toDispatch - {p} && m1.inProcess == m.inProcess - {p}
    requires forall i :: 0 <= i < |Finals(d, p)| ==> Terminal(m1.status[Finals(d, p)[i]])
    ensures ActionsOK(d, SetState(d, m1, p, End))
  {
    var m2 := SetState(d, m1, p, End);
    OtherPhasesUntouched(d, m, m1, p);
    forall q: nat | q < |d.phases| ensures PhaseActionsOK(d, m2, q) {
      assert PhaseActionsOK(d, m, q);
      if q != p {
        assert PhaseUntouched(d, m, m1, q);
      } else {
        forall a | a in Finals(d, p) ensures a < |d.actions| && Terminal(m2.status[a]) {
          var i :| 0 <= i < |Finals(d, p)| && Finals(d, p)[i] == a;
        }
      }
    }
    forall q: nat, r: nat | q < |d.phases| && r < |d.phases| ensures NoConflict(d, m2, q, r) {
      assert NoConflict(d, m, q, r);
      if q != p && r != p {
        assert PhaseUntouched(d, m, m1, q) && PhaseUntouched(d, m, m1, r);
      }
    }
  }

  lemma {:induction false} OnEndKeepsActions(d: Diagram, m: Machine, p: nat)
    requires Pre(d, m, p) && ActionsOK(d, m)
    ensures ActionsOK(d, OnEnd(d, m, p)) && Later(m, OnEnd(d, m, p))
    decreases |d.phases| - p, 1, 0
  {
    if d.phases[p].kind.ActorAction? || d.phases[p].kind.SystemAction? {
      EndLeafKeepsActions(d, m, p);
    } else {
      EndChildrenKeepsActions(d, m, p, if d.phases[p].kind.Mix? then 0 else m.phases[p].position);
      EndCompositeKeepsActions(d, EndBelow(d, m, p), p);
    }
  }

  lemma EndCompositeKeepsActions(d: Diagram, m: Machine, p: nat)
    requires Pre(d, m, p) && ActionsOK(d, m) && (d.phases[p].kind.Mix? || d.phases[p].kind.Serial?)
    ensures ActionsOK(d, SetState(d, m, p, End))
  {
    NoFinals(d, p);
    var m2 := SetState(d, m, p, End);
    forall q: nat | q < |d.phases| ensures PhaseActionsOK(d, m2, q) {
      assert PhaseActionsOK(d, m, q);
    }
    forall q: nat, r: nat | q < |d.phases| && r < |d.phases| ensures NoConflict(d, m2, q, r) {
      assert NoConflict(d, m, q, r);
    }
  }

  lemma {:induction false} EndChildrenKeepsActions(d: Diagram, m: Machine, p: nat, i: nat)
    requires Pre(d, m, p) && ActionsOK(d, m)
    ensures ActionsOK(d, EndChildren(d, m, p, i)) && Later(m, EndChildren(d, m, p, i))
    decreases |d.phases| - p, 0, |d.phases[p].children| - i
  {
    if i < |d.phases[p].children| {
      var m1 := OnEnd(d, m, Child(d, p, i));
      OnEndKeepsActions(d, m, Child(d, p, i));
      EndChildrenKeepsActions(d, m1, p, i + 1);
      LaterIsTransitive(m, m1, EndChildren(d, m1, p, i + 1));
    }
  }

  // ---------------------------------------------------------------- updates

  /** Main result: an update keeps the action invariant, whether or not it throws. */
  lemma {:induction false} UpdateKeepsActions(d: Diagram, e: Env, m: Machine, p: nat)
    requires Pre(d, m, p) && ActionsOK(d, m)
    ensures var m' := Update(d, e, m, p).m;
            ActionsOK(d, m') && Later(m, m')
    decreases |d.phases| - p, 3 - Rank(m.phases[p].state), 5, 0
  {
    AdvanceKeepsActions(d, e, m, p);
    var r := Advance(d, e, m, p);
    if r.out == Returned(true) {
      UpdateKeepsActions(d, e, r.m, p);
      LaterIsTransitive(m, r.m, Update(d, e, r.m, p).m);
    }
  }

  lemma {:induction false} AdvanceKeepsActions(d: Diagram, e: Env, m: Machine, p: nat)
    requires Pre(d, m, p) && ActionsOK(d, m)
    ensures var m' := Advance(d, e, m, p).m;
            ActionsOK(d, m') && Later(m, m')
    decreases |d.phases| - p, 3 - Rank(m.phases[p].state), 4, 0
  {
    match m.phases[p].state {
      case Idle =>
        OnStartKeepsActions(d, e, m, p);
      case Start =>
        if StartDecision(d, e, m, p) == Satisfied {
          OnRunKeepsActions(d, e, m, p);
          FlagKeepsActions(d, OnRun(d, e, m, p));
        }
      case Run =>
        TryEndKeepsActions(d, e, m, p);
      case End =>
    }
  }

  lemma FlagKeepsActions(d: Diagram, r: Step)
    requires ActionsOK(d, r.m)
    ensures ActionsOK(d, Notify(r).m)
  {
    SameForActions(d, r.m, Notify(r).m);
  }

  lemma OnStartKeepsActions(d: Diagram, e: Env, m: Machine, p: nat)
    requires Pre(d, m, p) && ActionsOK(d, m) && m.phases[p].state == Idle
    ensures ActionsOK(d, Notify(OnStart(d, e, m, p)).m)
  {
    StartedKeepsActions(d, m, Notify(OnStart(d, e, m, p)).m, p);
  }

  lemma StartedKeepsActions(d: Diagram, m: Machine, m': Machine, p: nat)
    requires ActionsOK(d, m) && p < |d.phases| == |m'.phases| && m.phases[p].state == Idle
    requires m'.phases[p].state == Idle || m'.phases[p].state == Start
    requires forall q :: 0 <= q < |m.phases| && q != p ==> m'.phases[q] == m.phases[q]
    requires m'.status == m.status && m'.toDispatch == m.toDispatch && m'.inProcess == m.inProcess && m'.trace == m.trace
    ensures ActionsOK(d, m')
  {
    forall q: nat | q < |d.phases| ensures PhaseActionsOK(d, m', q) {
      assert PhaseActionsOK(d, m, q);
    }
    forall q: nat, r: nat | q < |d.phases| && r < |d.phases| ensures NoConflict(d, m', q, r) {
      assert NoConflict(d, m, q, r);
    }
  }

  lemma {:induction false} TryEndKeepsActions(d: Diagram, e: Env, m: Machine, p: nat)
    requires Pre(d, m, p) && ActionsOK(d, m) && m.phases[p].state == Run
    ensures var m' := TryEnd(d, e, m, p).m;
            ActionsOK(d, m') && Later(m, m')
    decreases |d.phases| - p, 1, 3, 0
  {
    DoRunUpdateKeepsActions(d, e, m, p);
    var r1 := DoRunUpdate(d, e, m, p);
    if r1.out == Returned(true) {
      OnEndKeepsActions(d, r1.m, p);
      LaterIsTransitive(m, r1.m, OnEnd(d, r1.m, p));
      FlagKeepsActions(d, Step(OnEnd(d, r1.m, p), Returned(true)));
    }
  }

  lemma {:induction false} DoRunUpdateKeepsActions(d: Diagram, e: Env, m: Machine, p: nat)
    requires Pre(d, m, p) && ActionsOK(d, m) && m.phases[p].state == Run
    ensures var m' := DoRunUpdate(d, e, m, p).m;
            ActionsOK(d, m') && Later(m, m')
    decreases |d.phases| - p, 0, 3, 0
  {
    UpdateContentKeepsActions(d, e, m, p);
    var r1 := UpdateContent(d, e, m, p);
    if r1.out.Returned? {
      UpdateSystemActionsKeepsActions(d, e, r1.m, p, 0);
      var r2 := UpdateSystemActions(d, e, r1.m, p, 0);
      LaterIsTransitive(m, r1.m, r2.m);
      if r2.out.Returned? {
        ConcludeKeepsActions(d, e, r2.m, p);
        LaterIsTransitive(m, r2.m, Conclude(d, e, r2.m, p).m);
      }
    }
  }

  lemma ConcludeKeepsActions(d: Diagram, e: Env, m: Machine, p: nat)
    requires Pre(d, m, p) && ActionsOK(d, m) && m.phases[p].state == Run
    ensures var m' := Conclude(d, e, m, p).m;
            ActionsOK(d, m') && Later(m, m')
  {
    if m.phases[p].initPending {
      SameForActions(d, m, ClearInitPending(d, m, p));
    } else {
      CompletingKeepsActions(d, e, m, p);
    }
  }

  lemma {:induction false} UpdateContentKeepsActions(d: Diagram, e: Env, m: Machine, p: nat)
    requires Pre(d, m, p) && ActionsOK(d, m) && m.phases[p].state == Run
    ensures var m' := UpdateContent(d, e, m, p).m;
            ActionsOK(d, m') && Later(m, m')
    decreases |d.phases| - p, 0, 2, 0
  {
    match d.phases[p].kind {
      case Mix =>
        var r1 := SortIfNeeded(d, e, m, p);
        SameForActions(d, m, r1.m);
        if r1.out.Returned? {
          var m2 := SetChildrenDone(d, r1.m, p, true);
          SameForActions(d, r1.m, m2);
          UpdateChildrenKeepsActions(d, e, m2, p, 0);
        }
      case Serial =>
        UpdateInOrderKeepsActions(d, e, m, p);
      case _ =>
    }
  }

  lemma {:induction false} UpdateKidKeepsActions(d: Diagram, e: Env, m: Machine, p: nat, c: nat)
    requires Pre(d, m, p) && ActionsOK(d, m) && d.KidOK(p, c)
    ensures var m' := UpdateKid(d, e, m, p, c).m;
            ActionsOK(d, m') && Later(m, m')
    decreases |d.phases| - p, 0, 0, 0
  {
    UpdateKeepsActions(d, e, m, c);
  }

  lemma {:induction false} UpdateChildrenKeepsActions(d: Diagram, e: Env, m: Machine, p: nat, i: nat)
    requires Pre(d, m, p) && ActionsOK(d, m) && m.phases[p].state == Run && d.phases[p].kind.Mix?
    requires IsOrder(m.phases[p].execOrder, |d.phases[p].children|)
    ensures var m' := UpdateChildren(d, e, m, p, i).m;
            ActionsOK(d, m') && Later(m, m')
    decreases |d.phases| - p, 0, 1, |m.phases[p].execOrder| - i
  {
    if i < |m.phases[p].execOrder| {
      var k := m.phases[p].execOrder[i];
      UpdateChildKeepsActions(d, e, m, p, k);
      var r1 := UpdateChild(d, e, m, p, k);
      if r1.out.Returned? {
        UpdateChildrenKeepsActions(d, e, r1.m, p, i + 1);
      }
    }
  }

  lemma {:induction false} UpdateChildKeepsActions(d: Diagram, e: Env, m: Machine, p: nat, k: nat)
    requires Pre(d, m, p) && ActionsOK(d, m) && k < |d.phases[p].children|
    ensures var m' := UpdateChild(d, e, m, p, k).m;
            ActionsOK(d, m') && Later(m, m')
    decreases |d.phases| - p, 0, 0, 1
  {
    UpdateKidKeepsActions(d, e, m, p, Child(d, p, k));
    var r1 := UpdateKid(d, e, m, p, Child(d, p, k));
    SameForActions(d, r1.m, SetChildrenDone(d, r1.m, p, false));
  }

  lemma {:induction false} UpdateInOrderKeepsActions(d: Diagram, e: Env, m: Machine, p: nat)
    requires Pre(d, m, p) && ActionsOK(d, m) && m.phases[p].state == Run && d.phases[p].kind.Serial?
    ensures var m' := UpdateInOrder(d, e, m, p).m;
            ActionsOK(d, m') && Later(m, m')
    decreases |d.phases| - p, 0, 1, |d.phases[p].children| - m.phases[p].position
  {
    if m.phases[p].position < |d.phases[p].children| {
      var c := Child(d, p, m.phases[p].position);
      UpdateKidKeepsActions(d, e, m, p, c);
      var r1 := UpdateKid(d, e, m, p, c);
      if r1.out == Returned(true) {
        SameForActions(d, r1.m, PassChild(d, r1.m, p));
        UpdateInOrderKeepsActions(d, e, PassChild(d, r1.m, p), p);
        LaterIsTransitive(m, r1.m, UpdateInOrder(d, e, PassChild(d, r1.m, p), p).m);
      }
    }
  }

  lemma {:induction false} UpdateSystemActionsKeepsActions(d: Diagram, e: Env, m: Machine, p: nat, i: nat)
    requires Pre(d, m, p) && ActionsOK(d, m) && m.phases[p].state == Run
    ensures var m' := UpdateSystemActions(d, e, m, p, i).m;
            ActionsOK(d, m') && Later(m, m')
    decreases |d.phases| - p, 0, 1, |d.phases[p].systemActions| - i
  {
    if i < |d.phases[p].systemActions| {
      var c := Operation(d, p, i);
      UpdateKidKeepsActions(d, e, m, p, c);
      var r1 := UpdateKid(d, e, m, p, c);
      if r1.out.Returned? {
        UpdateSystemActionsKeepsActions(d, e, r1.m, p, i + 1);
        LaterIsTransitive(m, r1.m, UpdateSystemActions(d, e, r1.m, p, i + 1).m);
      }
    }
  }

  lemma {:induction false} RunPassesKeepsActions(d: Diagram, e: Env, m: Machine, repeat: bool)
    requires Pre(d, m, 0) && ActionsOK(d, m)
    ensures var m' := RunPasses(d, e, m, repeat).step.m;
            ActionsOK(d, m') && Later(m, m')
    decreases 3 * |d.phases| - RankSum(m.phases)
  {
    var m0 := m.(transition := false);
    SameForActions(d, m, m0);
    UpdateKeepsActions(d, e, m0, 0);
    var r := Update(d, e, m0, 0);
    RankSumBounded(r.m.phases);
    if r.out.Returned? && repeat && r.m.transition {
      RunPassesKeepsActions(d, e, r.m, repeat);
      LaterIsTransitive(m, r.m, RunPasses(d, e, r.m, repeat).step.m);
    }
  }
}
