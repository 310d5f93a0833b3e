/** The phase diagram executor as the source runs it: run-time fields updated in place, by
    loops. Every method is proved equal to the function that specifies it. */
module PhaseDiagramExecution {
  import opened Wrappers
  import opened Scenario
  import S = PhaseSemantics
  import opened PhaseSemantics
  import opened PhaseTree
  import opened SuperStep
  import opened ActionLifeCycle
  import X = Execution
  import opened Execution

  lemma {:induction false} UnskippedOneMore(d: Diagram, m: Machine, p: nat, acts: seq<nat>, a: nat)
    requires Fits(d, m) && p < |d.phases| && d.Named(acts) && d.Named(acts + [a])
    ensures Unskipped(d, m, p, acts + [a])
         == Unskipped(d, m, p, acts) + if a in Finals(d, p) && m.status[a] == Skipped then [] else [a]
    decreases |acts|
  {
    if acts != [] {
      assert (acts + [a])[1..] == acts[1..] + [a];
      UnskippedOneMore(d, m, p, acts[1..], a);
    }
  }

  ghost function MorePasses(r: Passes, count: nat): Passes {
    Passes(r.step, r.count + count)
  }

  lemma FirstPass(d: Diagram, e: Env, m: Machine, repeat: bool)
    requires Pre(d, m, 0)
    ensures var r := S.Update(d, e, m.(transition := false), 0);
            var again := r.out.Returned? && repeat && r.m.transition;
            RunPasses(d, e, m, repeat) == if again then MorePasses(RunPasses(d, e, r.m, repeat), 1) else Passes(r, 1)
  {
  }

  class PhaseDiagramExecutor {
    const d: Diagram
    // Run-time fields of the phases, and the event status of every action
    var phases: seq<PhaseRt>
    var status: seq<ActionStatus>
    // Actor phases started in this event, and those already dispatched
    var toDispatch: set<nat>
    var inProcess: set<nat>
    var hasPhaseStateTransition: bool
    // What was done to the world, and what was published
    var effects: seq<Effect>
    var trace: seq<Event>

    function M(): Machine
      reads this
    {
      Machine(phases, status, toDispatch, inProcess, hasPhaseStateTransition, effects, trace)
    }

    /** What holds between events. */
    ghost predicate Valid()
      reads this
    {
      BetweenEvents(d, M())
    }

    constructor (d: Diagram)
      ensures this.d == d && M() == Initial(d) && Valid()
    {
      this.d := d;
      var m := Initial(d);
      phases, status, toDispatch, inProcess := m.phases, m.status, m.toDispatch, m.inProcess;
      hasPhaseStateTransition, effects, trace := false, [], [];
      InitialIsBetweenEvents(d);
    }

    // -------------------------------------------------------------- actions

    method NotifyComplete(a: nat, s: ActionStatus)
      requires a < |d.actions|
      modifies this`trace
      ensures M() == S.NotifyComplete(d, old(M()), a, s)
    {
      if !d.actions[a].kind.IsSystem() {
        trace := trace + [ActionCompleteEvent(a, s)];
      }
    }

    method Preempt(a: nat)
      requires Fits(d, M()) && a < |d.actions|
      modifies this`status, this`trace
      ensures M() == S.Preempt(d, old(M()), a)
    {
      match status[a] {
        case Unspecified =>
          status := status[a := Skipped];
        case Dispatched =>
          status := status[a := Interrupted];
          NotifyComplete(a, Interrupted);
        case _ =>
      }
    }

    method Complete(a: nat) returns (out: Outcome)
      requires Fits(d, M()) && a < |d.actions|
      modifies this`status, this`trace
      ensures Step(M(), out) == S.Complete(d, old(M()), a)
    {
      out := Returned(true);
      match status[a] {
        case Unspecified =>
          out := Raised(EngineError);
        case Dispatched =>
          status := status[a := Done];
          NotifyComplete(a, Done);
        case _ =>
      }
    }

    method PreemptFinals(p: nat)
      requires Pre(d, M(), p)
      modifies this`status, this`trace
      ensures M() == PreemptAll(d, old(M()), Finals(d, p))
    {
      var acts := Finals(d, p);
      for i := 0 to |acts|
        invariant Fits(d, M())
        invariant PreemptAll(d, M(), acts[i..]) == PreemptAll(d, old(M()), acts)
      {
        Preempt(acts[i]);
        assert acts[i..][1..] == acts[i + 1..];
      }
    }

    method DispatchFinalActions(p: nat)
      requires Pre(d, M(), p)
      modifies this`status
      ensures M() == DispatchAll(d, old(M()), Finals(d, p))
    {
      var acts := Finals(d, p);
      for i := 0 to |acts|
        invariant Fits(d, M())
        invariant DispatchAll(d, M(), acts[i..]) == DispatchAll(d, old(M()), acts)
      {
        if status[acts[i]] == Unspecified {
          status := status[acts[i] := Dispatched];
        }
        assert acts[i..][1..] == acts[i + 1..];
      }
    }

    method UpdatePhaseStatus(e: Env, p: nat) returns (out: Outcome)
      requires Pre(d, M(), p)
      modifies this`status, this`trace
      ensures Step(M(), out) == CompleteMet(d, e, old(M()), Finals(d, p))
    {
      var acts := Finals(d, p);
      for i := 0 to |acts|
        invariant Fits(d, M())
        invariant CompleteMet(d, e, M(), acts[i..]) == CompleteMet(d, e, old(M()), acts)
      {
        assert acts[i..][1..] == acts[i + 1..];
        if status[acts[i]] == Dispatched {
          var met := CheckStatus(d, e, effects, acts[i]);
          if met == Raises {
            return Raised(EngineError);
          }
          if met == Satisfied && d.actions[acts[i]].kind.HasRegularEnding() {
            var _ := Complete(acts[i]);
          }
        }
      }
      out := Returned(true);
    }

    method Apply(e: Env, eff: Effect) returns (out: Outcome)
      requires Fits(d, M()) && (eff.ApplyAction? ==> eff.action < |d.actions|)
      modifies this`effects
      ensures Step(M(), out) == S.Apply(d, e, old(M()), eff)
    {
      var raises := e.raises(eff, effects);
      effects := effects + [eff];
      if eff.ApplyAction? && d.actions[eff.action].kind.ScenarioSuccess? {
        out := Raised(SuccessReported);
      } else if eff.ApplyAction? && d.actions[eff.action].kind.ScenarioFailure? {
        out := Raised(FailureReported);
      } else {
        out := if raises then Raised(EngineError) else Returned(true);
      }
    }

    method ApplyActions(e: Env, acts: seq<nat>) returns (out: Outcome)
      requires Fits(d, M()) && d.Named(acts)
      modifies this`effects
      ensures Step(M(), out) == ApplyAll(d, e, old(M()), acts)
    {
      for i := 0 to |acts|
        invariant Fits(d, M())
        invariant ApplyAll(d, e, M(), acts[i..]) == ApplyAll(d, e, old(M()), acts)
      {
        assert acts[i..][1..] == acts[i + 1..];
        out := Apply(e, ApplyAction(acts[i]));
        if out.Raised? {
          return;
        }
      }
      out := Returned(true);
    }

    // -------------------------------------------------------------- conflicts

    /** Phase `q` gives way to the starting phase `p`. */
    method DetectAndResolveConflict(q: nat, p: nat)
      requires Fits(d, M()) && q < |d.phases| && p < |d.phases|
      modifies this`status, this`trace
      ensures M() == S.DetectAndResolveConflict(d, old(M()), q, p)
    {
      if !SameActor(d, q, p) {
        return;
      }
      var acts, news := Finals(d, q), Finals(d, p);
      for j := 0 to |news|
        invariant Fits(d, M())
        invariant PreemptForAll(d, M(), acts, news[j..]) == PreemptForAll(d, old(M()), acts, news)
      {
        assert news[j..][1..] == news[j + 1..];
        ghost var m0 := M();
        for i := 0 to |acts|
          invariant Fits(d, M())
          invariant PreemptConflicting(d, M(), acts[i..], news[j]) == PreemptConflicting(d, m0, acts, news[j])
        {
          assert acts[i..][1..] == acts[i + 1..];
          if d.actions[acts[i]].kind.InConflictWith(d.actions[news[j]].kind) {
            Preempt(acts[i]);
          }
        }
      }
    }

    method ResolveAll(tracked: set<nat>, p: nat)
      requires Fits(d, M()) && p < |d.phases|
      modifies this`status, this`trace
      ensures M() == ResolveTracked(d, old(M()), d.idOrder, tracked, p)
    {
      var ids := d.idOrder;
      for i := 0 to |ids|
        invariant Fits(d, M())
        invariant ResolveTracked(d, M(), ids[i..], tracked, p) == ResolveTracked(d, old(M()), ids, tracked, p)
      {
        assert ids[i..][1..] == ids[i + 1..];
        if ids[i] in tracked {
          DetectAndResolveConflict(ids[i], p);
        }
      }
    }

    method NotifyActorActionPhaseStarted(p: nat)
      requires Fits(d, M()) && p < |d.phases|
      modifies this`status, this`trace, this`toDispatch
      ensures M() == NotifyStarted(d, old(M()), p)
    {
      ResolveAll(toDispatch, p);
      toDispatch := toDispatch + {p};
      ResolveAll(inProcess, p);
    }

    // -------------------------------------------------------------- transitions

    method OnStart(e: Env, p: nat) returns (out: Outcome)
      requires Pre(d, M(), p) && phases[p].state == Idle
      modifies this
      ensures Step(M(), out) == S.OnStart(d, e, old(M()), p)
    {
      phases := phases[p := phases[p].(state := Start)];
      assert M() == SetState(d, old(M()), p, Start);
      if d.phases[p].startCondition.Some? {
        out := Apply(e, ApplyStart(p));
      } else {
        out := Returned(true);
      }
    }

    method OnRun(e: Env, p: nat) returns (out: Outcome)
      requires Pre(d, M(), p) && phases[p].state == Start
      modifies this
      ensures Step(M(), out) == S.OnRun(d, e, old(M()), p)
    {
      if d.phases[p].kind.ActorAction? {
        out := Apply(e, InitializeActor(p));
        if out.Raised? {
          return;
        }
        NotifyActorActionPhaseStarted(p);
      } else if d.phases[p].kind.SystemAction? {
        DispatchFinalActions(p);
      }
      ghost var m0 := M();
      phases := phases[p := phases[p].(state := Run)];
      assert M() == SetState(d, m0, p, Run);
      out := EnterRun(e, p);
    }

    /** Applies the end condition and the actions of a phase that was just set running. */
    method EnterRun(e: Env, p: nat) returns (out: Outcome)
      requires Pre(d, M(), p)
      modifies this`effects
      ensures Step(M(), out) == AfterRun(d, e, old(M()), p)
    {
      if d.phases[p].endCondition.Some? {
        out := Apply(e, ApplyEnd(p));
        if out.Raised? {
          return;
        }
      }
      out := ApplyActions(e, Initials(d, p) + Invariants(d, p) + Finals(d, p));
      if out.Raised? {
        return;
      }
      var fine := CheckAll(e, Initials(d, p));
      if !fine {
        out := Raised(EngineError);
      }
    }

    /** Checks actions one by one; a violation only warns, an exception is reported. */
    method CheckAll(e: Env, acts: seq<nat>) returns (fine: bool)
      requires d.Named(acts)
      ensures fine == NoneRaises(d, e, effects, acts)
    {
      for i := 0 to |acts|
        invariant forall j :: 0 <= j < i ==> CheckStatus(d, e, effects, acts[j]) != Raises
      {
        if CheckStatus(d, e, effects, acts[i]) == Raises {
          return false;
        }
      }
      fine := true;
    }

    method OnEnd(p: nat)
      requires Pre(d, M(), p)
      modifies this
      ensures M() == S.OnEnd(d, old(M()), p)
      decreases |d.phases| - p, 1
    {
      if d.phases[p].kind.Mix? {
        EndChildrenFrom(p, 0);
      } else if d.phases[p].kind.Serial? {
        if phases[p].position < |d.phases[p].children| {
          EndChildrenFrom(p, phases[p].position);
        }
      } else {
        if d.phases[p].kind.ActorAction? && phases[p].state == Run {
          toDispatch, inProcess := toDispatch - {p}, inProcess - {p};
        }
        if phases[p].state != End {
          PreemptFinals(p);
        }
      }
      assert M() == EndBelow(d, old(M()), p);
      phases := phases[p := phases[p].(state := End)];
    }

    method EndChildrenFrom(p: nat, k: nat)
      requires Pre(d, M(), p) && k <= |d.phases[p].children|
      modifies this
      ensures M() == EndChildren(d, old(M()), p, k)
      decreases |d.phases| - p, 0, 1
    {
      ghost var ended := EndRest(d, M(), p, k);
      for i := k to |d.phases[p].children|
        invariant Pre(d, M(), p) && EndRest(d, M(), p, i) == ended
      {
        EndChild(p, i, ended);
      }
    }

    method EndChild(p: nat, i: nat, ghost ended: Machine)
      requires Pre(d, M(), p) && i < |d.phases[p].children| && EndRest(d, M(), p, i) == ended
      modifies this
      ensures Pre(d, M(), p) && EndRest(d, M(), p, i + 1) == ended
      decreases |d.phases| - p, 0, 0
    {
      EndFirstChild(d, M(), p, i);
      OnEnd(Child(d, p, i));
    }

    // -------------------------------------------------------------- updates

    /** Promotes phase `p` until its state no longer changes. */
    method Update(e: Env, p: nat) returns (out: Outcome)
      requires Pre(d, M(), p)
      modifies this
      ensures Step(M(), out) == S.Update(d, e, old(M()), p)
      decreases |d.phases| - p, 5
    {
      var changeState := true;
      while changeState
        invariant Pre(d, M(), p)
        invariant changeState ==> S.Update(d, e, M(), p) == S.Update(d, e, old(M()), p)
        invariant !changeState ==> S.Update(d, e, old(M()), p) == Step(M(), Returned(phases[p].state == End))
        decreases 3 - Rank(phases[p].state), changeState
      {
        out := Advance(e, p);
        if out.Raised? {
          return;
        }
        changeState := out.value;
      }
      out := Returned(phases[p].state == End);
    }

    method Advance(e: Env, p: nat) returns (out: Outcome)
      requires Pre(d, M(), p)
      modifies this
      ensures Step(M(), out) == S.Advance(d, e, old(M()), p)
      decreases |d.phases| - p, 4
    {
      match phases[p].state {
        case Idle =>
          out := OnStart(e, p);
          hasPhaseStateTransition := hasPhaseStateTransition || out.Returned?;
        case Start =>
          var start := StartDecision(d, e, M(), p);
          if start == Raises {
            out := Raised(EngineError);
          } else if start == Unsatisfied {
            out := Returned(false);
          } else {
            out := OnRun(e, p);
            hasPhaseStateTransition := hasPhaseStateTransition || out.Returned?;
          }
          if out.Returned? {
            out := Returned(start == Satisfied);
          }
        case Run =>
          out := DoRunUpdate(e, p);
          if out == Returned(true) {
            OnEnd(p);
            if p == 0 {
              out := Raised(SuccessReported);
            } else {
              hasPhaseStateTransition := true;
            }
          }
        case End =>
          out := Returned(false);
      }
    }

    method DoRunUpdate(e: Env, p: nat) returns (out: Outcome)
      requires Pre(d, M(), p) && phases[p].state == Run
      modifies this
      ensures Step(M(), out) == S.DoRunUpdate(d, e, old(M()), p)
      decreases |d.phases| - p, 3
    {
      out := UpdateContent(e, p);
      if out.Raised? {
        return;
      }
      out := UpdateOperations(e, p);
      if out.Raised? {
        return;
      }
      out := Conclude(e, p);
    }

    method Conclude(e: Env, p: nat) returns (out: Outcome)
      requires Pre(d, M(), p)
      modifies this
      ensures Step(M(), out) == S.Conclude(d, e, old(M()), p)
    {
      if phases[p].initPending {
        phases := phases[p := phases[p].(initPending := false)];
        return Returned(false);
      }
      if !d.phases[p].kind.Mix? && !d.phases[p].kind.Serial? {
        out := UpdatePhaseStatus(e, p);
        if out.Raised? {
          return;
        }
      }
      out := EndDecision(d, e, M(), p);
    }

    method UpdateContent(e: Env, p: nat) returns (out: Outcome)
      requires Pre(d, M(), p) && phases[p].state == Run
      modifies this
      ensures Step(M(), out) == S.UpdateContent(d, e, old(M()), p)
      decreases |d.phases| - p, 2
    {
      match d.phases[p].kind {
        case Mix =>
          out := UpdateMix(e, p);
        case Serial =>
          out := UpdateSerial(e, p);
        case _ =>
          var fine := CheckAll(e, Invariants(d, p));
          out := if fine then Returned(true) else Raised(EngineError);
      }
    }

    method UpdateMix(e: Env, p: nat) returns (out: Outcome)
      requires Pre(d, M(), p) && phases[p].state == Run && d.phases[p].kind.Mix?
      modifies this
      ensures Step(M(), out) == S.UpdateContent(d, e, old(M()), p)
      decreases |d.phases| - p, 1
    {
      out := GenerateOrder(e, p);
      if out.Raised? {
        return;
      }
      ghost var m1 := M();
      phases := phases[p := phases[p].(childrenDone := true)];
      ghost var m2 := M();
      assert m2 == SetChildrenDone(d, m1, p, true);
      var order := phases[p].execOrder;
      for i := 0 to |order|
        invariant Pre(d, M(), p) && phases[p].state == Run && phases[p].execOrder == order
        invariant UpdateChildren(d, e, M(), p, i) == UpdateChildren(d, e, m2, p, 0)
      {
        out := UpdateChildAt(e, p, order[i]);
        if out.Raised? {
          return;
        }
      }
      out := Returned(true);
    }

    method UpdateChildAt(e: Env, p: nat, k: nat) returns (out: Outcome)
      requires Pre(d, M(), p) && k < |d.phases[p].children|
      modifies this
      ensures Step(M(), out) == UpdateChild(d, e, old(M()), p, k)
      decreases |d.phases| - p, 0
    {
      out := Update(e, Child(d, p, k));
      ghost var m1 := M();
      SetTwice(d, m1, p, false, false);
      if out == Returned(false) && phases[p].childrenDone {
        phases := phases[p := phases[p].(childrenDone := false)];
      }
    }

    method GenerateOrder(e: Env, p: nat) returns (out: Outcome)
      requires Pre(d, M(), p) && d.phases[p].kind.Mix?
      modifies this`phases
      ensures Step(M(), out) == SortIfNeeded(d, e, old(M()), p)
    {
      if phases[p].execOrder != [] {
        return Returned(true);
      }
      match RaceTrackOrders(d, e, M(), p) {
        case None =>
          out := Raised(EngineError);
        case Some(orders) =>
          phases := WithOrders(phases, orders);
          out := Returned(true);
      }
    }

    method UpdateSerial(e: Env, p: nat) returns (out: Outcome)
      requires Pre(d, M(), p) && phases[p].state == Run && d.phases[p].kind.Serial?
      modifies this
      ensures Step(M(), out) == UpdateInOrder(d, e, old(M()), p)
      decreases |d.phases| - p, 1
    {
      while phases[p].position < |d.phases[p].children|
        invariant Pre(d, M(), p) && phases[p].state == Run
        invariant UpdateInOrder(d, e, M(), p) == UpdateInOrder(d, e, old(M()), p)
        decreases |d.phases[p].children| - phases[p].position
      {
        out := Update(e, Child(d, p, phases[p].position));
        if out.Raised? {
          return;
        }
        if !out.value {
          return Returned(true);
        }
        PassCurrent(p);
      }
      out := Returned(true);
    }

    method PassCurrent(p: nat)
      requires Pre(d, M(), p) && phases[p].position < |d.phases[p].children|
      modifies this`phases
      ensures M() == PassChild(d, old(M()), p)
    {
      phases := phases[p := phases[p].(position := phases[p].position + 1)];
      if phases[p].position == |d.phases[p].children| {
        phases := phases[p := phases[p].(childrenDone := true)];
      }
      assert phases == PassChild(d, old(M()), p).phases;
    }

    method UpdateOperations(e: Env, p: nat) returns (out: Outcome)
      requires Pre(d, M(), p) && phases[p].state == Run
      modifies this
      ensures Step(M(), out) == UpdateSystemActions(d, e, old(M()), p, 0)
      decreases |d.phases| - p, 1
    {
      for i := 0 to |d.phases[p].systemActions|
        invariant Pre(d, M(), p) && phases[p].state == Run
        invariant UpdateSystemActions(d, e, M(), p, i) == UpdateSystemActions(d, e, old(M()), p, 0)
      {
        out := Update(e, Operation(d, p, i));
        if out.Raised? {
          return;
        }
      }
      out := Returned(true);
    }

    // -------------------------------------------------------------- events

    /** Runs the scenario logic for one event; an update event takes at most `3n + 1` passes. */
    method ProcessEvent(e: Env, ev: SimulationEvent) returns (out: Outcome, ghost passes: nat)
      requires Valid()
      modifies this
      ensures Passes(Step(M(), out), passes) == X.ProcessEvent(d, e, old(M()), ev)
      ensures out.Returned? ==> Valid()
      ensures ActionsOK(d, M()) && Later(old(M()), M())
    {
      EventKeepsInvariants(d, e, M(), ev);
      out, passes := Returned(true), 0;
      if d.phases == [] || ev == OtherEvent {
        return;
      }
      SubtreeBounds(d, 0);
      out, passes := SuperStep(e, ev == ScenarioUpdate);
      if out.Raised? {
        return;
      }
      DispatchEvents();
      toDispatch := {};
      out := Returned(true);
    }

    method SuperStep(e: Env, isUpdate: bool) returns (out: Outcome, ghost passes: nat)
      requires Pre(d, M(), 0)
      modifies this
      ensures Passes(Step(M(), out), passes) == RunPasses(d, e, old(M()), isUpdate)
    {
      ghost var all := RunPasses(d, e, M(), isUpdate);
      out, passes := Returned(true), 0;
      var again := true;
      while again
        invariant Pre(d, M(), 0)
        invariant again ==> all == MorePasses(RunPasses(d, e, M(), isUpdate), passes)
        invariant !again ==> all == Passes(Step(M(), out), passes)
        decreases 3 * |d.phases| - RankSum(phases), again
      {
        out, again := Pass(e, isUpdate);
        passes := passes + 1;
      }
    }

    /** One pass; another one follows on an update event if some phase changed its state. */
    method Pass(e: Env, isUpdate: bool) returns (out: Outcome, again: bool)
      requires Pre(d, M(), 0)
      modifies this
      ensures Pre(d, M(), 0)
      ensures var all := RunPasses(d, e, old(M()), isUpdate);
              if again then all == MorePasses(RunPasses(d, e, M(), isUpdate), 1) else all == Passes(Step(M(), out), 1)
      ensures again ==> RankSum(old(phases)) < RankSum(phases) <= 3 * |d.phases|
    {
      FirstPass(d, e, M(), isUpdate);
      hasPhaseStateTransition := false;
      out := Update(e, 0);
      RankSumBounded(phases);
      again := out.Returned? && isUpdate && hasPhaseStateTransition;
    }

    method DispatchEvents()
      requires Fits(d, M())
      modifies this
      ensures M() == DispatchPhases(d, old(M()), d.idOrder)
    {
      var ids := d.idOrder;
      for i := 0 to |ids|
        invariant Fits(d, M())
        invariant DispatchPhases(d, M(), ids[i..]) == DispatchPhases(d, old(M()), ids)
      {
        assert ids[i..][1..] == ids[i + 1..];
        if ids[i] in toDispatch {
          ActionsNamed(d, ids[i]);
          var acts := GetUnskippedActions(ids[i]);
          if acts != [] {
            trace := trace + [ActionEvent(ids[i], acts)];
            inProcess := inProcess + {ids[i]};
            SubtreeBounds(d, ids[i]);
            DispatchFinalActions(ids[i]);
          }
        }
      }
    }

    method GetUnskippedActions(p: nat) returns (acts: seq<nat>)
      requires Fits(d, M()) && p < |d.phases| && d.Named(d.phases[p].actions)
      ensures acts == Unskipped(d, M(), p, d.phases[p].actions)
    {
      acts := [];
      var all := d.phases[p].actions;
      for i := 0 to |all|
        invariant acts == Unskipped(d, M(), p, all[..i])
      {
        assert all[..i + 1] == all[..i] + [all[i]];
        UnskippedOneMore(d, M(), p, all[..i], all[i]);
        if !(all[i] in Finals(d, p) && status[all[i]] == Skipped) {
          acts := acts + [all[i]];
        }
      }
      assert all[..|all|] == all;
    }

    /** A client reports that action `a` is complete: between events this never throws. */
    method NotifyActionComplete(a: nat) returns (out: Outcome)
      requires Valid()
      modifies this
      ensures Step(M(), out) == X.NotifyActionComplete(d, old(M()), d.idOrder, a)
      ensures if old(InProcess(d, M(), a) && a < |status| && status[a] == Dispatched)
              then status == old(status)[a := Done] && trace == old(trace) + [ActionCompleteEvent(a, Done)]
              else status == old(status) && trace == old(trace)
      ensures phases == old(phases) && toDispatch == old(toDispatch) && inProcess == old(inProcess) && effects == old(effects)
      ensures out.Returned? && Valid() && Later(old(M()), M())
    {
      var ids := d.idOrder;
      CompletionKeepsInvariants(d, M(), ids, a);
      ReportCompletes(d, M(), a);
      for i := 0 to |ids|
        invariant M() == old(M())
        invariant X.NotifyActionComplete(d, M(), ids[i..], a) == X.NotifyActionComplete(d, M(), ids, a)
      {
        assert ids[i..][1..] == ids[i + 1..];
        if ids[i] in inProcess && a in Finals(d, ids[i]) {
          assert d.ActionOK(ids[i], a);
          out := Complete(a);
          return;
        }
      }
      out := Returned(true);
    }
  }
}
