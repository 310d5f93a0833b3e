/** What the phase diagram executor does with one event, and what holds between events. */
module Execution {
  import opened Scenario
  import opened PhaseSemantics
  import opened PhaseTree
  import opened SuperStep
  import opened ActionLifeCycle
  import opened ActionRuns

  datatype SimulationEvent = SimulationStart | ScenarioUpdate | OtherEvent

  // ---------------------------------------------------------------- dispatching

  /** The actions of phase `p` in document order, without the skipped final ones. */
  function Unskipped(d: Diagram, m: Machine, p: nat, acts: seq<nat>): (r: seq<nat>)
    requires Fits(d, m) && p < |d.phases| && d.Named(acts)
    ensures forall a :: a in r <==> a in acts && !(a in Finals(d, p) && m.status[a] == Skipped)
  {
    if acts == [] then []
    else
      var rest := Unskipped(d, m, p, acts[1..]);
      if acts[0] in Finals(d, p) && m.status[acts[0]] == Skipped then rest else [acts[0]] + rest
  }

  /** Publishes the action event of a started phase, unless nothing is left to do. */
  function DispatchPhase(d: Diagram, m: Machine, p: nat): (r: Machine)
    requires Fits(d, m) && p < |d.phases|
    ensures Frame(d, m, r, 0, 0) && r.phases == m.phases && r.toDispatch == m.toDispatch
  {
    ActionsNamed(d, p);
    var acts := Unskipped(d, m, p, d.phases[p].actions);
    if acts == [] then m
    else
      DispatchAll(d, m.(trace := m.trace + [ActionEvent(p, acts)], inProcess := m.inProcess + {p}), Finals(d, p))
  }

  function DispatchPhases(d: Diagram, m: Machine, ids: seq<nat>): (r: Machine)
    requires Fits(d, m) && forall i :: 0 <= i < |ids| ==> ids[i] < |d.phases|
    ensures Frame(d, m, r, 0, 0) && r.phases == m.phases && r.toDispatch == m.toDispatch
    decreases |ids|
  {
    if ids == [] then m
    else DispatchPhases(d, if ids[0] in m.toDispatch then DispatchPhase(d, m, ids[0]) else m, ids[1..])
  }

  // ---------------------------------------------------------------- one event

  function ProcessEvent(d: Diagram, e: Env, m: Machine, ev: SimulationEvent): (r: Passes)
    requires Fits(d, m)
    ensures Fits(d, r.step.m)
    ensures r.count <= 3 * |d.phases| + 1 - RankSum(m.phases) || r.count == 0
  {
    if d.phases == [] || ev == OtherEvent then Passes(Step(m, Returned(true)), 0)
    else
      SubtreeBounds(d, 0);
      var r := RunPasses(d, e, m, ev == ScenarioUpdate);
      if r.step.out.Raised? then r
      else Passes(Step(DispatchPhases(d, r.step.m, d.idOrder).(toDispatch := {}), Returned(true)), r.count)
  }

  /** Completes the action a client reports, if a phase in process has it. */
  function NotifyActionComplete(d: Diagram, m: Machine, ids: seq<nat>, a: nat): (r: Step)
    requires Fits(d, m) && (forall i :: 0 <= i < |ids| ==> ids[i] < |d.phases|)
    ensures Frame(d, m, r.m, 0, 0)
    decreases |ids|
  {
    if ids == [] then Step(m, Returned(true))
    else if ids[0] in m.inProcess && a in Finals(d, ids[0]) then
      assert d.ActionOK(ids[0], a);
      Complete(d, m, a)
    else NotifyActionComplete(d, m, ids[1..], a)
  }

  // ---------------------------------------------------------------- between events

  ghost predicate BetweenEvents(d: Diagram, m: Machine) {
    && Fits(d, m)
    && (d.phases != [] ==> AtRest(d, m.phases, 0))
    && ActionsOK(d, m)
    && m.toDispatch == {}
  }

  function Initial(d: Diagram): Machine {
    Machine(
      seq(|d.phases|, p requires 0 <= p < |d.phases| => PhaseRt(Idle, 0, false, Initials(d, p) != [], [])),
      seq(|d.actions|, _ => Unspecified), {}, {}, false, [], [])
  }

  /** Some action is to be performed at the start of an actor phase. */
  ghost predicate HasInitialAction(d: Diagram, p: nat)
    requires p < |d.phases|
  {
    d.phases[p].kind.ActorAction? && exists a :: a in d.phases[p].actions && a < |d.actions| && d.actions[a].interval == AtStart
  }

  lemma InitialIsBetweenEvents(d: Diagram)
    ensures BetweenEvents(d, Initial(d))
    ensures forall p: nat :: p < |d.phases| ==>
              && Initial(d).phases[p].state == Idle
              && (Initial(d).phases[p].initPending <==> HasInitialAction(d, p))
  {
    var m := Initial(d);
    forall p: nat | p < |d.phases| ensures m.phases[p].initPending <==> HasInitialAction(d, p) {
      ActionsNamed(d, p);
      if m.phases[p].initPending {
        assert Initials(d, p)[0] in Initials(d, p);
      }
    }
    forall q: nat | q < |d.phases| ensures NodeOK(d, m.phases, q) {
      forall i | 0 <= i < |d.phases[q].children| ensures d.phases[q].children[i] < |m.phases| {
        var c := Child(d, q, i);
      }
      forall i | 0 <= i < |d.phases[q].systemActions| ensures d.phases[q].systemActions[i] < |m.phases| {
        var c := Operation(d, q, i);
      }
    }
    forall q: nat, a | q < |d.phases| && a in Finals(d, q) ensures a < |d.actions| {
      assert d.ActionOK(q, a);
    }
  }

  /** The action event of a started phase carries its unskipped final actions, which become dispatched. */
  lemma DispatchPhaseEffect(d: Diagram, m: Machine, q: nat)
    requires Fits(d, m) && q < |d.phases| && LivesOK(d, m)
    requires forall a :: a in Finals(d, q) ==> a < |d.actions| && (m.status[a] == Unspecified || m.status[a] == Skipped)
    ensures var m' := DispatchPhase(d, m, q);
            && LivesOK(d, m') && Later(m, m') && Only(m, m', Finals(d, q))
            && (m'.inProcess == m.inProcess + {q} || m'.inProcess == m.inProcess)
            && forall a :: a in Finals(d, q) ==>
                 m'.status[a] == if m.status[a] == Unspecified then Dispatched else m.status[a]
    ensures DispatchPhase(d, m, q).inProcess == m.inProcess && q !in m.inProcess ==>
              forall a :: a in Finals(d, q) ==> m.status[a] == Skipped
  {
    ActionsNamed(d, q);
    var acts := Unskipped(d, m, q, d.phases[q].actions);
    var m1 := m.(trace := m.trace + [ActionEvent(q, acts)], inProcess := m.inProcess + {q});
    var m' := DispatchPhase(d, m, q);
    DispatchAllEffect(d, m1, Finals(d, q));
    OtherPhasesUntouched(d, m, m', q);
    forall a | a in Finals(d, q) && m.status[a] == Unspecified ensures a in acts {
      assert d.ActionOK(q, a);
    }
    forall a: nat | IsActorFinal(d, a) ensures LifeOf(m'.trace, a) == LifeFor(m'.status[a]) {
      LifeAppend(m.trace, ActionEvent(q, acts), a);
      if d.actions[a].owner != q {
        assert a in acts ==> d.ActionOK(q, a);
        assert PhaseUntouched(d, m, m', d.actions[a].owner);
      }
    }
  }

  lemma DispatchOneKeepsActions(d: Diagram, m: Machine, q: nat, done: set<nat>)
    requires Fits(d, m) && q < |d.phases| && q in m.toDispatch && q !in done
    requires ActionsOK(d, m.(toDispatch := m.toDispatch - done))
    ensures ActionsOK(d, DispatchPhase(d, m, q).(toDispatch := m.toDispatch - (done + {q})))
    ensures Later(m, DispatchPhase(d, m, q))
  {
    var m0 := m.(toDispatch := m.toDispatch - done);
    assert PhaseActionsOK(d, m0, q);
    forall a | a in Finals(d, q) ensures a < |d.actions| && (m.status[a] == Unspecified || m.status[a] == Skipped) {
      assert StatusAllowed(d, m0, q, m0.status[a]);
    }
    assert LivesOK(d, m);
    DispatchPhaseEffect(d, m, q);
    DispatchKeepsLiveness(d, m, q);
    DispatchedPhaseKeepsActions(d, m0, DispatchPhase(d, m, q).(toDispatch := m.toDispatch - (done + {q})), q);
  }

  lemma DispatchedPhaseKeepsActions(d: Diagram, m: Machine, m': Machine, q: nat)
    requires ActionsOK(d, m) && q < |d.phases| && q in m.toDispatch
    requires m'.phases == m.phases && |m'.status| == |m.status| && LivesOK(d, m') && Only(m, m', Finals(d, q))
    requires m'.toDispatch == m.toDispatch - {q}
    requires m'.inProcess == m.inProcess + {q} || m'.inProcess == m.inProcess
    requires forall a :: a in Finals(d, q) ==>
               a < |m.status| && m'.status[a] == if m.status[a] == Unspecified then Dispatched else m.status[a]
    requires m'.inProcess == m.inProcess ==> forall a :: a in Finals(d, q) ==> m.status[a] == Skipped
    requires forall a :: 0 <= a < |m.status| ==> Live(m'.status[a]) == Live(m.status[a])
    ensures ActionsOK(d, m')
  {
    OtherPhasesUntouched(d, m, m', q);
    forall r: nat | r < |d.phases| ensures PhaseActionsOK(d, m', r) {
      assert PhaseActionsOK(d, m, r);
      assert r != q ==> PhaseUntouched(d, m, m', r);
    }
    forall r: nat, t: nat | r < |d.phases| && t < |d.phases| ensures NoConflict(d, m', r, t) {
      assert NoConflict(d, m, r, t);
    }
  }

  /** Dispatching brings no action to life. */
  lemma DispatchKeepsLiveness(d: Diagram, m: Machine, q: nat)
    requires Fits(d, m) && q < |d.phases|
    ensures forall a :: 0 <= a < |m.status| ==> Live(DispatchPhase(d, m, q).status[a]) == Live(m.status[a])
  {
    ActionsNamed(d, q);
    var acts := Unskipped(d, m, q, d.phases[q].actions);
    DispatchAllEffect(d, m.(trace := m.trace + [ActionEvent(q, acts)], inProcess := m.inProcess + {q}), Finals(d, q));
  }

  lemma {:induction false} DispatchKeepsActions(d: Diagram, m: Machine, ids: seq<nat>, done: set<nat>)
    requires Fits(d, m) && (forall i :: 0 <= i < |ids| ==> ids[i] < |d.phases| && ids[i] !in done)
    requires forall i, j :: 0 <= i < j < |ids| ==> ids[i] != ids[j]
    requires ActionsOK(d, m.(toDispatch := m.toDispatch - done))
    ensures var m' := DispatchPhases(d, m, ids);
            ActionsOK(d, m'.(toDispatch := m.toDispatch - done - (set q | q in ids))) && Later(m, m')
    decreases |ids|
  {
    if ids == [] {
      assert m.toDispatch - done - (set q | q in ids) == m.toDispatch - done;
    } else {
      var q, rest := ids[0], ids[1..];
      var m1 := if q in m.toDispatch then DispatchPhase(d, m, q) else m;
      if q in m.toDispatch {
        DispatchOneKeepsActions(d, m, q, done);
      } else {
        assert m.toDispatch - (done + {q}) == m.toDispatch - done;
      }
      DispatchKeepsActions(d, m1, rest, done + {q});
      assert m.toDispatch - (done + {q}) - (set x | x in rest) == m.toDispatch - done - (set x | x in ids);
    }
  }

  /** Main result: an event leads from a state between events to one, or throws. */
  lemma EventKeepsInvariants(d: Diagram, e: Env, m: Machine, ev: SimulationEvent)
    requires BetweenEvents(d, m)
    ensures var r := ProcessEvent(d, e, m, ev).step;
            ActionsOK(d, r.m) && Later(m, r.m) && (r.out.Returned? ==> BetweenEvents(d, r.m))
  {
    if d.phases != [] && ev != OtherEvent {
      SubtreeBounds(d, 0);
      RunPassesKeepsTree(d, e, m, ev == ScenarioUpdate);
      RunPassesKeepsActions(d, e, m, ev == ScenarioUpdate);
      var m1 := RunPasses(d, e, m, ev == ScenarioUpdate).step.m;
      DispatchEventKeepsActions(d, m1);
      LaterIsTransitive(m, m1, DispatchPhases(d, m1, d.idOrder));
    }
  }

  lemma DispatchEventKeepsActions(d: Diagram, m: Machine)
    requires Fits(d, m) && ActionsOK(d, m)
    ensures var m' := DispatchPhases(d, m, d.idOrder);
            ActionsOK(d, m'.(toDispatch := {})) && Later(m, m')
  {
    assert m.(toDispatch := m.toDispatch - {}) == m;
    DispatchKeepsActions(d, m, d.idOrder, {});
    assert m.toDispatch - {} - (set q | q in d.idOrder) == {};
  }

  /** Main result: between events a client's completion never reaches the internal error. */
  lemma {:induction false} CompletionKeepsInvariants(d: Diagram, m: Machine, ids: seq<nat>, a: nat)
    requires BetweenEvents(d, m) && forall i :: 0 <= i < |ids| ==> ids[i] < |d.phases|
    ensures var r := NotifyActionComplete(d, m, ids, a);
            r.out.Returned? && BetweenEvents(d, r.m) && Later(m, r.m)
    decreases |ids|
  {
    if ids != [] {
      var q := ids[0];
      if q in m.inProcess && a in Finals(d, q) {
        assert d.ActionOK(q, a) && PhaseActionsOK(d, m, q);
        var m' := Complete(d, m, a).m;
        CompleteTracked(d, m, a);
        assert Only(m, m', Finals(d, q));
        OtherPhasesUntouched(d, m, m', q);
        SettlingKeepsActions(d, m, m');
      } else {
        CompletionKeepsInvariants(d, m, ids[1..], a);
      }
    }
  }

  /** Some phase in process has `a` among its final actions. */
  ghost predicate InProcess(d: Diagram, m: Machine, a: nat) {
    exists q :: q in m.inProcess && q < |d.phases| && a in Finals(d, q)
  }

  lemma {:induction false} ReportFindsPhase(d: Diagram, m: Machine, ids: seq<nat>, a: nat)
    requires Fits(d, m) && forall i :: 0 <= i < |ids| ==> ids[i] < |d.phases|
    ensures (exists q :: q in ids && q in m.inProcess && a in Finals(d, q)) ==>
              a < |d.actions| && NotifyActionComplete(d, m, ids, a) == Complete(d, m, a)
    ensures !(exists q :: q in ids && q in m.inProcess && a in Finals(d, q)) ==>
              NotifyActionComplete(d, m, ids, a) == Step(m, Returned(true))
    decreases |ids|
  {
    if ids != [] {
      assert ids[0] in ids;
      ReportFindsPhase(d, m, ids[1..], a);
      if ids[0] in m.inProcess && a in Finals(d, ids[0]) {
        assert d.ActionOK(ids[0], a);
      } else {
        assert forall q :: q in ids ==> q == ids[0] || q in ids[1..];
      }
    }
  }

  /** Main result: between events a client's report makes exactly a dispatched action of a phase in process
      done and publishes that, and every other report changes nothing. */
  lemma ReportCompletes(d: Diagram, m: Machine, a: nat)
    requires BetweenEvents(d, m)
    ensures var r := NotifyActionComplete(d, m, d.idOrder, a);
            if InProcess(d, m, a) && a < |m.status| && m.status[a] == Dispatched then
              r == Step(m.(status := m.status[a := Done], trace := m.trace + [ActionCompleteEvent(a, Done)]), Returned(true))
            else r == Step(m, Returned(true))
  {
    ReportFindsPhase(d, m, d.idOrder, a);
    if InProcess(d, m, a) {
      var q :| q in m.inProcess && q < |d.phases| && a in Finals(d, q);
      assert q in d.idOrder && d.ActionOK(q, a) && PhaseActionsOK(d, m, q);
    }
  }

  // ---------------------------------------------------------------- what the invariants mean

  predicate Carries(ev: Event, a: nat) {
    ev.ActionEvent? && a in ev.actions
  }

  predicate Completes(ev: Event, a: nat) {
    ev.ActionCompleteEvent? && ev.action == a
  }

  ghost predicate Never(trace: seq<Event>, a: nat) {
    forall k :: 0 <= k < |trace| ==> !Carries(trace[k], a) && !Completes(trace[k], a)
  }

  ghost predicate SentOnceAt(trace: seq<Event>, a: nat, i: nat) {
    && i < |trace| && Carries(trace[i], a)
    && forall k :: 0 <= k < |trace| && Carries(trace[k], a) ==> k == i
  }

  ghost predicate CompletedOnceAt(trace: seq<Event>, a: nat, s: ActionStatus, j: nat) {
    && j < |trace| && trace[j] == ActionCompleteEvent(a, s)
    && forall k :: 0 <= k < |trace| && Completes(trace[k], a) ==> k == j
  }

  lemma {:induction false} LifeMeaning(trace: seq<Event>, a: nat)
    ensures LifeOf(trace, a) == NotSent ==> Never(trace, a)
    ensures LifeOf(trace, a) == Sent ==>
              (exists i :: SentOnceAt(trace, a, i)) && forall k :: 0 <= k < |trace| ==> !Completes(trace[k], a)
    ensures LifeOf(trace, a).Completed? ==>
              exists i: nat, j: nat :: i < j && SentOnceAt(trace, a, i) && CompletedOnceAt(trace, a, LifeOf(trace, a).status, j)
  {
    if trace != [] {
      var n := |trace| - 1;
      var prefix, ev := trace[..n], trace[n];
      LifeMeaning(prefix, a);
      match LifeOf(prefix, a) {
        case NotSent =>
          assert Carries(ev, a) ==> SentOnceAt(trace, a, n);
        case Sent =>
          var i :| SentOnceAt(prefix, a, i);
          assert !Carries(ev, a) ==> SentOnceAt(trace, a, i);
          assert Completes(ev, a) && ev.status in {Done, Interrupted} ==> CompletedOnceAt(trace, a, ev.status, n);
        case Completed(s) =>
          var i: nat, j: nat :| i < j && SentOnceAt(prefix, a, i) && CompletedOnceAt(prefix, a, s, j);
          if !Carries(ev, a) && !Completes(ev, a) {
            assert SentOnceAt(trace, a, i) && CompletedOnceAt(trace, a, s, j);
          }
        case Broken =>
      }
    }
  }

  /** Completion events are published exactly once for an actor action that ends done or
      interrupted, after the one action event that carried it, and never otherwise;
      a skipped action is in no event. */
  lemma ExactlyOnce(d: Diagram, m: Machine, a: nat)
    requires ActionsOK(d, m) && IsActorFinal(d, a)
    ensures m.status[a] == Unspecified || m.status[a] == Skipped ==> Never(m.trace, a)
    ensures m.status[a] == Dispatched ==>
              (exists i :: SentOnceAt(m.trace, a, i)) && forall k :: 0 <= k < |m.trace| ==> !Completes(m.trace[k], a)
    ensures m.status[a] == Done || m.status[a] == Interrupted ==>
              exists i: nat, j: nat :: i < j && SentOnceAt(m.trace, a, i) && CompletedOnceAt(m.trace, a, m.status[a], j)
  {
    LifeMeaning(m.trace, a);
  }

  /** Between events no two running phases of one actor hold live final actions in conflict,
      no final action of a running phase is left undispatched, and an ended phase has only terminal ones. */
  lemma ActionsBetweenEvents(d: Diagram, m: Machine, q: nat, r: nat, a: nat, b: nat)
    requires BetweenEvents(d, m) && q < |d.phases| && r < |d.phases| && a in Finals(d, q) && b in Finals(d, r)
    ensures a < |m.status| && b < |m.status|
    ensures (q != r && SameActor(d, q, r) && m.phases[q].state == Run && m.phases[r].state == Run
             && d.actions[a].kind.InConflictWith(d.actions[b].kind)) ==> !(Live(m.status[a]) && Live(m.status[b]))
    ensures m.phases[q].state == Run && !d.phases[q].kind.Mix? && !d.phases[q].kind.Serial? ==> m.status[a] != Unspecified
    ensures m.phases[q].state == End ==> Terminal(m.status[a])
    ensures m.phases[q].state == Idle || m.phases[q].state == Start ==> m.status[a] == Unspecified
  {
    assert PhaseActionsOK(d, m, q) && PhaseActionsOK(d, m, r) && NoConflict(d, m, q, r);
    var i :| 0 <= i < |Finals(d, q)| && Finals(d, q)[i] == a;
    var j :| 0 <= j < |Finals(d, r)| && Finals(d, r)[j] == b;
  }

  /** `q` is `p` or lies below it through children. */
  ghost predicate Under(d: Diagram, p: nat, q: nat)
    requires p < |d.phases| && q < |d.phases|
    decreases q
  {
    q == p || (p < q && d.phases[q].parent.Some? && d.phases[q].parent.value < q
               && q in d.phases[d.phases[q].parent.value].children && Under(d, p, d.phases[q].parent.value))
  }

  /** Between events an ended phase has ended descendants, and an idle or starting phase idle ones. */
  lemma {:induction false} StatesBelow(d: Diagram, m: Machine, p: nat, q: nat)
    requires BetweenEvents(d, m) && p < |d.phases| && q < |d.phases| && Under(d, p, q)
    ensures m.phases[p].state == End ==> m.phases[q].state == End
    ensures q != p && (m.phases[p].state == Idle || m.phases[p].state == Start) ==> m.phases[q].state == Idle
    decreases q
  {
    if q != p {
      var r := d.phases[q].parent.value;
      StatesBelow(d, m, p, r);
      assert NodeOK(d, m.phases, r);
      var i :| 0 <= i < |d.phases[r].children| && d.phases[r].children[i] == q;
    }
  }

  // ---------------------------------------------------------------- whole runs

  /** What reaches the executor: a simulation event in some world, or a client's completion. */
  datatype Stimulus = EventRaised(world: Env, event: SimulationEvent) | CompletionReported(action: nat)

  function Respond(d: Diagram, m: Machine, s: Stimulus): Step
    requires Fits(d, m)
  {
    match s
    case EventRaised(e, ev) => ProcessEvent(d, e, m, ev).step
    case CompletionReported(a) => NotifyActionComplete(d, m, d.idOrder, a)
  }

  /** A run from the beginning; an exception ends it. */
  function Execute(d: Diagram, stimuli: seq<Stimulus>): (r: Step)
    ensures Fits(d, r.m)
  {
    if stimuli == [] then
      InitialIsBetweenEvents(d);
      Step(Initial(d), Returned(true))
    else
      var before := Execute(d, stimuli[..|stimuli| - 1]);
      if before.out.Raised? then before else Respond(d, before.m, stimuli[|stimuli| - 1])
  }

  lemma {:induction false} RunKeepsInvariants(d: Diagram, stimuli: seq<Stimulus>)
    ensures var r := Execute(d, stimuli);
            ActionsOK(d, r.m) && (r.out.Raised? || BetweenEvents(d, r.m))
    decreases |stimuli|
  {
    if stimuli == [] {
      InitialIsBetweenEvents(d);
    } else {
      var before := stimuli[..|stimuli| - 1];
      RunKeepsInvariants(d, before);
      if Execute(d, before).out.Returned? {
        RespondKeepsInvariants(d, Execute(d, before).m, stimuli[|stimuli| - 1]);
      }
    }
  }

  lemma RespondKeepsInvariants(d: Diagram, m: Machine, s: Stimulus)
    requires BetweenEvents(d, m)
    ensures var r := Respond(d, m, s);
            ActionsOK(d, r.m) && (r.out.Raised? || BetweenEvents(d, r.m)) && Later(m, r.m)
  {
    match s {
      case EventRaised(e, ev) => EventKeepsInvariants(d, e, m, ev);
      case CompletionReported(a) => CompletionKeepsInvariants(d, m, d.idOrder, a);
    }
  }

  lemma {:induction false} RunMovesForward(d: Diagram, stimuli: seq<Stimulus>, n: nat)
    requires n <= |stimuli|
    ensures Later(Execute(d, stimuli[..n]).m, Execute(d, stimuli).m)
    decreases |stimuli|
  {
    if n < |stimuli| {
      var most := stimuli[..|stimuli| - 1];
      assert most[..n] == stimuli[..n];
      RunMovesForward(d, most, n);
      RunKeepsInvariants(d, most);
      if Execute(d, most).out.Returned? {
        RespondKeepsInvariants(d, Execute(d, most).m, stimuli[|stimuli| - 1]);
        LaterIsTransitive(Execute(d, stimuli[..n]).m, Execute(d, most).m, Execute(d, stimuli).m);
      }
    } else {
      assert stimuli[..n] == stimuli;
    }
  }

  /** Main result: in every run, statuses and published events agree about every action, whether or not
      the run was ended by an exception; as long as it was not, all invariants hold, and then a
      client's completion does not end it. Over the whole run, statuses only move forward and what was
      published stays published. */
  lemma EveryRunKeepsInvariants(d: Diagram, stimuli: seq<Stimulus>)
    ensures var r := Execute(d, stimuli);
            ActionsOK(d, r.m) && (r.out.Raised? || BetweenEvents(d, r.m))
    ensures forall a :: Execute(d, stimuli).out.Returned? ==> Execute(d, stimuli + [CompletionReported(a)]).out.Returned?
    ensures forall n :: 0 <= n <= |stimuli| ==> Later(Execute(d, stimuli[..n]).m, Execute(d, stimuli).m)
  {
    var r := Execute(d, stimuli);
    RunKeepsInvariants(d, stimuli);
    forall a | r.out.Returned? ensures Execute(d, stimuli + [CompletionReported(a)]).out.Returned? {
      assert (stimuli + [CompletionReported(a)])[..|stimuli|] == stimuli;
      CompletionKeepsInvariants(d, r.m, d.idOrder, a);
    }
    forall n | 0 <= n <= |stimuli| ensures Later(Execute(d, stimuli[..n]).m, r.m) {
      RunMovesForward(d, stimuli, n);
    }
  }
}
