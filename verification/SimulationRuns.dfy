/** The simulation loop as atomic steps, interleaved with the commands of other threads. */
module SimulationRuns {
  import opened EventCalendars
  import opened SimulationSchedule

  /** Where the loop stands: in a pass over the present events (after at least one of them, or
      not), before its check for a stop request, before its look at the step requests, in its
      wait for a resume, after the loop, or finished with the cleanup. */
  datatype Location = Processing(resume: bool) | Checking | Deciding | Waiting | Leaving | Finished

  /** A published event, and what the clock showed. */
  datatype Published = Published(clock: real, event: Event)

  datatype Sim = Sim(
    timeNow: real,
    events: seq<TimedEvent>,
    numSteps: nat,
    startDone: bool,
    numStepRequests: nat,
    isPaused: bool,
    requestToStop: bool,
    location: Location,
    // What was published, and how many iterations of the loop were completed
    trace: seq<Published>,
    iterations: nat)

  // ---------------------------------------------------------------- the loop

  datatype Outcome = Resume | Complete | Threw

  function Renewed(c: Settings, s: Sim, event: Event): Sim {
    var next := Multiple(s.numSteps + 1, c.stepSize);
    s.(events := Inserted(s.events, TimedEvent(next, event)))
  }

  function Publish(s: Sim, event: Event): Sim {
    s.(trace := s.trace + [Published(s.timeNow, event)])
  }

  /** Counts the step, and schedules the next event of the kind just processed. */
  function Renew(c: Settings, s: Sim, event: Event): Sim {
    match event
    case SimulationStart => s
    case SimulationStep(_, steps) =>
      Renewed(c, s.(numSteps := steps), SimulationStep(Multiple(steps + 1, c.stepSize), steps + 1))
    case ScenarioUpdate => Renewed(c, s, event)
    case SimulationPostStep => Renewed(c, s, event)
    case SimulationStop(_, _, _) => s
  }

  /** Pops one event, publishes it and renews it; `fault` tells whether handling it throws. */
  function ProcessEvent(c: Settings, s: Sim, fault: bool): (Sim, Outcome) {
    if s.events == [] then (s, Complete)
    else
      var s1, event := s.(events := s.events[1..]), s.events[0].event;
      if event.SimulationStop? then (Publish(s1, event.(stopSteps := s.numSteps)), Complete)
      else if fault then (Publish(s1, event), Threw)
      else (Renew(c, Publish(s1, event), event), Resume)
  }

  function PublishStop(c: Settings, s: Sim, cause: StopCause): Sim {
    Publish(s, SimulationStop(Multiple(s.numSteps, c.stepSize), s.numSteps, cause)).(location := Leaving)
  }

  predicate HasPresentEvent(s: Sim) {
    s.events != [] && s.events[0].DueBy(s.timeNow)
  }

  function AdvanceTime(s: Sim): Sim
    requires s.events != []
  {
    s.(timeNow := s.events[0].time, location := Checking)
  }

  /** The next atomic step of the loop. */
  function Proceed(c: Settings, s: Sim, fault: bool): Sim {
    match s.location
    case Processing(resume) =>
      if !s.startDone then
        var (s1, outcome) := ProcessEvent(c, s, fault);
        if outcome.Threw? then PublishStop(c, s1, ScenarioEnded) else s1.(startDone := true, location := Checking)
      else if HasPresentEvent(s) then
        var (s1, outcome) := ProcessEvent(c, s, fault);
        if outcome.Threw? then PublishStop(c, s1, ScenarioEnded)
        else s1.(location := if outcome.Resume? then Processing(true) else Leaving)
      else if resume && s.events != [] then AdvanceTime(s)
      else s.(location := Leaving)
    case Checking => if s.requestToStop then PublishStop(c, s.(requestToStop := false), StopRequested) else s.(location := Deciding)
    case Deciding =>
      var n := if s.numStepRequests > 0 then s.numStepRequests - 1 else 0;
      var pause := s.isPaused || s.numStepRequests == 1;
      s.(numStepRequests := n, isPaused := pause, iterations := s.iterations + 1,
         location := if pause then Waiting else Processing(false))
    case Waiting =>
      if s.isPaused then s
      else if s.requestToStop then PublishStop(c, s.(requestToStop := false), StopRequested)
      else s.(location := Processing(false))
    case Leaving => s.(timeNow := 0.0, events := [], numSteps := 0, location := Finished)
    case Finished => s
  }

  // ---------------------------------------------------------------- the commands

  /** Stepping takes a paused simulation, or one that still has steps to take. */
  predicate MayStep(s: Sim) {
    !s.location.Finished? && (s.numStepRequests > 0 || s.isPaused)
  }

  function StepSimulation(s: Sim): Sim {
    if MayStep(s) then s.(numStepRequests := s.numStepRequests + 1, isPaused := false) else s
  }

  function PauseOrResume(s: Sim, pause: bool): Sim {
    if s.location.Finished? then s
    else if pause then s.(isPaused := true)
    else if s.numStepRequests > 0 then s.(numStepRequests := 0)
    else s.(isPaused := false)
  }

  datatype Move =
    | Loop(fault: bool)       // the loop takes its next step
    | Step                    // StepSimulation
    | Toggle(pause: bool)     // PauseOrResumeSimulation
    | RequestStop             // StopSimulationRequested raises its flag ...
    | ReleasePause            // ... and then wakes a waiting loop

  function Next(c: Settings, s: Sim, move: Move): Sim {
    match move
    case Loop(fault) => Proceed(c, s, fault)
    case Step => StepSimulation(s)
    case Toggle(pause) => PauseOrResume(s, pause)
    case RequestStop => if s.location.Finished? then s else s.(requestToStop := true)
    // Only the loop lowers the flag, and then it leaves
    case ReleasePause => if s.requestToStop || s.location.Leaving? then s.(isPaused := false) else s
  }

  function Run(c: Settings, s: Sim, moves: seq<Move>): Sim
    decreases |moves|
  {
    if moves == [] then s else Next(c, Run(c, s, moves[..|moves| - 1]), moves[|moves| - 1])
  }

  // ---------------------------------------------------------------- setup

  function Scheduled(s: Sim, time: real, event: Event): Sim {
    s.(events := Inserted(s.events, TimedEvent(time, event)))
  }

  function Blank(numStepRequests: nat, isPaused: bool): Sim {
    Sim(0.0, [], 0, false, numStepRequests, isPaused, false, Processing(false), [], 0)
  }

  /** A simulation about to start, with the first events in its calendar. */
  function Setup(c: Settings, numStepRequests: nat, isPaused: bool): Sim {
    var s1 := Scheduled(Blank(numStepRequests, isPaused), 0.0, SimulationStart);
    var s2 := Scheduled(s1, 0.0, SimulationStep(0.0, 0));
    var s3 := Scheduled(s2, 0.0, ScenarioUpdate);
    var s4 := Scheduled(s3, 0.0, SimulationPostStep);
    Scheduled(s4, c.stopTime, SimulationStop(c.stopTime, 0, StopTimeReached))
  }

  // ---------------------------------------------------------------- what every run keeps

  function Expected(c: Settings, i: nat): Published {
    Published(TimeOf(c, i), NthEvent(c, i).event)
  }

  /** These are the first events of the schedule, each published at its own time. */
  ghost predicate Follows(c: Settings, trace: seq<Published>) {
    |trace| <= Total(c) && forall i :: 0 <= i < |trace| ==> trace[i] == Expected(c, i)
  }

  function StepsTaken(n: nat): nat {
    if n <= 1 then 0 else StepOf(n - 1)
  }

  /** The schedule was followed, and then one stop event was published. */
  ghost predicate EndedOnce(c: Settings, trace: seq<Published>) {
    && trace != []
    && var n := |trace| - 1;
       && Follows(c, trace[..n])
       && trace[n].event.SimulationStop?
       && (trace[n].event.stopSteps == StepsTaken(n) || trace[n].event.cause.ScenarioEnded?)
       && (n > 0 ==> TimeOf(c, n - 1) <= trace[n].clock)
       && (trace[n].event.cause.StopTimeReached? ==> n == Total(c) && trace[n].event.stopTime == c.stopTime)
  }

  /** The clock shows the last event of the pass, or the first event of the coming one. */
  ghost predicate ClockOK(c: Settings, s: Sim)
    requires |s.trace| <= Total(c)
  {
    var n := |s.trace|;
    (n > 0 ==> TimeOf(c, n - 1) <= s.timeNow) &&
    if s.location == Processing(true) then n >= 2 && s.timeNow == TimeOf(c, n - 1)
    else (n == 0 || n % 3 == 1) && s.timeNow == PlanOf(c).Agenda(n)[0].time && (n == 0 ==> s.location == Processing(false))
  }

  /** An iteration covers the start event, or one whole step. */
  ghost predicate PaceOK(s: Sim) {
    var n, k := |s.trace|, s.iterations;
    match s.location
    case Processing(true) => 3 * k - 2 < n <= 3 * k + 1
    case Processing(false) => n == if k == 0 then 0 else 3 * k - 2
    case Checking => n == 3 * k + 1
    case Deciding => n == 3 * k + 1
    case Waiting => k > 0 && n == 3 * k - 2
    case _ => true
  }

  ghost predicate Good(c: Settings, s: Sim) {
    if s.location.Leaving? || s.location.Finished? then EndedOnce(c, s.trace)
    else
      && Follows(c, s.trace)
      && s.events == PlanOf(c).Agenda(|s.trace|)
      && s.numSteps == StepsTaken(|s.trace|)
      && (s.startDone <==> |s.trace| > 0)
      && ClockOK(c, s) && PaceOK(s)
  }

  lemma SetupIsGood(c: Settings, numStepRequests: nat, isPaused: bool)
    ensures Good(c, Setup(c, numStepRequests, isPaused))
  {
    var p := PlanOf(c);
    PlanIsInOrder(c);
    assert p.First(0) == [];
    p.FirstGrows(0);
    p.FirstGrows(1);
    p.FirstGrows(2);
    p.FirstGrows(3);
    p.FirstAgenda();
  }

  // ---------------------------------------------------------------- one event

  /** Renewing event number `n` counts its step and schedules event number `n + 3`. */
  lemma RenewNth(c: Settings, s: Sim, n: nat)
    requires s.numSteps == StepsTaken(n)
    ensures Renew(c, s, NthEvent(c, n).event)
         == s.(numSteps := StepsTaken(n + 1), events := if n == 0 then s.events else Inserted(s.events, NthEvent(c, n + 3)))
  {
    if n > 0 {
      assert StepsTaken(n + 1) == StepOf(n) && (n % 3 == 1 || StepsTaken(n) == StepOf(n));
      assert NthEvent(c, n + 3) == TimedEvent(Multiple(StepOf(n) + 1, c.stepSize), NthEvent(c, n + 3).event);
      if n % 3 == 1 {
        assert NthEvent(c, n + 3).event == SimulationStep(Multiple(StepOf(n) + 1, c.stepSize), StepOf(n) + 1);
      } else {
        assert NthEvent(c, n + 3).event == NthEvent(c, n).event;
      }
    }
  }

  /** Processing event number `n` publishes it and leads to the next agenda. */
  lemma ProcessNth(c: Settings, s: Sim, n: nat, fault: bool)
    requires n < Total(c) && s.events == PlanOf(c).Agenda(n) && s.numSteps == StepsTaken(n)
    ensures ProcessEvent(c, s, fault)
         == if fault then (Publish(s.(events := PlanOf(c).Agenda(n)[1..]), NthEvent(c, n).event), Threw)
            else (Publish(s.(events := PlanOf(c).Agenda(n + 1), numSteps := StepsTaken(n + 1)), NthEvent(c, n).event), Resume)
  {
    var rest, event := PlanOf(c).Agenda(n)[1..], NthEvent(c, n).event;
    assert s.events[0] == NthEvent(c, n);
    RenewNth(c, Publish(s.(events := rest), event), n);
    AgendaAdvances(c, n);
  }

  /** With every other event processed, the stop event is published. */
  lemma ProcessStop(c: Settings, s: Sim, fault: bool)
    requires s.events == PlanOf(c).Agenda(Total(c))
    ensures ProcessEvent(c, s, fault).1 == Complete
    ensures ProcessEvent(c, s, fault).0.trace
         == s.trace + [Published(s.timeNow, SimulationStop(c.stopTime, s.numSteps, StopTimeReached))]
  {
    assert s.events[0] == StopEvent(c);
  }

  // ---------------------------------------------------------------- every step

  lemma FollowsOneMore(c: Settings, trace: seq<Published>)
    requires Follows(c, trace) && |trace| < Total(c)
    ensures Follows(c, trace + [Expected(c, |trace|)])
  {
  }

  /** An additional stop event ends a trace that followed the schedule. */
  lemma StopEnds(c: Settings, trace: seq<Published>, clock: real, stop: Event)
    requires Follows(c, trace) && stop.SimulationStop? && (trace != [] ==> TimeOf(c, |trace| - 1) <= clock)
    requires stop.stopSteps == StepsTaken(|trace|) || stop.cause.ScenarioEnded?
    requires stop.cause.StopTimeReached? ==> |trace| == Total(c) && stop.stopTime == c.stopTime
    ensures EndedOnce(c, trace + [Published(clock, stop)])
  {
    assert (trace + [Published(clock, stop)])[..|trace|] == trace;
  }

  lemma PublishStopIsGood(c: Settings, s: Sim, cause: StopCause)
    requires Follows(c, s.trace) && !cause.StopTimeReached? && (s.trace != [] ==> TimeOf(c, |s.trace| - 1) <= s.timeNow)
    requires s.numSteps == StepsTaken(|s.trace|) || cause.ScenarioEnded?
    ensures Good(c, PublishStop(c, s, cause))
  {
    StopEnds(c, s.trace, s.timeNow, SimulationStop(Multiple(s.numSteps, c.stepSize), s.numSteps, cause));
  }

  /** The front of the calendar is present during a pass exactly if it belongs to the step of the pass. */
  lemma FrontIsPresent(c: Settings, s: Sim)
    requires Good(c, s) && s.location.Processing? && |s.trace| < Total(c)
    ensures HasPresentEvent(s) || s.location.resume
    ensures HasPresentEvent(s) ==> s.timeNow == TimeOf(c, |s.trace|)
    ensures HasPresentEvent(s) && s.location.resume ==> StepOf(|s.trace|) == StepOf(|s.trace| - 1)
    ensures !HasPresentEvent(s) ==> |s.trace| % 3 == 1 && s.timeNow == TimeOf(c, |s.trace| - 1) <= TimeOf(c, |s.trace|)
  {
    var n := |s.trace|;
    assert s.events[0] == NthEvent(c, n);
    if s.location.resume {
      PresentEvents(c, n);
    }
  }

  lemma PassEventIsGood(c: Settings, s: Sim)
    requires Good(c, s) && s.location.Processing? && |s.trace| < Total(c) && (s.startDone ==> HasPresentEvent(s))
    ensures Good(c, Proceed(c, s, false))
  {
    PassEventIsNext(c, s);
    FrontIsPresent(c, s);
    FollowsOneMore(c, s.trace);
    ClockAfterEvent(c, s, Proceed(c, s, false));
  }

  /** One event of a pass: the next one of the schedule is published, and the next calendar follows. */
  lemma PassEventIsNext(c: Settings, s: Sim)
    requires Good(c, s) && s.location.Processing? && |s.trace| < Total(c) && (s.startDone ==> HasPresentEvent(s))
    ensures var n := |s.trace|;
            Proceed(c, s, false) == s.(events := PlanOf(c).Agenda(n + 1), numSteps := StepsTaken(n + 1), trace := s.trace + [Expected(c, n)],
                                       startDone := true, location := if n == 0 then Checking else Processing(true))
  {
    FrontIsPresent(c, s);
    ProcessNth(c, s, |s.trace|, false);
  }

  lemma ClockAfterEvent(c: Settings, s: Sim, s': Sim)
    requires s.location.Processing? && |s.trace| < Total(c) && PaceOK(s) && ClockOK(c, s)
    requires |s.trace| > 0 && s.location == Processing(true) ==> s.timeNow == TimeOf(c, |s.trace|)
    requires s'.location == (if |s.trace| == 0 then Checking else Processing(true))
    requires |s'.trace| == |s.trace| + 1 && s'.timeNow == s.timeNow && s'.iterations == s.iterations
    requires s.location == Processing(true) ==> StepOf(|s.trace|) == StepOf(|s.trace| - 1)
    ensures ClockOK(c, s') && PaceOK(s')
  {
    assert PlanOf(c).Agenda(|s.trace|)[0] == NthEvent(c, |s.trace|);
    if s.trace == [] {
      assert PlanOf(c).Agenda(1)[0] == NthEvent(c, 1);
    }
  }

  lemma FaultIsGood(c: Settings, s: Sim)
    requires Good(c, s) && s.location.Processing? && |s.trace| < Total(c) && (s.startDone ==> HasPresentEvent(s))
    ensures Good(c, Proceed(c, s, true))
  {
    FrontIsPresent(c, s);
    ProcessNth(c, s, |s.trace|, true);
    FollowsOneMore(c, s.trace);
    PublishStopIsGood(c, ProcessEvent(c, s, true).0, ScenarioEnded);
  }

  lemma PassStopIsGood(c: Settings, s: Sim, fault: bool)
    requires Good(c, s) && s.location.Processing? && |s.trace| == Total(c) && HasPresentEvent(s)
    ensures Good(c, Proceed(c, s, fault))
  {
    ProcessStop(c, s, fault);
    StopEnds(c, s.trace, s.timeNow, SimulationStop(c.stopTime, s.numSteps, StopTimeReached));
  }

  lemma PassEndIsGood(c: Settings, s: Sim, fault: bool)
    requires Good(c, s) && s.location.Processing? && s.startDone && !HasPresentEvent(s)
    ensures Good(c, Proceed(c, s, fault)) && Proceed(c, s, fault).location.Checking?
  {
    var n := |s.trace|;
    if n < Total(c) {
      FrontIsPresent(c, s);
      assert s.events[0] == NthEvent(c, n);
    } else {
      assert s.events[0] == StopEvent(c);
    }
    WholeSteps(n, s.iterations);
  }

  lemma WholeSteps(n: nat, k: nat)
    ensures 3 * k - 2 < n <= 3 * k + 1 && n % 3 == 1 ==> n == 3 * k + 1
  {
  }

  /** Main result: every step of the loop keeps the schedule. */
  lemma ProceedIsGood(c: Settings, s: Sim, fault: bool)
    requires Good(c, s)
    ensures Good(c, Proceed(c, s, fault))
  {
    match s.location {
      case Processing(_) =>
        if s.startDone && !HasPresentEvent(s) {
          PassEndIsGood(c, s, fault);
        } else if |s.trace| < Total(c) {
          if fault {
            FaultIsGood(c, s);
          } else {
            PassEventIsGood(c, s);
          }
        } else {
          PassStopIsGood(c, s, fault);
        }
      case Checking =>
        if s.requestToStop {
          PublishStopIsGood(c, s.(requestToStop := false), StopRequested);
        }
      case Deciding =>
      case Waiting =>
        if !s.isPaused && s.requestToStop {
          PublishStopIsGood(c, s.(requestToStop := false), StopRequested);
        }
      case Leaving =>
      case Finished =>
    }
  }

  lemma NextIsGood(c: Settings, s: Sim, move: Move)
    requires Good(c, s)
    ensures Good(c, Next(c, s, move))
  {
    if move.Loop? {
      ProceedIsGood(c, s, move.fault);
    } else {
      CommandIsGood(c, s, move);
    }
  }

  lemma CommandIsGood(c: Settings, s: Sim, move: Move)
    requires Good(c, s) && !move.Loop?
    ensures Good(c, Next(c, s, move))
  {
    var s' := Next(c, s, move);
    assert s' == s.(numStepRequests := s'.numStepRequests, isPaused := s'.isPaused, requestToStop := s'.requestToStop);
  }

  lemma {:induction false} RunIsGood(c: Settings, s: Sim, moves: seq<Move>)
    requires Good(c, s)
    ensures Good(c, Run(c, s, moves))
    decreases |moves|
  {
    if moves != [] {
      RunIsGood(c, s, moves[..|moves| - 1]);
      NextIsGood(c, Run(c, s, moves[..|moves| - 1]), moves[|moves| - 1]);
    }
  }

  /** Main result: whatever other threads command, and whatever is thrown, a run publishes a
      beginning of the schedule and then, only when it ends, exactly one stop event. */
  lemma EveryRunIsGood(c: Settings, numStepRequests: nat, isPaused: bool, moves: seq<Move>)
    ensures Good(c, Run(c, Setup(c, numStepRequests, isPaused), moves))
  {
    SetupIsGood(c, numStepRequests, isPaused);
    RunIsGood(c, Setup(c, numStepRequests, isPaused), moves);
  }

  // ---------------------------------------------------------------- a whole pass

  /** A pass never starts without a present event. */
  lemma PassHasEvent(c: Settings, s: Sim)
    requires Good(c, s) && s.location == Processing(false)
    ensures HasPresentEvent(s)
  {
    if |s.trace| < Total(c) {
      FrontIsPresent(c, s);
    }
  }

  lemma PresentEventIsPublished(c: Settings, s: Sim, fault: bool)
    requires Good(c, s) && s.location.Processing? && (s.startDone ==> HasPresentEvent(s))
    ensures |Proceed(c, s, fault).trace| > |s.trace|
  {
    if |s.trace| < Total(c) {
      ProcessNth(c, s, |s.trace|, fault);
    } else {
      ProcessStop(c, s, fault);
    }
  }

  /** The pass over the present events, and the advance of the clock; `fault` tells which event throws. */
  function Pass(c: Settings, s: Sim, fault: nat -> bool): Sim
    requires Good(c, s) && s.location.Processing? && s.startDone
    decreases Total(c) - |s.trace|
  {
    var s' := Proceed(c, s, fault(|s.trace|));
    ProceedIsGood(c, s, fault(|s.trace|));
    if s'.location.Processing? then
      PassContinues(c, s, fault(|s.trace|));
      Pass(c, s', fault)
    else s'
  }

  lemma PassContinues(c: Settings, s: Sim, fault: bool)
    requires Good(c, s) && s.location.Processing? && s.startDone && Proceed(c, s, fault).location.Processing?
    ensures HasPresentEvent(s) && Good(c, Proceed(c, s, fault)) && |s.trace| < |Proceed(c, s, fault).trace| <= Total(c)
    ensures Proceed(c, s, fault).startDone && Proceed(c, s, fault).location.resume
  {
    ProceedIsGood(c, s, fault);
    PresentEventIsPublished(c, s, fault);
  }

  /** The next event of a kind is scheduled in the future, as the calendar demands. */
  lemma RenewedIsLater(c: Settings, s: Sim)
    requires Good(c, s) && s.location.Processing? && |s.trace| < Total(c) && (s.startDone ==> HasPresentEvent(s))
    ensures var n := |s.trace|;
            && s.events[0] == NthEvent(c, n)
            && Multiple(StepOf(n) + 1, c.stepSize) > s.timeNow + TOLERANCE
            && (n % 3 != 1 ==> s.numSteps == StepOf(n))
  {
    var n := |s.trace|;
    FrontIsPresent(c, s);
    assert Multiple(StepOf(n) + 1, c.stepSize) > TimeOf(c, n) + TOLERANCE by {
      MultiplesApart(c.stepSize, StepOf(n), StepOf(n) + 1);
    }
  }
}
