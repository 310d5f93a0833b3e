/** What every run of the simulation loop guarantees. */
module SimulationResults {
  import opened EventCalendars
  import opened SimulationSchedule
  import opened SimulationRuns

  predicate Ended(s: Sim) {
    s.location.Leaving? || s.location.Finished?
  }

  /** While the loop runs its calendar is not empty, and it is sorted by a strict weak order. */
  lemma CalendarOfEveryRun(c: Settings, s: Sim)
    requires Good(c, s) && !Ended(s)
    ensures s.events != [] && Sorted(s.events)
    ensures TimesIn(ScheduledTimes(c.stepSize, c.stopTime), s.events)
    ensures StrictWeakOrder(ScheduledTimes(c.stepSize, c.stopTime))
  {
    AgendaIsSorted(c, |s.trace|);
  }

  lemma {:induction false} TimesGrow(c: Settings, m: nat, n: nat)
    requires m <= n
    ensures TimeOf(c, m) <= TimeOf(c, n)
    decreases n - m
  {
    if m < n {
      TimesGrow(c, m, n - 1);
      PresentEvents(c, n);
    }
  }

  /** Events are published at times that never go backwards. */
  lemma ClockNeverGoesBack(c: Settings, s: Sim, i: nat, j: nat)
    requires Good(c, s) && i < j < |s.trace|
    ensures s.trace[i].clock <= s.trace[j].clock
  {
    if Ended(s) {
      var n := |s.trace| - 1;
      assert s.trace[..n][i] == Expected(c, i);
      TimesGrow(c, i, n - 1);
      if j < n {
        assert s.trace[..n][j] == Expected(c, j);
        TimesGrow(c, i, j);
      }
    } else {
      TimesGrow(c, i, j);
    }
  }

  predicate IsStop(p: Published) {
    p.event.SimulationStop?
  }

  /** A stop event is published when the loop ends, as the last event, and at no other time. */
  lemma OneStopEvent(c: Settings, s: Sim)
    requires Good(c, s)
    ensures forall i :: 0 <= i < |s.trace| ==>
              (IsStop(s.trace[i]) <==> Ended(s) && i == |s.trace| - 1)
    ensures Ended(s) ==> s.trace != []
  {
    forall i | 0 <= i < |s.trace|
      ensures IsStop(s.trace[i]) <==> Ended(s) && i == |s.trace| - 1
    {
      if Ended(s) {
        var n := |s.trace| - 1;
        assert i < n ==> s.trace[i] == s.trace[..n][i] == Expected(c, i);
      }
    }
  }

  lemma TraceGrows(c: Settings, s: Sim, move: Move)
    ensures var s' := Next(c, s, move);
            s.trace <= s'.trace && (Ended(s) ==> Ended(s') && s'.trace == s.trace)
  {
    if move.Loop? && s.location.Processing? {
      var s1 := ProcessEvent(c, s, move.fault).0;
      assert s.trace <= s1.trace;
    }
  }

  /** What was published stays published, and nothing follows the end of the loop, however a run goes on. */
  lemma {:induction false} NothingIsTakenBack(c: Settings, s: Sim, moves: seq<Move>, n: nat)
    requires n <= |moves|
    ensures var before, after := Run(c, s, moves[..n]), Run(c, s, moves);
            before.trace <= after.trace && (Ended(before) ==> Ended(after) && after.trace == before.trace)
    decreases |moves|
  {
    if n < |moves| {
      var most := moves[..|moves| - 1];
      assert most[..n] == moves[..n];
      NothingIsTakenBack(c, s, most, n);
      TraceGrows(c, Run(c, s, most), moves[|moves| - 1]);
    } else {
      assert moves[..n] == moves;
    }
  }

  // ---------------------------------------------------------------- runs to the end

  /** Nothing is thrown, and nobody requests to stop. */
  predicate Undisturbed(moves: seq<Move>) {
    forall i :: 0 <= i < |moves| ==> moves[i] != Loop(true) && moves[i] != RequestStop
  }

  ghost predicate EndsByItself(s: Sim) {
    && !s.requestToStop
    && (Ended(s) ==> s.trace != [] && s.trace[|s.trace| - 1].event.SimulationStop?
                                                        && s.trace[|s.trace| - 1].event.cause.StopTimeReached?)
  }

  lemma LoopEndsByItself(c: Settings, s: Sim)
    requires Good(c, s) && EndsByItself(s)
    ensures EndsByItself(Proceed(c, s, false))
  {
    if s.location.Processing? {
      if |s.trace| < Total(c) {
        ProcessNth(c, s, |s.trace|, false);
        FrontIsPresent(c, s);
      } else {
        ProcessStop(c, s, false);
      }
    }
  }

  lemma NextEndsByItself(c: Settings, s: Sim, move: Move)
    requires Good(c, s) && EndsByItself(s) && move != Loop(true) && move != RequestStop
    ensures EndsByItself(Next(c, s, move))
  {
    if move.Loop? {
      LoopEndsByItself(c, s);
    }
  }

  lemma {:induction false} UndisturbedEndsByItself(c: Settings, s: Sim, moves: seq<Move>)
    requires Good(c, s) && EndsByItself(s) && Undisturbed(moves)
    ensures EndsByItself(Run(c, s, moves))
    decreases |moves|
  {
    if moves != [] {
      var before := moves[..|moves| - 1];
      UndisturbedEndsByItself(c, s, before);
      RunIsGood(c, s, before);
      NextEndsByItself(c, Run(c, s, before), moves[|moves| - 1]);
    }
  }

  /** Nobody stepped, paused or requested to stop. */
  predicate Unhindered(s: Sim) {
    s.numStepRequests == 0 && !s.isPaused && !s.requestToStop
  }

  lemma StartEndsByItself(c: Settings, s: Sim, fault: bool)
    requires Good(c, s) && !s.startDone && s.location.Processing? && !s.requestToStop
    ensures fault || EndsByItself(Proceed(c, s, false))
    ensures var s' := Proceed(c, s, fault); s'.numStepRequests == s.numStepRequests && s'.isPaused == s.isPaused && !s'.requestToStop
  {
    ProcessNth(c, s, 0, fault);
    ProcessNth(c, s, 0, false);
  }

  lemma {:induction false} PassEndsByItself(c: Settings, s: Sim, fault: nat -> bool)
    requires Good(c, s) && s.location.Processing? && s.startDone
    ensures (forall n :: !fault(n)) && EndsByItself(s) ==> EndsByItself(Pass(c, s, fault))
    ensures var s' := Pass(c, s, fault); s'.numStepRequests == s.numStepRequests && s'.isPaused == s.isPaused && s'.requestToStop == s.requestToStop
    decreases Total(c) - |s.trace|
  {
    if EndsByItself(s) {
      LoopEndsByItself(c, s);
    }
    LoopLeavesRequests(c, s, fault(|s.trace|));
    ProceedIsGood(c, s, fault(|s.trace|));
    var s' := Proceed(c, s, fault(|s.trace|));
    if s'.location.Processing? {
      PassContinues(c, s, fault(|s.trace|));
      PassEndsByItself(c, s', fault);
    }
  }

  /** What a step of a pass leaves alone. */
  lemma LoopLeavesRequests(c: Settings, s: Sim, fault: bool)
    requires s.location.Processing?
    ensures var s' := Proceed(c, s, fault);
            && s'.numStepRequests == s.numStepRequests && s'.isPaused == s.isPaused && s'.requestToStop == s.requestToStop
            && s'.iterations == s.iterations && (s'.location.Processing? || s'.location.Checking? || s'.location.Leaving?)
  {
  }

  /** Exactly the start event, then step, update and post-step of every step up to the last one
      due by the stop time, then the stop event. */
  ghost predicate FullSchedule(c: Settings, trace: seq<Published>, last: nat) {
    && |trace| == 3 * last + 5
    && trace[0] == Published(0.0, SimulationStart)
    && (forall k: nat :: k <= last ==> StepPublished(c, trace, k))
    && trace[3 * last + 4].event == SimulationStop(c.stopTime, last, StopTimeReached)
    && Multiple(last, c.stepSize) <= c.stopTime + TOLERANCE < Multiple(last + 1, c.stepSize)
  }

  ghost predicate StepPublished(c: Settings, trace: seq<Published>, k: nat) {
    var t := Multiple(k, c.stepSize);
    && 3 * k + 3 < |trace|
    && trace[3 * k + 1] == Published(t, SimulationStep(t, k))
    && trace[3 * k + 2] == Published(t, ScenarioUpdate)
    && trace[3 * k + 3] == Published(t, SimulationPostStep)
  }

  /** Main result: a run that ends although nothing was thrown and nobody requested to stop,
      has processed the whole schedule, whatever pauses and single steps came in between. */
  lemma UndisturbedRunIsFull(c: Settings, numStepRequests: nat, isPaused: bool, moves: seq<Move>)
    requires Undisturbed(moves)
    ensures var s := Run(c, Setup(c, numStepRequests, isPaused), moves);
            Ended(s) ==> FullSchedule(c, s.trace, LastStep(c))
  {
    var s := Run(c, Setup(c, numStepRequests, isPaused), moves);
    SetupIsGood(c, numStepRequests, isPaused);
    UndisturbedEndsByItself(c, Setup(c, numStepRequests, isPaused), moves);
    EveryRunIsGood(c, numStepRequests, isPaused, moves);
    if Ended(s) {
      EndedIsFull(c, s.trace);
    }
  }

  lemma EndedIsFull(c: Settings, trace: seq<Published>)
    requires EndedOnce(c, trace) && trace[|trace| - 1].event.cause.StopTimeReached?
    ensures FullSchedule(c, trace, LastStep(c))
  {
    var n := |trace| - 1;
    assert forall i :: 0 <= i < n ==> trace[i] == trace[..n][i] == Expected(c, i);
    forall k: nat | k <= LastStep(c) ensures StepPublished(c, trace, k) {
      assert trace[3 * k + 1] == Expected(c, 3 * k + 1) && trace[3 * k + 2] == Expected(c, 3 * k + 2);
    }
    assert trace[0] == Expected(c, 0);
  }

  /** One stop event ends the trace, and unless something was thrown the schedule is complete. */
  ghost predicate Concluded(c: Settings, trace: seq<Published>, faulty: bool) {
    EndedOnce(c, trace) && (faulty || FullSchedule(c, trace, LastStep(c)))
  }

  lemma Conclusion(c: Settings, s: Sim, faulty: bool)
    requires Good(c, s) && s.location.Leaving? && (faulty || EndsByItself(s))
    ensures Concluded(c, s.trace, faulty)
  {
    if !faulty {
      EndedIsFull(c, s.trace);
    }
  }

  // ---------------------------------------------------------------- single stepping

  /** Nobody pauses or resumes. */
  predicate NoToggle(moves: seq<Move>) {
    forall i :: 0 <= i < |moves| ==> !moves[i].Toggle?
  }

  predicate WaitsEarly(s: Sim) {
    s.location.Waiting? && s.isPaused && s.numStepRequests > 0
  }

  /** How many step requests were accepted. */
  function Accepted(c: Settings, s: Sim, moves: seq<Move>): nat {
    if moves == [] then 0
    else
      var before := moves[..|moves| - 1];
      Accepted(c, s, before) + if moves[|moves| - 1].Step? && MayStep(Run(c, s, before)) then 1 else 0
  }

  /** In single stepping the loop works while requests are left, and waits when they are served. */
  predicate Stepping(s: Sim) {
    match s.location
    case Waiting => (s.isPaused ==> s.numStepRequests == 0) && (s.isPaused || s.numStepRequests > 0 || s.requestToStop)
    case Leaving => true
    case Finished => true
    case _ => s.numStepRequests > 0 && !s.isPaused
  }

  lemma SteppingContinues(c: Settings, s: Sim, move: Move)
    requires Stepping(s) && !move.Toggle?
    ensures var s' := Next(c, s, move);
            Stepping(s') && s'.iterations + s'.numStepRequests
                         == s.iterations + s.numStepRequests + if move.Step? && MayStep(s) then 1 else 0
    ensures move.Step? && !s.location.Finished? ==> MayStep(s) || s.requestToStop || s.location.Leaving?
  {
  }

  /** Main result: from a start in single stepping, without pause or resume commands, the completed
      iterations and the open requests account for all requests; the loop works only while
      requests are open, and waits only when all of them are served, having taken exactly one
      time step for each of them after the first. */
  lemma {:induction false} StepRequestsAccountedFor(c: Settings, initial: nat, moves: seq<Move>)
    requires initial > 0 && NoToggle(moves)
    ensures var s := Run(c, Setup(c, initial, false), moves);
            && s.iterations + s.numStepRequests == initial + Accepted(c, Setup(c, initial, false), moves)
            && Stepping(s)
            && (s.location.Waiting? && s.isPaused ==>
                  |s.trace| == 3 * (initial + Accepted(c, Setup(c, initial, false), moves)) - 2)
    decreases |moves|
  {
    EveryRunIsGood(c, initial, false, moves);
    if moves != [] {
      var before := moves[..|moves| - 1];
      StepRequestsAccountedFor(c, initial, before);
      SteppingContinues(c, Run(c, Setup(c, initial, false), before), moves[|moves| - 1]);
    }
  }

  lemma RunOneMore(c: Settings, s: Sim, moves: seq<Move>, move: Move)
    ensures Run(c, s, moves + [move]) == Next(c, Run(c, s, moves), move)
  {
    assert (moves + [move])[..|moves|] == moves;
  }

  lemma StartIsProcessed(c: Settings, initial: nat, isPaused: bool)
    ensures var s := Proceed(c, Setup(c, initial, isPaused), false);
            s.location.Checking? && s.isPaused == isPaused && s.numStepRequests == initial && !s.requestToStop
  {
    SetupIsGood(c, initial, isPaused);
    ProcessNth(c, Setup(c, initial, isPaused), 0, false);
  }

  lemma CheckedThenWaits(c: Settings, s: Sim)
    requires s.location.Checking? && s.isPaused && s.numStepRequests > 1 && !s.requestToStop
    ensures WaitsEarly(Proceed(c, Proceed(c, s, false), false))
  {
  }

  lemma RunThree(c: Settings, s: Sim, x: Move, y: Move, z: Move)
    ensures Run(c, s, [x, y, z]) == Next(c, Next(c, Next(c, s, x), y), z)
  {
    assert [] + [x] == [x] && [x] + [y] == [x, y] && [x, y] + [z] == [x, y, z];
    RunOneMore(c, s, [], x);
    RunOneMore(c, s, [x], y);
    RunOneMore(c, s, [x, y], z);
  }

  /** A pause leaves at most the request that is being served, and a wait none. */
  predicate Prompt(s: Sim) {
    s.isPaused ==> s.numStepRequests <= if s.location.Waiting? then 0 else 1
  }

  lemma {:induction false} StaysPrompt(c: Settings, s: Sim, moves: seq<Move>)
    requires Prompt(s) && NoToggle(moves)
    ensures Prompt(Run(c, s, moves))
    decreases |moves|
  {
    if moves != [] {
      StaysPrompt(c, s, moves[..|moves| - 1]);
      NextIsPrompt(c, Run(c, s, moves[..|moves| - 1]), moves[|moves| - 1]);
    }
  }

  lemma NextIsPrompt(c: Settings, s: Sim, move: Move)
    requires Prompt(s) && !move.Toggle?
    ensures Prompt(Next(c, s, move))
  {
  }

  /** Without pause or resume commands the loop can wait although requests are left exactly if it was
      paused from the start with more than one request. */
  lemma PausedStartWaitsEarly(c: Settings, initial: nat, isPaused: bool)
    ensures (exists moves :: NoToggle(moves) && WaitsEarly(Run(c, Setup(c, initial, isPaused), moves))) <==> isPaused && initial > 1
  {
    var s0 := Setup(c, initial, isPaused);
    if isPaused && initial > 1 {
      var moves := [Loop(false), Loop(false), Loop(false)];
      StartIsProcessed(c, initial, true);
      CheckedThenWaits(c, Proceed(c, s0, false));
      RunThree(c, s0, Loop(false), Loop(false), Loop(false));
      assert NoToggle(moves) && WaitsEarly(Run(c, s0, moves));
    } else {
      forall moves | NoToggle(moves) ensures !WaitsEarly(Run(c, s0, moves)) {
        StaysPrompt(c, s0, moves);
      }
    }
  }

  /** What a start call asks for. */
  datatype StartRequest = StartRequest(startAndPause: bool, singleStepping: bool) {
    function StepRequests(): nat {
      if startAndPause then 1 else if singleStepping then 2 else 0
    }
  }

  /** A simulation as a start call sets it up; a restart that is underway keeps an earlier pause. */
  function Started(c: Settings, request: StartRequest, restarting: bool, wasPaused: bool): Sim {
    Setup(c, request.StepRequests(), restarting && wasPaused)
  }

  /** Of all start calls only one for single stepping, during the restart of a paused simulation, can make
      the loop wait early; the start call of the restart itself cannot. */
  lemma WhichStartsWaitEarly(c: Settings, request: StartRequest, restarting: bool, wasPaused: bool)
    ensures (exists moves :: NoToggle(moves) && WaitsEarly(Run(c, Started(c, request, restarting, wasPaused), moves)))
       <==> restarting && wasPaused && request.singleStepping && !request.startAndPause
  {
    PausedStartWaitsEarly(c, request.StepRequests(), restarting && wasPaused);
  }

  /** A simulation that is started paused waits right after its start event, one started for single stepping waits after its
      first time step, and another one does not wait, as long as there are no commands. */
  lemma FirstWait(c: Settings, request: StartRequest, moves: seq<Move>)
    requires forall i :: 0 <= i < |moves| ==> moves[i].Loop?
    ensures var s := Run(c, Started(c, request, false, false), moves);
            s.location.Waiting? ==>
              (request.startAndPause || request.singleStepping) && |s.trace| == if request.startAndPause then 1 else 4
  {
    var s0 := Started(c, request, false, false);
    if request.StepRequests() > 0 {
      StepRequestsAccountedFor(c, request.StepRequests(), moves);
      NoneAccepted(c, s0, moves);
      WaitIsPaused(c, s0, moves);
    } else {
      WaitIsPaused(c, s0, moves);
    }
  }

  lemma {:induction false} NoneAccepted(c: Settings, s: Sim, moves: seq<Move>)
    requires forall i :: 0 <= i < |moves| ==> moves[i].Loop?
    ensures Accepted(c, s, moves) == 0
    decreases |moves|
  {
    if moves != [] {
      NoneAccepted(c, s, moves[..|moves| - 1]);
    }
  }

  /** Left alone, the loop waits only when it is paused, and is paused only when its requests are served. */
  predicate LeftAlone(s: Sim, initial: nat) {
    && (s.location.Waiting? ==> s.isPaused) && s.numStepRequests <= initial && (initial == 0 ==> !s.isPaused)
  }

  lemma {:induction false} WaitIsPaused(c: Settings, s: Sim, moves: seq<Move>)
    requires (forall i :: 0 <= i < |moves| ==> moves[i].Loop?) && LeftAlone(s, s.numStepRequests)
    ensures LeftAlone(Run(c, s, moves), s.numStepRequests)
    decreases |moves|
  {
    if moves != [] {
      WaitIsPaused(c, s, moves[..|moves| - 1]);
      NextLeftAlone(c, Run(c, s, moves[..|moves| - 1]), s.numStepRequests, moves[|moves| - 1]);
    }
  }

  lemma NextLeftAlone(c: Settings, s: Sim, initial: nat, move: Move)
    requires LeftAlone(s, initial) && move.Loop?
    ensures LeftAlone(Next(c, s, move), initial)
  {
    if s.location.Processing? {
      LoopLeavesRequests(c, s, move.fault);
    }
  }
}
