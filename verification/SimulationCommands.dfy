/** What the commands that pause, resume and stop do to the runs that follow them. */
module SimulationCommands {
  import opened EventCalendars
  import opened SimulationSchedule
  import opened SimulationRuns
  import opened SimulationResults

  // ---------------------------------------------------------------- one pass

  /** At most the events of the iteration of `s` are published; the end of the loop adds a stop event. */
  predicate WithinPass(s: Sim, s': Sim) {
    if Ended(s') then |s'.trace| <= 3 * s.iterations + 2 else |s'.trace| <= 3 * s.iterations + 1
  }

  lemma KeepsPace(c: Settings, s: Sim)
    requires Good(c, s) && !Ended(s)
    ensures |s.trace| <= 3 * s.iterations + 1
  {
  }

  lemma PassPublishes(c: Settings, s: Sim, fault: bool)
    requires Good(c, s) && s.location.Processing?
    ensures WithinPass(s, Proceed(c, s, fault))
  {
    KeepsPace(c, s);
    ProceedIsGood(c, s, false);
    LoopLeavesRequests(c, s, false);
    LoopLeavesRequests(c, s, fault);
    if s.startDone && !HasPresentEvent(s) {
      PassEndIsGood(c, s, fault);
      KeepsPace(c, Proceed(c, s, false));
    } else if |s.trace| == Total(c) {
      ProcessStop(c, s, fault);
    } else {
      EventPublishes(c, s, fault);
      KeepsPace(c, Proceed(c, s, false));
    }
  }

  lemma EventPublishes(c: Settings, s: Sim, fault: bool)
    requires Good(c, s) && s.location.Processing? && |s.trace| < Total(c) && (s.startDone ==> HasPresentEvent(s))
    ensures |Proceed(c, s, false).trace| == |s.trace| + 1 && !Ended(Proceed(c, s, false))
    ensures fault ==> |Proceed(c, s, fault).trace| == |s.trace| + 2 && Ended(Proceed(c, s, fault))
  {
    ProcessNth(c, s, |s.trace|, fault);
    ProcessNth(c, s, |s.trace|, false);
  }

  // ---------------------------------------------------------------- pausing

  /** Nobody steps, resumes or stops, and so nothing ends a pause. */
  predicate NoRelease(moves: seq<Move>) {
    forall i :: 0 <= i < |moves| ==> moves[i].Loop? || moves[i] == Toggle(true)
  }

  /** Still paused, and no further than the pass that was underway when the pause came in `s`: a loop that
      waits goes on waiting, and one that stands between two passes publishes nothing but a stop event. */
  predicate Halting(s: Sim, s': Sim) {
    && s'.isPaused && WithinPass(s, s') && s.trace <= s'.trace
    && (s.location.Waiting? ==> s'.location.Waiting? && s'.trace == s.trace)
    && (s.location.Checking? || s.location.Deciding? ==> s'.trace == s.trace || Ended(s'))
    && (s.location.Checking? || s.location.Deciding? ==> !s'.location.Processing?)
    && (s'.location.Waiting? || Ended(s') || s'.iterations == s.iterations)
  }

  lemma LoopHalts(c: Settings, s: Sim, s': Sim, fault: bool)
    requires Good(c, s') && Halting(s, s')
    ensures Halting(s, Proceed(c, s', fault))
    ensures s'.location.Waiting? ==> Proceed(c, s', fault) == s'
  {
    TraceGrows(c, s', Loop(fault));
    if s'.location.Processing? {
      PassPublishes(c, s', fault);
      LoopLeavesRequests(c, s', fault);
    }
  }

  lemma {:induction false} HaltsFrom(c: Settings, s: Sim, moves: seq<Move>)
    requires Good(c, s) && !Ended(s) && s.isPaused && NoRelease(moves)
    ensures Halting(s, Run(c, s, moves))
    decreases |moves|
  {
    if moves == [] {
      KeepsPace(c, s);
    } else {
      var before, move := moves[..|moves| - 1], moves[|moves| - 1];
      HaltsFrom(c, s, before);
      RunIsGood(c, s, before);
      if move.Loop? {
        LoopHalts(c, s, Run(c, s, before), move.fault);
      }
    }
  }

  /** Main result: a pause that comes while the loop runs holds until somebody steps, resumes or stops. The loop
      publishes at most what is left of the pass underway, or the stop event, begins no further iteration, and
      once it waits it stays there and publishes nothing. */
  lemma PauseHolds(c: Settings, s: Sim, moves: seq<Move>, n: nat)
    requires Good(c, s) && !Ended(s) && NoRelease(moves) && n <= |moves|
    ensures var s0 := Next(c, s, Toggle(true));
            && s0 == s.(isPaused := true)
            && Halting(s, Run(c, s0, moves))
            && var s1 := Run(c, s0, moves[..n]);
               s1.location.Waiting? ==> Run(c, s0, moves) == s1
    decreases |moves|
  {
    var s0 := Next(c, s, Toggle(true));
    CommandIsGood(c, s, Toggle(true));
    HaltsFrom(c, s0, moves);
    if n < |moves| {
      var most := moves[..|moves| - 1];
      assert most[..n] == moves[..n];
      PauseHolds(c, s, most, n);
      HaltsFrom(c, s0, most);
    } else {
      assert moves[..n] == moves;
    }
  }

  // ---------------------------------------------------------------- resuming

  /** Nobody pauses. */
  predicate NoPause(moves: seq<Move>) {
    forall i :: 0 <= i < |moves| ==> moves[i] != Toggle(true)
  }

  predicate Free(s: Sim) {
    s.numStepRequests == 0 && !s.isPaused
  }

  lemma NextIsFree(c: Settings, s: Sim, move: Move)
    requires Free(s) && move != Toggle(true)
    ensures Free(Next(c, s, move)) && (Next(c, s, move).location.Waiting? ==> s.location.Waiting?)
    ensures s.location.Waiting? && move.Loop? ==> !Next(c, s, move).location.Waiting?
  {
    if move.Loop? && s.location.Processing? {
      LoopLeavesRequests(c, s, move.fault);
    }
  }

  lemma {:induction false} FreeRunsOn(c: Settings, s: Sim, moves: seq<Move>)
    requires Free(s) && NoPause(moves)
    ensures Free(Run(c, s, moves)) && (Run(c, s, moves).location.Waiting? ==> s.location.Waiting?)
    decreases |moves|
  {
    if moves != [] {
      FreeRunsOn(c, s, moves[..|moves| - 1]);
      NextIsFree(c, Run(c, s, moves[..|moves| - 1]), moves[|moves| - 1]);
    }
  }

  /** Main result: resuming ends the wait of a loop without open step requests, so that its next step leaves the
      wait, and nothing but a pause makes it wait again. With open requests it gives them up and ends no
      pause; a loop that works then goes on without waiting until somebody pauses. */
  lemma ResumeReleases(c: Settings, s: Sim, fault: bool, moves: seq<Move>)
    requires !s.location.Finished? && NoPause(moves)
    ensures var s0 := Next(c, s, Toggle(false));
            && s0.numStepRequests == 0 && s0.trace == s.trace && s0.location == s.location
            && s0.isPaused == (s.isPaused && s.numStepRequests > 0)
            && (s.numStepRequests == 0 || !s.isPaused ==>
                  && !Proceed(c, s0, fault).location.Waiting?
                  && !Run(c, Proceed(c, s0, fault), moves).location.Waiting?
                  && (!s.location.Waiting? ==> !Run(c, s0, moves).location.Waiting?))
  {
    var s0 := Next(c, s, Toggle(false));
    if s.numStepRequests == 0 || !s.isPaused {
      NextIsFree(c, s0, Loop(fault));
      FreeRunsOn(c, Proceed(c, s0, fault), moves);
      FreeRunsOn(c, s0, moves);
    }
  }

  // ---------------------------------------------------------------- stopping

  /** What a stop call does: it raises its flag and then wakes the loop. */
  function Stopped(c: Settings, s: Sim): Sim {
    Next(c, Next(c, s, RequestStop), ReleasePause)
  }

  predicate Stuck(s: Sim) {
    s.location.Waiting? && s.isPaused
  }

  /** The loop has ended, or will do so at its next check, and has not begun another pass since `s`. */
  predicate Stopping(s: Sim, s': Sim) {
    && WithinPass(s, s')
    && (Ended(s') || (s'.requestToStop && !s'.isPaused && !s'.location.Deciding? && s'.iterations == s.iterations))
  }

  lemma NextIsStopping(c: Settings, s: Sim, s': Sim, move: Move)
    requires Good(c, s') && Stopping(s, s') && move != Toggle(true)
    ensures Stopping(s, Next(c, s', move))
  {
    if move.Loop? && s'.location.Processing? {
      PassPublishes(c, s', move.fault);
      LoopLeavesRequests(c, s', move.fault);
    }
  }

  lemma {:induction false} StopsFrom(c: Settings, s: Sim, s0: Sim, moves: seq<Move>)
    requires Good(c, s0) && Stopping(s, s0) && NoPause(moves)
    ensures Stopping(s, Run(c, s0, moves))
    decreases |moves|
  {
    if moves != [] {
      StopsFrom(c, s, s0, moves[..|moves| - 1]);
      RunIsGood(c, s0, moves[..|moves| - 1]);
      NextIsStopping(c, s, Run(c, s0, moves[..|moves| - 1]), moves[|moves| - 1]);
    }
  }

  /** Main result: after a stop call that does not come between the loop's stop check and its look at the
      status, the loop publishes at most what is left of its pass, unless somebody pauses; and at its next
      check, or in its wait, it ends with a stop event that says so. */
  lemma StopIsObeyed(c: Settings, s: Sim, moves: seq<Move>, fault: bool)
    requires Good(c, s) && !Ended(s) && !s.location.Deciding? && NoPause(moves)
    ensures Stopped(c, s) == s.(requestToStop := true, isPaused := false)
    ensures var s' := Run(c, Stopped(c, s), moves);
            && Stopping(s, s') && !Stuck(s')
            && (s'.location.Checking? || s'.location.Waiting? ==>
                  var end := Proceed(c, s', fault);
                  Ended(end) && |end.trace| == |s'.trace| + 1 && end.trace[|s'.trace|].event.SimulationStop?
                  && end.trace[|s'.trace|].event.cause == StopRequested)
  {
    CommandIsGood(c, s, RequestStop);
    CommandIsGood(c, Next(c, s, RequestStop), ReleasePause);
    KeepsPace(c, s);
    StopsFrom(c, s, Stopped(c, s), moves);
  }

  lemma RunOne(c: Settings, s: Sim, move: Move)
    ensures Run(c, s, [move]) == Next(c, s, move)
  {
    assert [] + [move] == [move];
    RunOneMore(c, s, [], move);
  }

  /** Nothing but a pause keeps the loop from its next stop check. */
  predicate Unhampered(s: Sim) {
    Ended(s) || (s.requestToStop && !s.isPaused && (s.location.Deciding? ==> s.numStepRequests != 1))
  }

  lemma NextIsUnhampered(c: Settings, s: Sim, move: Move)
    requires Unhampered(s) && move != Toggle(true)
    ensures Unhampered(Next(c, s, move))
  {
    if move.Loop? && s.location.Processing? {
      LoopLeavesRequests(c, s, move.fault);
    }
  }

  lemma {:induction false} StaysUnhampered(c: Settings, s: Sim, moves: seq<Move>)
    requires Unhampered(s) && NoPause(moves)
    ensures Unhampered(Run(c, s, moves))
    decreases |moves|
  {
    if moves != [] {
      StaysUnhampered(c, s, moves[..|moves| - 1]);
      NextIsUnhampered(c, Run(c, s, moves[..|moves| - 1]), moves[|moves| - 1]);
    }
  }

  /** Main result: after a stop call, without pauses, the loop can get stuck in a wait exactly if the call came
      between its stop check and its look at the status while its last step request was being served. */
  lemma StopSticksExactly(c: Settings, s: Sim)
    requires !Ended(s)
    ensures (exists moves :: NoPause(moves) && Stuck(Run(c, Stopped(c, s), moves)))
       <==> s.location.Deciding? && s.numStepRequests == 1
  {
    if s.location.Deciding? && s.numStepRequests == 1 {
      RunOne(c, Stopped(c, s), Loop(false));
      assert NoPause([Loop(false)]) && Stuck(Run(c, Stopped(c, s), [Loop(false)]));
    } else {
      forall moves | NoPause(moves) ensures !Stuck(Run(c, Stopped(c, s), moves)) {
        StaysUnhampered(c, Stopped(c, s), moves);
      }
    }
  }

  // ---------------------------------------------------------------- why a run ended

  /** The stop event that ended the run names this cause. */
  predicate EndedBy(s: Sim, cause: StopCause) {
    Ended(s) && s.trace != [] && IsStop(s.trace[|s.trace| - 1]) && s.trace[|s.trace| - 1].event.cause == cause
  }

  /** A stop request and a thrown exception are given as causes only after they occurred. */
  ghost predicate CauseIsTrue(s: Sim, moves: seq<Move>) {
    && (s.requestToStop || EndedBy(s, StopRequested) ==> RequestStop in moves)
    && (EndedBy(s, ScenarioEnded) ==> Loop(true) in moves)
  }

  /** Handling an event that throws ends the loop at once, and the stop event says so. */
  lemma FaultEnds(c: Settings, s: Sim)
    requires Good(c, s) && s.location.Processing? && |s.trace| < Total(c) && (s.startDone ==> HasPresentEvent(s))
    ensures EndedBy(Proceed(c, s, true), ScenarioEnded) && !EndedBy(Proceed(c, s, false), ScenarioEnded)
  {
    ProcessNth(c, s, |s.trace|, true);
    ProcessNth(c, s, |s.trace|, false);
  }

  lemma PassCause(c: Settings, s: Sim, fault: bool)
    requires Good(c, s) && s.location.Processing?
    ensures !EndedBy(Proceed(c, s, fault), StopRequested)
    ensures EndedBy(Proceed(c, s, fault), ScenarioEnded) ==> fault
  {
    if s.startDone && !HasPresentEvent(s) {
      PassEndIsGood(c, s, fault);
    } else if |s.trace| < Total(c) {
      ProcessNth(c, s, |s.trace|, fault);
    } else {
      ProcessStop(c, s, fault);
    }
  }

  lemma NextCause(c: Settings, s: Sim, moves: seq<Move>, move: Move)
    requires Good(c, s) && CauseIsTrue(s, moves)
    ensures CauseIsTrue(Next(c, s, move), moves + [move])
  {
    assert forall x :: x in moves ==> x in moves + [move];
    assert (moves + [move])[|moves|] == move;
    if move.Loop? && s.location.Processing? {
      PassCause(c, s, move.fault);
      LoopLeavesRequests(c, s, move.fault);
    }
  }

  lemma {:induction false} RunCauseIsTrue(c: Settings, s: Sim, moves: seq<Move>)
    requires Good(c, s) && CauseIsTrue(s, [])
    ensures CauseIsTrue(Run(c, s, moves), moves)
    decreases |moves|
  {
    if moves != [] {
      var before, move := moves[..|moves| - 1], moves[|moves| - 1];
      RunCauseIsTrue(c, s, before);
      RunIsGood(c, s, before);
      NextCause(c, Run(c, s, before), before, move);
      assert before + [move] == moves;
    }
  }

  lemma EndedHasCause(c: Settings, s: Sim)
    requires Good(c, s) && Ended(s)
    ensures EndedBy(s, StopRequested) || EndedBy(s, ScenarioEnded) || FullSchedule(c, s.trace, LastStep(c))
  {
    if s.trace[|s.trace| - 1].event.cause.StopTimeReached? {
      EndedIsFull(c, s.trace);
    }
  }

  /** Main result: the stop event of an ended run names a stop request only if there was one, an exception only if one
      was thrown, and the stop time only if the full schedule was processed. */
  lemma StopCauseIsTrue(c: Settings, numStepRequests: nat, isPaused: bool, moves: seq<Move>)
    ensures var s := Run(c, Setup(c, numStepRequests, isPaused), moves);
            && (EndedBy(s, StopRequested) ==> RequestStop in moves)
            && (EndedBy(s, ScenarioEnded) ==> Loop(true) in moves)
            && (Ended(s) ==> EndedBy(s, StopRequested) || EndedBy(s, ScenarioEnded) || FullSchedule(c, s.trace, LastStep(c)))
  {
    var s := Run(c, Setup(c, numStepRequests, isPaused), moves);
    SetupIsGood(c, numStepRequests, isPaused);
    RunCauseIsTrue(c, Setup(c, numStepRequests, isPaused), moves);
    EveryRunIsGood(c, numStepRequests, isPaused, moves);
    if Ended(s) {
      EndedHasCause(c, s);
    }
  }

  /** Nothing of a finished run is left to the next one. */
  predicate Clean(s: Sim) {
    s.location.Finished? ==> s.events == [] && s.timeNow == 0.0 && s.numSteps == 0
  }

  lemma NextIsClean(c: Settings, s: Sim, move: Move)
    requires Clean(s)
    ensures Clean(Next(c, s, move))
  {
    if move.Loop? && s.location.Processing? {
      LoopLeavesRequests(c, s, move.fault);
    }
  }

  /** Main result: once a run is over its calendar is empty, its clock and its step count are zero. */
  lemma {:induction false} FinishedIsClean(c: Settings, s: Sim, moves: seq<Move>)
    requires Clean(s)
    ensures Clean(Run(c, s, moves))
    decreases |moves|
  {
    if moves != [] {
      FinishedIsClean(c, s, moves[..|moves| - 1]);
      NextIsClean(c, Run(c, s, moves[..|moves| - 1]), moves[|moves| - 1]);
    }
  }
}
