/** The simulation engine: the loop over the event calendar, and the commands that steer it. */
module Simulations {
  import opened Wrappers
  import opened EventCalendars
  import opened SimulationSchedule
  import R = SimulationRuns
  import opened SimulationRuns
  import opened SimulationResults

  class Simulation {
    const settings: Settings
    const calendar: EventCalendar
    var numSteps: nat
    var numStepRequests: nat
    var isPaused: bool
    var requestToStop: bool
    // Whether the simulator thread runs
    var isRunning: bool
    // What was published
    var trace: seq<Published>
    // Where the loop stands
    ghost var startDone: bool
    ghost var location: Location
    ghost var iterations: nat

    ghost function State(): Sim
      reads this, calendar
    {
      Sim(calendar.timeNow, calendar.events, numSteps, startDone, numStepRequests, isPaused, requestToStop, location, trace, iterations)
    }

    ghost predicate Valid()
      reads this, calendar
    {
      Good(settings, State()) && (isRunning <==> !location.Finished?)
    }

    /** Prepares a run: the calendar holds the first events and the stop event. */
    constructor (settings: Settings, endOfTime: real, numStepRequests: nat, isPaused: bool)
      ensures Valid() && fresh(calendar) && this.settings == settings
      ensures State() == Setup(settings, numStepRequests, isPaused)
    {
      this.settings := settings;
      calendar := new EventCalendar(endOfTime);
      numSteps, this.numStepRequests, this.isPaused, requestToStop := 0, numStepRequests, isPaused, false;
      trace, isRunning := [], true;
      startDone, location, iterations := false, Processing(false), 0;
      new;
      ScheduleFirstEvents();
      SetupIsGood(settings, numStepRequests, isPaused);
    }

    method ScheduleFirstEvents()
      requires State() == Blank(numStepRequests, isPaused)
      modifies calendar
      ensures State() == Setup(settings, numStepRequests, isPaused)
    {
      calendar.ScheduleEvent(0.0, SimulationStart);
      calendar.ScheduleEvent(0.0, SimulationStep(0.0, 0));
      calendar.ScheduleEvent(0.0, ScenarioUpdate);
      calendar.ScheduleEvent(0.0, SimulationPostStep);
      calendar.ScheduleEvent(settings.stopTime, SimulationStop(settings.stopTime, 0, StopTimeReached));
    }

    method PublishEvent(event: Event)
      modifies this`trace
      ensures State() == Publish(old(State()), event)
    {
      trace := trace + [Published(calendar.timeNow, event)];
    }

    /** Takes the next event from the calendar, publishes it and schedules its successor. */
    method ProcessEvent(fault: bool) returns (outcome: Outcome)
      requires Valid() && location.Processing? && (startDone ==> calendar.HasPresentEvent())
      modifies this`trace, this`numSteps, calendar
      ensures State() == R.ProcessEvent(settings, old(State()), fault).0
      ensures outcome == R.ProcessEvent(settings, old(State()), fault).1
    {
      if |trace| < Total(settings) {
        RenewedIsLater(settings, State());
      }
      outcome := Complete;
      var popped := calendar.PopNextEvent();
      if popped.Some? {
        if popped.value.SimulationStop? {
          PublishEvent(popped.value.(stopSteps := numSteps));
        } else {
          PublishEvent(popped.value);
          if fault {
            return Threw;
          }
          Renew(popped.value);
          outcome := Resume;
        }
      }
    }

    method Renew(event: Event)
      requires event.SimulationStep? ==> Multiple(event.steps + 1, settings.stepSize) > calendar.timeNow - TOLERANCE
      requires !event.SimulationStep? ==> Multiple(numSteps + 1, settings.stepSize) > calendar.timeNow - TOLERANCE
      modifies this`numSteps, calendar
      ensures State() == R.Renew(settings, old(State()), event)
    {
      if event.SimulationStep? {
        numSteps := event.steps;
        ScheduleNext(SimulationStep(Multiple(numSteps + 1, settings.stepSize), numSteps + 1));
      } else if event.ScenarioUpdate? || event.SimulationPostStep? {
        ScheduleNext(event);
      }
    }

    method ScheduleNext(event: Event)
      requires Multiple(numSteps + 1, settings.stepSize) > calendar.timeNow - TOLERANCE
      modifies calendar
      ensures State() == Renewed(settings, old(State()), event)
    {
      calendar.ScheduleEvent(Multiple(numSteps + 1, settings.stepSize), event);
    }

    method PublishStopEvent(cause: StopCause)
      modifies this`trace, this`location
      ensures State() == PublishStop(settings, old(State()), cause)
    {
      PublishEvent(SimulationStop(Multiple(numSteps, settings.stepSize), numSteps, cause));
      location := Leaving;
    }

    /** The first iteration handles the start event alone. */
    method ProcessStart(fault: bool) returns (resume: bool)
      requires Valid() && location.Processing? && !startDone
      modifies this`trace, this`numSteps, this`startDone, this`location, calendar
      ensures Valid() && State() == Proceed(settings, old(State()), fault)
      ensures location == if resume then Checking else Leaving
    {
      ProceedIsGood(settings, State(), fault);
      ProcessNth(settings, State(), 0, fault);
      var outcome := ProcessEvent(fault);
      if outcome.Threw? {
        PublishStopEvent(ScenarioEnded);
        return false;
      }
      startDone, location := true, Checking;
      resume := true;
    }

    /** Handles one present event of a pass; if that throws, the simulation ends. */
    method HandleEvent(fault: bool) returns (resume: bool)
      requires Valid() && location.Processing? && startDone && calendar.HasPresentEvent()
      modifies this`trace, this`numSteps, this`location, calendar
      ensures Valid() && State() == Proceed(settings, old(State()), fault)
      ensures location == if resume then Processing(true) else Leaving
      ensures |trace| > |old(trace)|
    {
      ProceedIsGood(settings, State(), fault);
      PresentEventIsPublished(settings, State(), fault);
      var outcome := ProcessEvent(fault);
      if outcome.Threw? {
        PublishStopEvent(ScenarioEnded);
      } else {
        location := if outcome.Resume? then Processing(true) else Leaving;
      }
      resume := outcome.Resume?;
    }

    /** Handles every event that is present and then advances the clock, unless the stop event
        was among them or handling one of them threw; `fault` tells which event throws. */
    method ProcessPresentEvents(fault: nat -> bool) returns (resume: bool)
      requires Valid() && location == Processing(false) && startDone
      modifies this`trace, this`numSteps, this`location, calendar
      ensures Valid() && State() == Pass(settings, old(State()), fault)
      ensures location == if resume then Checking else Leaving
      ensures |trace| > |old(trace)|
    {
      resume := false;
      PassHasEvent(settings, State());
      while calendar.HasPresentEvent()
        invariant Valid() && location == Processing(resume) && startDone
        invariant Pass(settings, State(), fault) == Pass(settings, old(State()), fault)
        invariant if resume then |trace| > |old(trace)| else trace == old(trace) && calendar.HasPresentEvent()
        decreases Total(settings) + 1 - |trace|
      {
        resume := HandleEvent(fault(|trace|));
        if !resume {
          return;
        }
      }
      ProceedIsGood(settings, State(), fault(|trace|));
      var _ := calendar.AdvanceTime();
      location := Checking;
    }

    /** Ends the simulation if somebody requested it. */
    method CheckStopRequest() returns (resume: bool)
      requires Valid() && location.Checking?
      modifies this`trace, this`requestToStop, this`location
      ensures Valid() && State() == Proceed(settings, old(State()), false)
      ensures location == if resume then Deciding else Leaving
    {
      ProceedIsGood(settings, State(), false);
      if requestToStop {
        requestToStop := false;
        PublishStopEvent(StopRequested);
        return false;
      }
      location := Deciding;
      resume := true;
    }

    /** Counts down the step requests and pauses when the last one is served. */
    method UpdateStatus() returns (wait: bool)
      requires Valid() && location.Deciding?
      modifies this`numStepRequests, this`isPaused, this`location, this`iterations
      ensures Valid() && State() == Proceed(settings, old(State()), false)
      ensures location == if wait then Waiting else Processing(false)
    {
      ProceedIsGood(settings, State(), false);
      if numStepRequests > 0 {
        numStepRequests := numStepRequests - 1;
        if numStepRequests == 0 {
          isPaused := true;
        }
      }
      iterations, location := iterations + 1, if isPaused then Waiting else Processing(false);
      wait := isPaused;
    }

    /** Goes on after a wait, unless it was ended by a request to stop. */
    method EndWait() returns (resume: bool)
      requires Valid() && location.Waiting? && !isPaused
      modifies this`trace, this`requestToStop, this`location
      ensures Valid() && State() == Proceed(settings, old(State()), false)
      ensures location == if resume then Processing(false) else Leaving
    {
      ProceedIsGood(settings, State(), false);
      if requestToStop {
        requestToStop := false;
        PublishStopEvent(StopRequested);
        return false;
      }
      location := Processing(false);
      resume := true;
    }

    method Cleanup()
      requires Valid() && location.Leaving?
      modifies this`numSteps, this`location, this`isRunning, calendar
      ensures location.Finished? && Valid() && State() == Proceed(settings, old(State()), false)
    {
      numSteps := 0;
      calendar.Cleanup();
      location, isRunning := Finished, false;
    }

    /** Takes one time step more, if the simulation is paused or already stepping. */
    method StepSimulation() returns (ok: bool)
      requires Valid()
      modifies this`numStepRequests, this`isPaused
      ensures Valid() && State() == R.StepSimulation(old(State())) && ok == old(MayStep(State()))
    {
      CommandIsGood(settings, State(), Step);
      if !isRunning || (numStepRequests == 0 && !isPaused) {
        return false;
      }
      numStepRequests, isPaused := numStepRequests + 1, false;
      ok := true;
    }

    /** Pauses, leaves the single stepping mode, or ends a pause. */
    method PauseOrResumeSimulation(pause: bool) returns (ok: bool)
      requires Valid()
      modifies this`numStepRequests, this`isPaused
      ensures Valid() && State() == PauseOrResume(old(State()), pause) && ok == isRunning
      ensures isRunning && pause ==> isPaused && numStepRequests == old(numStepRequests)
      ensures isRunning && !pause ==> numStepRequests == 0 && isPaused == (old(isPaused) && old(numStepRequests) > 0)
    {
      CommandIsGood(settings, State(), Toggle(pause));
      if !isRunning {
        return false;
      }
      if !pause {
        if numStepRequests > 0 {
          numStepRequests := 0;
        } else if isPaused {
          isPaused := false;
        }
      } else if !isPaused {
        isPaused := true;
      }
      ok := true;
    }

    /** Raises the flag that ends the simulation, and wakes its loop. */
    method StopSimulationRequested() returns (ok: bool)
      requires Valid()
      modifies this`requestToStop, this`isPaused
      ensures Valid() && ok == isRunning
      ensures State() == Next(settings, Next(settings, old(State()), RequestStop), ReleasePause) || !isRunning
      ensures isRunning ==> requestToStop && !isPaused
    {
      CommandIsGood(settings, State(), RequestStop);
      CommandIsGood(settings, Next(settings, State(), RequestStop), ReleasePause);
      if !isRunning {
        return false;
      }
      requestToStop := true;
      if isPaused {
        isPaused := false;
      }
      ok := true;
    }

    /** From one stop check to the next, while nobody paused and nobody requested a stop. */
    method Iterate(fault: nat -> bool) returns (resume: bool)
      requires Valid() && Unhindered(State()) && location.Checking? && startDone
      modifies this, calendar
      ensures Valid() && location == (if resume then Checking else Leaving) && startDone
      ensures Unhindered(State()) && |trace| > |old(trace)|
      ensures (forall n :: !fault(n)) && EndsByItself(old(State())) ==> EndsByItself(State())
    {
      var stay := CheckStopRequest();
      var wait := UpdateStatus();
      PassEndsByItself(settings, State(), fault);
      resume := ProcessPresentEvents(fault);
    }

    /** The loop until it is left, while nobody pauses and nobody requests a stop. */
    method Loop(fault: nat -> bool)
      requires Valid() && State() == Setup(settings, 0, false)
      modifies this, calendar
      ensures Valid() && location.Leaving?
      ensures (exists n :: fault(n)) || EndsByItself(State())
    {
      StartEndsByItself(settings, State(), fault(0));
      var resume := ProcessStart(fault(0));
      while resume
        invariant Valid() && location == (if resume then Checking else Leaving) && (resume ==> startDone)
        invariant Unhindered(State()) && ((exists n :: fault(n)) || EndsByItself(State()))
        decreases Total(settings) + 1 - |trace|
      {
        resume := Iterate(fault);
      }
    }

    /** The whole run, if no other thread interferes: it ends, and unless something is thrown it
        processes exactly the full schedule. */
    method SimLoop(fault: nat -> bool)
      requires Valid() && State() == Setup(settings, 0, false)
      modifies this, calendar
      ensures Valid() && location.Finished? && Concluded(settings, trace, exists n :: fault(n))
    {
      Loop(fault);
      Conclusion(settings, State(), exists n :: fault(n));
      Cleanup();
    }
  }
}
