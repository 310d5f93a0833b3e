/** The events a co-simulation processes, in order, and what its calendar holds in between. */
module SimulationSchedule {
  import opened EventCalendars

  datatype SettingsModel = Settings(stepSize: real, stopTime: real) {
    predicate Valid() {
      MIN_STEP_SIZE <= stepSize <= MAX_STEP_SIZE && stopTime >= 0.0
    }
  }

  type Settings = c: SettingsModel | c.Valid() witness Settings(0.02, 10.0)

  /** The number of the last step: the largest one that is due by the stop time. */
  function LastStep(c: Settings): (k: nat)
    ensures Multiple(k, c.stepSize) <= c.stopTime + TOLERANCE < Multiple(k + 1, c.stepSize)
  {
    LargestMultiple(c.stopTime + TOLERANCE, c.stepSize)
  }

  /** How many events precede the stop event: the start event, and three in every step. */
  function Total(c: Settings): nat {
    3 * LastStep(c) + 4
  }

  /** The step an event belongs to. */
  function StepOf(n: nat): nat {
    if n == 0 then 0 else (n - 1) / 3
  }

  function TimeOf(c: Settings, n: nat): real {
    Multiple(StepOf(n), c.stepSize)
  }

  /** Event number `n`: the start event, then step, scenario update and post-step events. */
  function NthEvent(c: Settings, n: nat): TimedEvent {
    TimedEvent(TimeOf(c, n),
               if n == 0 then SimulationStart
               else if n % 3 == 1 then SimulationStep(TimeOf(c, n), StepOf(n))
               else if n % 3 == 2 then ScenarioUpdate
               else SimulationPostStep)
  }

  function StopEvent(c: Settings): TimedEvent {
    TimedEvent(c.stopTime, SimulationStop(c.stopTime, 0, StopTimeReached))
  }

  // ---------------------------------------------------------------- the order of the events

  lemma StepsApart(c: Settings, m: nat, n: nat)
    requires StepOf(m) < StepOf(n)
    ensures TimeOf(c, n) - TimeOf(c, m) > 2.0 * TOLERANCE
  {
    MultiplesApart(c.stepSize, StepOf(m), StepOf(n));
  }

  /** Events precede each other exactly as they are numbered. */
  lemma EventsInOrder(c: Settings, m: nat, n: nat)
    requires m < n
    ensures NthEvent(c, m).Before(NthEvent(c, n)) && !NthEvent(c, n).Before(NthEvent(c, m))
  {
    if StepOf(m) < StepOf(n) {
      StepsApart(c, m, n);
    }
  }

  /** Exactly the events up to the last step precede the stop event. */
  lemma StopInOrder(c: Settings, n: nat)
    ensures NthEvent(c, n).Before(StopEvent(c)) <==> n < Total(c)
    ensures StopEvent(c).Before(NthEvent(c, n)) <==> n >= Total(c)
  {
    if StepOf(n) < LastStep(c) {
      MultiplesApart(c.stepSize, StepOf(n), LastStep(c));
    } else if StepOf(n) > LastStep(c) + 1 {
      MultiplesApart(c.stepSize, LastStep(c) + 1, StepOf(n));
    }
  }

  // ---------------------------------------------------------------- the calendar

  /** A stop event among events that precede each other as they are numbered. */
  datatype Plan = Plan(event: nat -> TimedEvent, stop: TimedEvent, total: nat) {
    ghost predicate InOrder() {
      && total >= 4
      && (forall m: nat, n: nat :: m < n ==> event(m).Before(event(n)) && !event(n).Before(event(m)))
      && (forall n: nat :: event(n).Before(stop) <==> n < total)
      && (forall n: nat :: stop.Before(event(n)) <==> n >= total)
    }

    /** Where the stop event stands among the events scheduled after `n` events. */
    function StopIndex(n: nat): nat
      requires n <= total
    {
      var k := if n == 0 then 4 else 3;
      if total - n < k then total - n else k
    }

    function Item(n: nat, j: nat): TimedEvent
      requires n <= total
    {
      var i := StopIndex(n);
      if j < i then event(n + j) else if j == i then stop else event(n + j - 1)
    }

    /** The calendar after `n` events: those scheduled but not yet processed, with the stop
        event before the first event that is not due by the stop time. */
    function Agenda(n: nat): (r: seq<TimedEvent>)
      requires n <= total
      ensures forall j :: 0 <= j < |r| ==> r[j] == Item(n, j)
    {
      seq(if n == 0 then 5 else 4, j requires j >= 0 => Item(n, j))
    }

    /** Processing one event and scheduling its successor leads from one agenda to the next. */
    lemma AgendaAdvances(n: nat)
      requires InOrder() && n < total
      ensures n == 0 ==> Agenda(0)[1..] == Agenda(1)
      ensures n > 0 ==> Inserted(Agenda(n)[1..], event(n + 3)) == Agenda(n + 1)
    {
      if n > 0 {
        InsertedAt(Agenda(n)[1..], event(n + 3), if n + 3 < total then 2 else 3);
      }
    }

    function First(k: nat): (r: seq<TimedEvent>) {
      seq(k, i requires i >= 0 => event(i))
    }

    /** Scheduling the stop event after the first four events gives the first agenda. */
    lemma FirstAgenda()
      requires InOrder()
      ensures Inserted(First(4), stop) == Agenda(0)
    {
      InsertedAt(First(4), stop, 4);
    }

    lemma FirstGrows(k: nat)
      requires InOrder()
      ensures Inserted(First(k), event(k)) == First(k + 1)
    {
      InsertedAt(First(k), event(k), k);
    }

    lemma AgendaIsSorted(n: nat)
      requires InOrder() && n <= total
      ensures Sorted(Agenda(n))
    {
    }
  }

  lemma {:induction false} InsertedAt(events: seq<TimedEvent>, e: TimedEvent, i: nat)
    requires i <= |events| && (forall j :: 0 <= j < i ==> !e.Before(events[j])) && (i < |events| ==> e.Before(events[i]))
    ensures Inserted(events, e) == events[..i] + [e] + events[i..]
  {
    if i > 0 {
      var rest := events[1..];
      assert forall j :: 0 <= j < i - 1 ==> rest[j] == events[j + 1];
      InsertedAt(rest, e, i - 1);
      FirstJoins(events, e, i);
    }
  }

  lemma FirstJoins(events: seq<TimedEvent>, e: TimedEvent, i: nat)
    requires 0 < i <= |events|
    ensures [events[0]] + (events[1..][..i - 1] + [e] + events[1..][i - 1..]) == events[..i] + [e] + events[i..]
  {
  }

  function PlanOf(c: Settings): Plan {
    Plan((n: nat) => NthEvent(c, n), StopEvent(c), Total(c))
  }

  lemma PlanIsInOrder(c: Settings)
    ensures PlanOf(c).InOrder()
  {
    forall m: nat, n: nat | m < n
      ensures NthEvent(c, m).Before(NthEvent(c, n)) && !NthEvent(c, n).Before(NthEvent(c, m))
    {
      EventsInOrder(c, m, n);
    }
    forall n: nat
      ensures (NthEvent(c, n).Before(StopEvent(c)) <==> n < Total(c)) && (StopEvent(c).Before(NthEvent(c, n)) <==> n >= Total(c))
    {
      StopInOrder(c, n);
    }
  }

  /** Main result: what is left of one agenda, with the renewed event, is the next agenda. */
  lemma AgendaAdvances(c: Settings, n: nat)
    requires n < Total(c)
    ensures var rest := PlanOf(c).Agenda(n)[1..];
            (if n == 0 then rest else Inserted(rest, NthEvent(c, n + 3))) == PlanOf(c).Agenda(n + 1)
  {
    PlanIsInOrder(c);
    PlanOf(c).AgendaAdvances(n);
  }

  /** Main result: every calendar of a run is sorted, on times at which the comparison is a
      strict weak order. */
  lemma AgendaIsSorted(c: Settings, n: nat)
    requires n <= Total(c)
    ensures Sorted(PlanOf(c).Agenda(n)) && TimesIn(ScheduledTimes(c.stepSize, c.stopTime), PlanOf(c).Agenda(n))
    ensures StrictWeakOrder(ScheduledTimes(c.stepSize, c.stopTime))
  {
    PlanIsInOrder(c);
    PlanOf(c).AgendaIsSorted(n);
    StepSizeForAllStopTimes(c.stepSize);
  }

  // ---------------------------------------------------------------- what is due

  /** While event `n - 1` is present, event `n` is present exactly when it belongs to the same step. */
  lemma PresentEvents(c: Settings, n: nat)
    requires n > 0
    ensures NthEvent(c, n).DueBy(TimeOf(c, n - 1)) <==> StepOf(n) == StepOf(n - 1)
    ensures TimeOf(c, n - 1) <= TimeOf(c, n)
  {
    if StepOf(n - 1) < StepOf(n) {
      StepsApart(c, n - 1, n);
    }
  }
}
