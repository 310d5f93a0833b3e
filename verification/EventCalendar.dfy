/** Events ordered by time, with a tolerance, and then by priority. */
module EventCalendars {

  import opened Wrappers

  // 64 times the double precision epsilon 2^-52
  const TOLERANCE: real := 64.0 / 4503599627370496.0

  // The range of a valid step size
  const MIN_STEP_SIZE: real := 0.00001
  const MAX_STEP_SIZE: real := 10.0

  datatype StopCause = StopTimeReached | StopRequested | ScenarioEnded

  datatype Event =
    | SimulationStart
    | SimulationStep(elapsed: real, steps: nat)
    | ScenarioUpdate
    | SimulationPostStep
    | SimulationStop(stopTime: real, stopSteps: nat, cause: StopCause)
  {
    function Priority(): int {
      match this
      case SimulationStart => 0
      case SimulationStep(_, _) => 1000
      case ScenarioUpdate => 1500
      case SimulationPostStep => 2000
      case SimulationStop(_, _, _) => 2147483647
    }
  }

  datatype TimedEvent = TimedEvent(time: real, event: Event) {
    /** The comparison of the source: times within the tolerance count as equal. */
    predicate Before(other: TimedEvent) {
      if time < other.time - TOLERANCE then true
      else if time > other.time + TOLERANCE then false
      else event.Priority() < other.event.Priority()
    }

    predicate DueBy(t: real) {
      time <= t + TOLERANCE
    }
  }

  // ---------------------------------------------------------------- when the comparison is an order

  predicate Near(s: real, t: real) {
    s <= t + TOLERANCE && t <= s + TOLERANCE
  }

  /** Being within the tolerance is transitive on these times. */
  ghost predicate Clustered(times: iset<real>) {
    forall r, s, t :: r in times && s in times && t in times && Near(r, s) && Near(s, t) ==> Near(r, t)
  }

  ghost predicate Ordered(times: iset<real>, a: TimedEvent, b: TimedEvent, c: TimedEvent) {
    a.time in times && b.time in times && c.time in times ==>
      && !a.Before(a)
      && (a.Before(b) && b.Before(c) ==> a.Before(c))
      && (!a.Before(b) && !b.Before(a) && !b.Before(c) && !c.Before(b) ==> !a.Before(c) && !c.Before(a))
  }

  /** The comparison is a strict weak order, as an ordered multiset demands. */
  ghost predicate StrictWeakOrder(times: iset<real>) {
    forall a, b, c :: Ordered(times, a, b, c)
  }

  /** Main result: the comparison is a strict weak order exactly on clustered times. */
  lemma StrictWeakOrderIffClustered(times: iset<real>)
    ensures StrictWeakOrder(times) <==> Clustered(times)
  {
    if Clustered(times) {
      forall a: TimedEvent, b: TimedEvent, c: TimedEvent ensures Ordered(times, a, b, c) {
        if a.time in times && b.time in times && c.time in times {
          assert Near(a.time, b.time) && Near(b.time, c.time) ==> Near(a.time, c.time);
          assert Near(b.time, c.time) && Near(c.time, a.time) ==> Near(b.time, a.time);
          assert Near(c.time, a.time) && Near(a.time, b.time) ==> Near(c.time, b.time);
        }
      }
    }
    if StrictWeakOrder(times) {
      forall r, s, t | r in times && s in times && t in times && Near(r, s) && Near(s, t) ensures Near(r, t) {
        assert Ordered(times, TimedEvent(r, ScenarioUpdate), TimedEvent(s, ScenarioUpdate), TimedEvent(t, ScenarioUpdate));
      }
    }
  }

  function Multiple(k: nat, stepSize: real): real {
    k as real * stepSize
  }

  ghost predicate IsScheduledTime(stepSize: real, stopTime: real, t: real) {
    t == stopTime || exists k: nat :: t == Multiple(k, stepSize)
  }

  /** The times a simulation schedules events at: multiples of the step size, and the stop time. */
  ghost function ScheduledTimes(stepSize: real, stopTime: real): iset<real> {
    iset t | IsScheduledTime(stepSize, stopTime, t)
  }

  lemma MultiplesApart(stepSize: real, j: nat, k: nat)
    requires stepSize > 0.0 && j < k
    ensures Multiple(k, stepSize) - Multiple(j, stepSize) >= stepSize
  {
    assert k as real - j as real >= 1.0;
    assert Multiple(k, stepSize) - Multiple(j, stepSize) == (k as real - j as real) * stepSize;
  }

  lemma ScheduledTimesApart(stepSize: real, stopTime: real, s: real, t: real)
    requires stepSize > 2.0 * TOLERANCE && s in ScheduledTimes(stepSize, stopTime) && t in ScheduledTimes(stepSize, stopTime)
    ensures s == stopTime || t == stopTime || s == t || s - t >= stepSize || t - s >= stepSize
  {
    if s != stopTime && t != stopTime {
      var j: nat :| s == Multiple(j, stepSize);
      var k: nat :| t == Multiple(k, stepSize);
      if j < k {
        MultiplesApart(stepSize, j, k);
      } else if k < j {
        MultiplesApart(stepSize, k, j);
      }
    }
  }

  /** The least multiple of a small step size beyond the tolerance is within twice the tolerance. */
  lemma MultipleBeyondTolerance(stepSize: real) returns (k: nat)
    requires 0.0 < stepSize <= 2.0 * TOLERANCE
    ensures TOLERANCE < Multiple(k, stepSize) <= 2.0 * TOLERANCE
  {
    var f := LargestMultiple(TOLERANCE, stepSize);
    k := f + 1;
    if f > 0 {
      MultiplesApart(stepSize, 0, f);
    }
  }

  /** The largest multiple of a step that does not exceed a limit. */
  function LargestMultiple(limit: real, stepSize: real): (f: nat)
    requires stepSize > 0.0 && limit >= 0.0
    ensures Multiple(f, stepSize) <= limit < Multiple(f + 1, stepSize)
    ensures Multiple(f + 1, stepSize) == Multiple(f, stepSize) + stepSize
  {
    var q := limit / stepSize;
    assert q * stepSize == limit && q >= 0.0;
    var f := q.Floor;
    ScaledLess(q, (f + 1) as real, stepSize);
    assert Multiple(f + 1, stepSize) == (f + 1) as real * stepSize;
    assert limit < Multiple(f + 1, stepSize);
    f
  }

  lemma ScaledLess(q: real, g: real, stepSize: real)
    requires q < g && stepSize > 0.0
    ensures q * stepSize < g * stepSize
  {
    assert (g - q) * stepSize > 0.0;
  }

  /** Main result: the calendar is ordered for every stop time exactly when the step size
      exceeds twice the tolerance. */
  lemma StepSizeForAllStopTimes(stepSize: real)
    requires stepSize > 0.0
    ensures (forall stopTime :: stopTime >= 0.0 ==> StrictWeakOrder(ScheduledTimes(stepSize, stopTime)))
       <==> stepSize > 2.0 * TOLERANCE
  {
    if stepSize > 2.0 * TOLERANCE {
      forall stopTime | stopTime >= 0.0 ensures StrictWeakOrder(ScheduledTimes(stepSize, stopTime)) {
        var times := ScheduledTimes(stepSize, stopTime);
        forall r, s, t | r in times && s in times && t in times && Near(r, s) && Near(s, t) ensures Near(r, t) {
          ScheduledTimesApart(stepSize, stopTime, r, s);
          ScheduledTimesApart(stepSize, stopTime, s, t);
          ScheduledTimesApart(stepSize, stopTime, r, t);
        }
        StrictWeakOrderIffClustered(times);
      }
    } else {
      var k := MultipleBeyondTolerance(stepSize);
      var times := ScheduledTimes(stepSize, TOLERANCE);
      assert Multiple(0, stepSize) == 0.0 && 0.0 in times && Multiple(k, stepSize) in times && TOLERANCE in times;
      assert Near(0.0, TOLERANCE) && Near(TOLERANCE, Multiple(k, stepSize)) && !Near(0.0, Multiple(k, stepSize));
      StrictWeakOrderIffClustered(times);
    }
  }

  // ---------------------------------------------------------------- the sorted multiset

  /** A new event goes before the first one it precedes, after all its equals. */
  function Inserted(events: seq<TimedEvent>, e: TimedEvent): (r: seq<TimedEvent>)
    ensures |r| == |events| + 1 && multiset(r) == multiset(events) + multiset{e}
  {
    if events == [] then [e]
    else if e.Before(events[0]) then [e] + events
    else
      assert events == [events[0]] + events[1..];
      [events[0]] + Inserted(events[1..], e)
  }

  /** No event precedes an earlier one. */
  ghost predicate Sorted(events: seq<TimedEvent>) {
    forall i, j :: 0 <= i < j < |events| ==> !events[j].Before(events[i])
  }

  ghost predicate TimesIn(times: iset<real>, events: seq<TimedEvent>) {
    forall i :: 0 <= i < |events| ==> events[i].time in times
  }

  /** Insertion keeps a calendar sorted wherever the comparison is a strict weak order. */
  lemma {:induction false} InsertedIsSorted(times: iset<real>, events: seq<TimedEvent>, e: TimedEvent)
    requires StrictWeakOrder(times) && TimesIn(times, events) && e.time in times && Sorted(events)
    ensures Sorted(Inserted(events, e)) && TimesIn(times, Inserted(events, e))
  {
    if events != [] {
      if e.Before(events[0]) {
        forall j | 0 <= j < |events| ensures !events[j].Before(e) {
          PrecedesAll(times, events, e, j);
        }
      } else {
        InsertedIsSorted(times, events[1..], e);
        InsertedElements(events[1..], e);
      }
    }
  }

  lemma PrecedesAll(times: iset<real>, events: seq<TimedEvent>, e: TimedEvent, j: nat)
    requires StrictWeakOrder(times) && TimesIn(times, events) && e.time in times && Sorted(events)
    requires j < |events| && e.Before(events[0])
    ensures !events[j].Before(e)
  {
    assert Ordered(times, events[j], e, events[0]);
    assert Ordered(times, e, events[0], e);
  }

  lemma {:induction false} InsertedElements(events: seq<TimedEvent>, e: TimedEvent)
    ensures forall j :: 0 <= j < |Inserted(events, e)| ==> Inserted(events, e)[j] == e || Inserted(events, e)[j] in events
  {
    forall j | 0 <= j < |Inserted(events, e)| ensures Inserted(events, e)[j] == e || Inserted(events, e)[j] in events {
      assert Inserted(events, e)[j] in multiset(Inserted(events, e));
    }
  }

  class EventCalendar {
    var timeNow: real
    var events: seq<TimedEvent>
    // The largest time the calendar can show
    const endOfTime: real

    constructor (endOfTime: real)
      ensures timeNow == 0.0 && events == [] && this.endOfTime == endOfTime
    {
      timeNow, events := 0.0, [];
      this.endOfTime := endOfTime;
    }

    method AdvanceTime() returns (elapsed: real)
      modifies this`timeNow
      ensures timeNow == (if events == [] then endOfTime else events[0].time)
      ensures elapsed == (if events == [] then 0.0 else timeNow - old(timeNow))
    {
      if events == [] {
        timeNow := endOfTime;
        elapsed := 0.0;
      } else {
        var prevTime := timeNow;
        timeNow := events[0].time;
        elapsed := timeNow - prevTime;
      }
    }

    method Cleanup()
      modifies this
      ensures events == [] && timeNow == 0.0
    {
      events, timeNow := [], 0.0;
    }

    method ScheduleEvent(eventTime: real, event: Event)
      requires eventTime > timeNow - TOLERANCE
      modifies this`events
      ensures events == Inserted(old(events), TimedEvent(eventTime, event))
    {
      events := Inserted(events, TimedEvent(eventTime, event));
    }

    method PopNextEvent() returns (event: Option<Event>)
      modifies this`events
      ensures event == if old(events) == [] then None else Some(old(events)[0].event)
      ensures events == if old(events) == [] then [] else old(events)[1..]
    {
      event := None;
      if events != [] {
        event := Some(events[0].event);
        events := events[1..];
      }
    }

    predicate HasPresentEvent()
      reads this
    {
      events != [] && events[0].DueBy(timeNow)
    }
  }
}
