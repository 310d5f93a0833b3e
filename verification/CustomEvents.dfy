/** Custom events: sent by anyone, committed after certain simulation events, and received by
    the scenario executor, which sees two queues for every event name. */
module CustomEvents {
  import opened EventCalendars
  import opened SimulationSchedule

  datatype CustomEvent = CustomEvent(name: string, body: string)

  /** The events one commit brings in. */
  type Batch = multiset<CustomEvent>

  datatype Sender = Supervisor | Actors

  datatype Queue = Queue(fromSupervisor: Batch, fromActors: Batch) {
    function Cleared(sender: Sender): Queue {
      if sender.Supervisor? then this.(fromSupervisor := multiset{}) else this.(fromActors := multiset{})
    }

    function Added(sender: Sender, batch: Batch): Queue {
      if sender.Supervisor? then this.(fromSupervisor := fromSupervisor + batch) else this.(fromActors := fromActors + batch)
    }
  }

  // ---------------------------------------------------------------- one event name

  /** What is stored for one name: the uncommitted events, both queues, and who committed last. */
  datatype Channel = Channel(pending: Batch, queue: Queue, lastSender: Sender) {
    function Committed(sender: Sender): Channel {
      Channel(multiset{}, queue.Cleared(sender).Added(sender, pending), sender)
    }

    /** The queue of the one who did not commit last comes first. */
    function Received(): seq<Batch> {
      if lastSender.Supervisor? then [queue.fromActors, queue.fromSupervisor] else [queue.fromSupervisor, queue.fromActors]
    }
  }

  /** The executor receives, then the supervisor's commit and the actors' commit follow: the start
      event and every update event receive and commit for the supervisor, every step event
      commits for the actors. */
  datatype Turn = ToReceive | ToCommitSupervisor | ToCommitActors

  /** A channel with its history. */
  datatype Trail = Trail(channel: Channel, turn: Turn, sent: Batch, committed: seq<Batch>, received: seq<Batch>) {
    function Send(batch: Batch): Trail {
      this.(channel := channel.(pending := channel.pending + batch), sent := sent + batch)
    }

    function Tick(): Trail {
      match turn
      case ToReceive => Receive().(turn := ToCommitSupervisor)
      case ToCommitSupervisor => Commit(Supervisor).(turn := ToCommitActors)
      case ToCommitActors => Commit(Actors).(turn := ToReceive)
    }

    function Receive(): Trail {
      this.(received := received + channel.Received())
    }

    function Commit(sender: Sender): Trail {
      this.(channel := channel.Committed(sender), committed := committed + [channel.pending])
    }

    /** All commits, the empty queues of the beginning first. */
    function Log(): seq<Batch> {
      [multiset{}, multiset{}] + committed
    }

    function Last(k: nat): Batch
      requires 1 <= k <= 2
    {
      Log()[|Log()| - k]
    }

    /** What was received is the log without the batches still waiting in the queues, in order. */
    ghost predicate InOrder() {
      match turn
      case ToReceive => received == Log()[..|Log()| - 2] && channel.Received() == [Last(2), Last(1)]
                        && channel.queue == Queue(Last(2), Last(1))
      case ToCommitSupervisor => received == Log()
      case ToCommitActors => received == Log()[..|Log()| - 1] && channel.queue.fromSupervisor == Last(1)
    }

    ghost predicate Good() {
      InOrder() && sent == Sum(Log()) + channel.pending
    }
  }

  function Sum(batches: seq<Batch>): Batch {
    if batches == [] then multiset{} else Sum(batches[..|batches| - 1]) + batches[|batches| - 1]
  }

  datatype Move = Send(batch: Batch) | Tick

  function Run(t: Trail, moves: seq<Move>): Trail {
    if moves == [] then t
    else Next(Run(t, moves[..|moves| - 1]), moves[|moves| - 1])
  }

  function Next(t: Trail, move: Move): Trail {
    if move.Send? then t.Send(move.batch) else t.Tick()
  }

  function Fresh(): Trail {
    Trail(Channel(multiset{}, Queue(multiset{}, multiset{}), Supervisor), ToReceive, multiset{}, [], [])
  }

  lemma SumOneMore(batches: seq<Batch>, batch: Batch)
    ensures Sum(batches + [batch]) == Sum(batches) + batch
  {
    assert (batches + [batch])[..|batches|] == batches;
  }

  lemma {:induction false} SumOfPrefix(a: seq<Batch>, b: seq<Batch>)
    requires a <= b
    ensures Sum(a) <= Sum(b)
    decreases |b|
  {
    if |a| < |b| {
      SumOfPrefix(a, b[..|b| - 1]);
    } else {
      assert a == b;
    }
  }

  /** A commit adds the uncommitted events to the log, and replaces the queue of its sender. */
  lemma CommitLogs(t: Trail, sender: Sender)
    ensures var t' := t.Commit(sender);
            && t'.Log() == t.Log() + [t.channel.pending] && t'.received == t.received
            && Sum(t'.Log()) + t'.channel.pending == Sum(t.Log()) + t.channel.pending
            && t'.channel.queue == (if sender.Supervisor? then t.channel.queue.(fromSupervisor := t.channel.pending)
                                    else t.channel.queue.(fromActors := t.channel.pending))
            && t'.channel.lastSender == sender
  {
    assert t.Commit(sender).Log() == t.Log() + [t.channel.pending];
    SumOneMore(t.Log(), t.channel.pending);
    assert multiset{} + t.channel.pending == t.channel.pending;
  }

  lemma TickIsGood(t: Trail)
    requires t.Good()
    ensures t.Tick().Good()
  {
    match t.turn {
      case ToReceive =>
        assert t.Log()[..|t.Log()| - 2] + [t.Last(2), t.Last(1)] == t.Log();
      case ToCommitSupervisor =>
        CommitLogs(t, Supervisor);
      case ToCommitActors =>
        CommitLogs(t, Actors);
    }
  }

  lemma NextIsGood(t: Trail, move: Move)
    requires t.Good()
    ensures Next(t, move).Good()
  {
    if move.Tick? {
      TickIsGood(t);
    }
  }

  /** Main result: at any time everything sent was received, waits in a queue or is uncommitted,
      nothing twice; and batches are received in the order of their commits. */
  lemma {:induction false} EveryRunIsGood(moves: seq<Move>)
    ensures Run(Fresh(), moves).Good()
    decreases |moves|
  {
    if moves == [] {
      var empty: Batch := multiset{};
      assert Fresh().Log() == ([] + [empty]) + [empty];
      SumOneMore([], empty);
      SumOneMore([] + [empty], empty);
    } else {
      EveryRunIsGood(moves[..|moves| - 1]);
      NextIsGood(Run(Fresh(), moves[..|moves| - 1]), moves[|moves| - 1]);
    }
  }

  /** Nothing is received that was not sent, and received batches never exceed the commits. */
  lemma ReceivedOnlyOnce(t: Trail)
    requires t.Good()
    ensures t.received <= t.Log() && |t.Log()| <= |t.received| + 2
    ensures Sum(t.received) <= t.sent
  {
    SumOfPrefix(t.received, t.Log());
  }

  /** What was uncommitted is in the next batch, or still uncommitted. */
  lemma {:induction false} PendingIsCommitted(t: Trail, moves: seq<Move>)
    ensures var t', c := Run(t, moves), |t.Log()|;
            && t.Log() <= t'.Log()
            && t.channel.pending <= if |t'.Log()| == c then t'.channel.pending else t'.Log()[c]
    decreases |moves|
  {
    if moves != [] {
      PendingIsCommitted(t, moves[..|moves| - 1]);
    }
  }

  lemma {:induction false} RunContinues(moves: seq<Move>, more: seq<Move>)
    ensures Run(Fresh(), moves + more) == Run(Run(Fresh(), moves), more)
    decreases |more|
  {
    if more == [] {
      assert moves + more == moves;
    } else {
      assert (moves + more)[..|moves + more| - 1] == moves + more[..|more| - 1];
      RunContinues(moves, more[..|more| - 1]);
    }
  }

  /** Main result: whatever was sent is received by the second of the next two receiving events. */
  lemma ReceivedWithinTwoUpdates(moves: seq<Move>, more: seq<Move>)
    ensures var t, t' := Run(Fresh(), moves), Run(Fresh(), moves + more);
            |t'.received| >= |t.received| + 4 ==> t.sent <= Sum(t'.received)
  {
    var t, t' := Run(Fresh(), moves), Run(Fresh(), moves + more);
    EveryRunIsGood(moves);
    EveryRunIsGood(moves + more);
    RunContinues(moves, more);
    PendingIsCommitted(t, more);
    if |t'.received| >= |t.received| + 4 {
      ReceivedOnlyOnce(t);
      ReceivedOnlyOnce(t');
      ReceivedBeyond(t, t');
    }
  }

  lemma ReceivedBeyond(t: Trail, t': Trail)
    requires t.sent == Sum(t.Log()) + t.channel.pending && t.Log() <= t'.Log() && t'.received <= t'.Log()
    requires |t'.received| > |t.Log()| && t.channel.pending <= t'.Log()[|t.Log()|]
    ensures t.sent <= Sum(t'.received)
  {
    var next := t'.Log()[|t.Log()|];
    assert t.Log() + [next] <= t'.received;
    SumOneMore(t.Log(), next);
    SumOfPrefix(t.Log() + [next], t'.received);
  }

  /** Whoever receives, and whenever: the queues hold the latest commit of either sender, and the latest of all comes last. */
  lemma OlderFirst(ch: Channel, first: Sender, second: Sender, batch: Batch)
    ensures var c1 := ch.Committed(first); var c2 := c1.(pending := batch).Committed(second);
            && c2.Received()[1] == batch && c2.pending == multiset{}
            && c2.Received()[0] == if first != second then ch.pending else ch.Received()[if ch.lastSender == first then 0 else 1]
    ensures |ch.Received()| == 2 && ch.Received() == [ch.Received()[0], ch.Received()[1]]
  {
    assert multiset{} + ch.pending == ch.pending && multiset{} + batch == batch;
  }

  // ---------------------------------------------------------------- what the simulation events trigger

  /** The start event and update events reach the scenario executor and then commit for the
      supervisor; step events commit for the actors. */
  function Handle(t: Trail, event: Event): Trail {
    match event
    case SimulationStart => t.Receive().Commit(Supervisor)
    case SimulationStep(_, _) => t.Commit(Actors)
    case ScenarioUpdate => t.Receive().Commit(Supervisor)
    case SimulationPostStep => t
    case SimulationStop(_, _, _) => t
  }

  function TurnBefore(n: nat): Turn {
    if n == 0 || n % 3 == 2 then ToReceive else ToCommitActors
  }

  /** Under the schedule of a simulation the turns come round in their order. */
  lemma ScheduleTakesTurns(c: Settings, n: nat, t: Trail)
    requires t.turn == TurnBefore(n)
    ensures Handle(t, NthEvent(c, n).event).(turn := TurnBefore(n + 1))
         == if n == 0 || n % 3 == 2 then t.Tick().Tick() else if n % 3 == 1 then t.Tick() else t
  {
  }

  // ---------------------------------------------------------------- all names

  /** The events a scenario defines, and which events fit their definition. */
  datatype Definitions = Definitions(names: set<string>, fits: CustomEvent -> bool)

  datatype Incoming = UserDefined(event: CustomEvent) | OtherEvent

  datatype Delivery = Delivery(name: string, batch: Batch)

  /** The accepted events of a request: those that are defined and fit, up to the first that is
      not user-defined at all. */
  function Accepted(defs: Definitions, events: seq<Incoming>): seq<CustomEvent> {
    if events == [] || events[0].OtherEvent? then []
    else
      var event := events[0].event;
      (if event.name in defs.names && defs.fits(event) then [event] else []) + Accepted(defs, events[1..])
  }

  function OfName(events: seq<CustomEvent>, n: string): Batch {
    if events == [] then multiset{}
    else (if events[0].name == n then multiset{events[0]} else multiset{}) + OfName(events[1..], n)
  }

  lemma AcceptedStep(defs: Definitions, events: seq<Incoming>, i: nat, sofar: seq<CustomEvent>)
    requires i < |events| && Accepted(defs, events) == sofar + Accepted(defs, events[i..])
    ensures Accepted(defs, events)
         == if events[i].OtherEvent? then sofar
            else if events[i].event.name in defs.names && defs.fits(events[i].event)
            then (sofar + [events[i].event]) + Accepted(defs, events[i + 1..])
            else sofar + Accepted(defs, events[i + 1..])
  {
    var rest := Accepted(defs, events[i + 1..]);
    assert events[i..][0] == events[i] && events[i..][1..] == events[i + 1..];
    if events[i].OtherEvent? {
      assert Accepted(defs, events[i..]) == [];
    } else if events[i].event.name in defs.names && defs.fits(events[i].event) {
      assert Accepted(defs, events[i..]) == [events[i].event] + rest;
      assert sofar + ([events[i].event] + rest) == (sofar + [events[i].event]) + rest;
    } else {
      assert Accepted(defs, events[i..]) == [] + rest;
      assert [] + rest == rest;
    }
  }

  lemma {:induction false} OfNameOneMore(events: seq<CustomEvent>, event: CustomEvent, n: string)
    ensures OfName(events + [event], n) == OfName(events, n) + if n == event.name then multiset{event} else multiset{}
    decreases |events|
  {
    if events != [] {
      assert (events + [event])[1..] == events[1..] + [event];
      OfNameOneMore(events[1..], event, n);
    }
  }

  lemma OfNamesOneMore(events: seq<CustomEvent>, event: CustomEvent)
    ensures forall n :: OfName(events + [event], n) == OfName(events, n) + if n == event.name then multiset{event} else multiset{}
  {
    forall n ensures OfName(events + [event], n) == OfName(events, n) + if n == event.name then multiset{event} else multiset{} {
      OfNameOneMore(events, event, n);
    }
  }

  /** The deliveries for one name, in their order. */
  function For(deliveries: seq<Delivery>, n: string): seq<Batch> {
    if deliveries == [] then []
    else (if deliveries[0].name == n then [deliveries[0].batch] else []) + For(deliveries[1..], n)
  }

  lemma Associative<T>(a: seq<T>, b: seq<T>, c: seq<T>)
    ensures a + (b + c) == (a + b) + c
  {
  }

  lemma {:induction false} ForConcat(a: seq<Delivery>, b: seq<Delivery>, n: string)
    ensures For(a + b, n) == For(a, n) + For(b, n)
    decreases |a|
  {
    if a == [] {
      assert a + b == b;
    } else {
      var head := if a[0].name == n then [a[0].batch] else [];
      assert (a + b)[0] == a[0] && (a + b)[1..] == a[1..] + b;
      ForConcat(a[1..], b, n);
      Associative(head, For(a[1..], n), For(b, n));
    }
  }

  lemma ForPair(n: string, q: seq<Batch>, m: string)
    requires |q| == 2
    ensures For([Delivery(n, q[0]), Delivery(n, q[1])], m) == if m == n then q else []
  {
    assert [Delivery(n, q[0]), Delivery(n, q[1])][1..] == [Delivery(n, q[1])];
    assert For([Delivery(n, q[1])], m) == if m == n then [q[1]] else [];
  }

  class CustomEventBroker {
    const definitions: Definitions
    var uncommitted: map<string, Batch>
    var queues: map<string, Queue>
    var lastSender: Sender

    ghost predicate Valid()
      reads this
    {
      queues.Keys == definitions.names && uncommitted.Keys <= queues.Keys
    }

    ghost function ChannelOf(n: string): Channel
      reads this
    {
      Channel(if n in uncommitted then uncommitted[n] else multiset{},
              if n in queues then queues[n] else Queue(multiset{}, multiset{}),
              lastSender)
    }

    constructor (definitions: Definitions)
      ensures Valid() && this.definitions == definitions
      ensures forall n :: ChannelOf(n) == Fresh().channel
    {
      this.definitions := definitions;
      uncommitted := map[];
      queues := map n | n in definitions.names :: Queue(multiset{}, multiset{});
      lastSender := Supervisor;
    }

    /** Stores the acceptable events of a request; an event of another type ends it at once. */
    method SendEvents(events: seq<Incoming>) returns (ok: bool)
      requires Valid()
      modifies this`uncommitted
      ensures Valid()
      ensures forall n :: ChannelOf(n) == old(ChannelOf(n)).(pending := old(ChannelOf(n)).pending + OfName(Accepted(definitions, events), n))
      ensures ok <==> |Accepted(definitions, events)| == |events|
    {
      ok := true;
      ghost var accepted: seq<CustomEvent> := [];
      for i := 0 to |events|
        invariant Valid()
        invariant Accepted(definitions, events) == accepted + Accepted(definitions, events[i..])
        invariant forall n :: ChannelOf(n) == old(ChannelOf(n)).(pending := old(ChannelOf(n)).pending + OfName(accepted, n))
        invariant |accepted| <= i && (ok <==> |accepted| == i)
      {
        AcceptedStep(definitions, events, i, accepted);
        if events[i].OtherEvent? {
          return false;
        }
        var event := events[i].event;
        if event.name in definitions.names && definitions.fits(event) {
          OfNamesOneMore(accepted, event);
          Store(event);
          accepted := accepted + [event];
        } else {
          ok := false;
        }
      }
      assert Accepted(definitions, events) == accepted;
    }

    method Store(event: CustomEvent)
      requires Valid() && event.name in definitions.names
      modifies this`uncommitted
      ensures Valid()
      ensures forall n :: ChannelOf(n) == old(ChannelOf(n)).(pending := old(ChannelOf(n)).pending + if n == event.name then multiset{event} else multiset{})
    {
      var before := if event.name in uncommitted then uncommitted[event.name] else multiset{};
      uncommitted := uncommitted[event.name := before + multiset{event}];
    }

    /** Replaces the queues of one sender by the uncommitted events. */
    method CommitEventUpdates(sender: Sender)
      requires Valid()
      modifies this
      ensures Valid()
      ensures forall n :: ChannelOf(n) == old(ChannelOf(n)).Committed(sender)
    {
      lastSender := sender;
      ClearQueues(sender);
      FillQueues(sender);
      uncommitted := map[];
    }

    method ClearQueues(sender: Sender)
      requires Valid()
      modifies this`queues
      ensures queues.Keys == old(queues.Keys) && forall n :: n in queues ==> queues[n] == old(queues)[n].Cleared(sender)
    {
      var todo := queues.Keys;
      while todo != {}
        invariant todo <= queues.Keys == old(queues.Keys)
        invariant forall n :: n in queues ==> queues[n] == if n in todo then old(queues)[n] else old(queues)[n].Cleared(sender)
        decreases todo
      {
        var n :| n in todo;
        queues := queues[n := queues[n].Cleared(sender)];
        todo := todo - {n};
      }
    }

    method FillQueues(sender: Sender)
      requires Valid()
      modifies this`queues
      ensures queues.Keys == old(queues.Keys)
      ensures forall n :: n in queues ==> queues[n] == if n in uncommitted then old(queues)[n].Added(sender, uncommitted[n]) else old(queues)[n]
    {
      var todo := uncommitted.Keys;
      while todo != {}
        invariant todo <= uncommitted.Keys && queues.Keys == old(queues.Keys)
        invariant forall n :: n in queues ==>
                    queues[n] == if n in uncommitted && n !in todo then old(queues)[n].Added(sender, uncommitted[n]) else old(queues)[n]
        decreases todo
      {
        var n :| n in todo;
        queues := queues[n := queues[n].Added(sender, uncommitted[n])];
        todo := todo - {n};
      }
    }

    /** The queues of one name, the older commit first. */
    method ProcessQueue(n: string) returns (r: seq<Delivery>)
      requires n in queues
      ensures r == [Delivery(n, ChannelOf(n).Received()[0]), Delivery(n, ChannelOf(n).Received()[1])]
    {
      var q := queues[n];
      if lastSender.Supervisor? {
        r := [Delivery(n, q.fromActors), Delivery(n, q.fromSupervisor)];
      } else {
        r := [Delivery(n, q.fromSupervisor), Delivery(n, q.fromActors)];
      }
    }

    /** Without names, returns the queues of every name once, in any order of the names. */
    method ReceiveAllEvents() returns (r: seq<Delivery>)
      requires Valid()
      ensures forall n :: For(r, n) == if n in definitions.names then ChannelOf(n).Received() else []
    {
      r := [];
      var todo := queues.Keys;
      while todo != {}
        invariant todo <= queues.Keys
        invariant forall n :: For(r, n) == if n in queues && n !in todo then ChannelOf(n).Received() else []
        decreases todo
      {
        var n :| n in todo;
        var more := ProcessQueue(n);
        forall m ensures For(r + more, m) == For(r, m) + if m == n then ChannelOf(n).Received() else [] {
          ForConcat(r, more, m);
          ForPair(n, ChannelOf(n).Received(), m);
        }
        r := r + more;
        todo := todo - {n};
      }
    }

    /** Both queues of each of the first `n` names, in the order of the names. */
    ghost predicate Answers(names: seq<string>, n: nat, r: seq<Delivery>)
      requires n <= |names|
      reads this
    {
      && |r| == 2 * n
      && forall i :: 0 <= i < n ==>
           && r[2 * i] == Delivery(names[i], ChannelOf(names[i]).Received()[0])
           && r[2 * i + 1] == Delivery(names[i], ChannelOf(names[i]).Received()[1])
    }

    lemma AnswersOneMore(names: seq<string>, n: nat, r: seq<Delivery>, more: seq<Delivery>)
      requires n < |names| && |more| == 2
      requires more == [Delivery(names[n], ChannelOf(names[n]).Received()[0]), Delivery(names[n], ChannelOf(names[n]).Received()[1])]
      ensures Answers(names, n, r) ==> Answers(names, n + 1, r + more)
    {
    }

    /** With names, returns their queues in the order of the request, and reports unknown names. */
    method ReceiveEvents(names: seq<string>) returns (r: seq<Delivery>, ok: bool)
      requires Valid() && names != []
      ensures ok <==> forall i :: 0 <= i < |names| ==> names[i] in definitions.names
      ensures r == Requested(names)
      ensures ok ==> Answers(names, |names|, r)
    {
      r, ok := [], true;
      for i := 0 to |names|
        invariant ok <==> forall j :: 0 <= j < i ==> names[j] in definitions.names
        invariant r + Requested(names[i..]) == Requested(names)
        invariant ok ==> Answers(names, i, r)
      {
        assert names[i..][0] == names[i] && names[i..][1..] == names[i + 1..];
        var more := [];
        if names[i] in queues {
          more := ProcessQueue(names[i]);
          AnswersOneMore(names, i, r, more);
        } else {
          ok := false;
        }
        assert Requested(names[i..]) == more + Requested(names[i + 1..]);
        Associative(r, more, Requested(names[i + 1..]));
        r := r + more;
      }
    }

    ghost function Requested(names: seq<string>): seq<Delivery>
      reads this
    {
      if names == [] then []
      else
        var q := ChannelOf(names[0]).Received();
        (if names[0] in queues then [Delivery(names[0], q[0]), Delivery(names[0], q[1])] else []) + Requested(names[1..])
    }
  }
}
