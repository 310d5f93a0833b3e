/** The diagnostic log, and its queries by client, type and time. */
module DiagnosticLogs {
  import opened Wrappers
  import opened LogIndices

  datatype DiagnosticType = UnknownType | KnownType(code: nat)

  datatype Diagnostic = Diagnostic(client: string, kind: DiagnosticType, time: real)

  /** A query; the empty client and the unknown type ask for everything. */
  datatype Query = Query(client: string, kind: DiagnosticType, start: Option<real>, end: Option<real>)

  function OfClient(client: string): Diagnostic -> bool {
    (m: Diagnostic) => m.client == client
  }

  function OfKind(kind: DiagnosticType): Diagnostic -> bool {
    (m: Diagnostic) => m.kind == kind
  }

  function Bound(t: Option<real>): real {
    if t.Some? then t.value else -1.0
  }

  // ---------------------------------------------------------------- what a query returns

  /** A scan of the log that keeps some messages in their order. */
  function Kept(log: seq<Diagnostic>, keep: Diagnostic -> bool): seq<Diagnostic> {
    if log == [] then []
    else Kept(log[..|log| - 1], keep) + if keep(log[|log| - 1]) then [log[|log| - 1]] else []
  }

  /** The messages at these positions. */
  ghost predicate At(log: seq<Diagnostic>, positions: seq<nat>, r: seq<Diagnostic>) {
    |r| == |positions| && forall j :: 0 <= j < |positions| ==> positions[j] < |log| && r[j] == log[positions[j]]
  }

  lemma AtOneMore(log: seq<Diagnostic>, m: Diagnostic, positions: seq<nat>, r: seq<Diagnostic>)
    requires At(log, positions, r)
    ensures At(log + [m], positions, r) && At(log + [m], positions + [|log|], r + [m])
  {
  }

  /** A scan returns the messages at exactly the positions it keeps, in ascending order. */
  lemma {:induction false} KeptMeaning(log: seq<Diagnostic>, keep: Diagnostic -> bool) returns (positions: seq<nat>)
    ensures Lists(positions, log, 0, keep) && At(log, positions, Kept(log, keep))
    decreases |log|
  {
    positions := [];
    if log != [] {
      var before, m := log[..|log| - 1], log[|log| - 1];
      positions := KeptMeaning(before, keep);
      assert log == before + [m];
      PushedLists(positions, before, m, 0, keep);
      AtOneMore(before, m, positions, Kept(before, keep));
      if keep(m) {
        positions := positions + [|before|];
      } else {
        assert Kept(before, keep) + [] == Kept(before, keep);
      }
    }
  }

  predicate KeepsKeys(q: Query, m: Diagnostic) {
    (q.client == "" || m.client == q.client) && (q.kind.UnknownType? || m.kind == q.kind)
  }

  /** Times are filtered when some bound is not negative; then no missing or negative bound is met. */
  predicate Keeps(q: Query, m: Diagnostic) {
    var start, end := Bound(q.start), Bound(q.end);
    KeepsKeys(q, m) && (start >= 0.0 || end >= 0.0 ==> 0.0 <= start <= m.time <= end)
  }

  /** What a query asks for: messages between the bounds that are given. */
  predicate Asks(q: Query, m: Diagnostic) {
    && KeepsKeys(q, m)
    && (q.start.Some? ==> q.start.value <= m.time)
    && (q.end.Some? ==> m.time <= q.end.value)
  }

  /** Both bounds are given and the first is not negative, or the end is open and the start does not
      constrain. */
  predicate BoundsServed(q: Query) {
    if q.end.Some? then q.start.Some? && q.start.value >= 0.0 else q.start.None? || q.start.value < 0.0
  }

  ghost predicate LogOK(log: seq<Diagnostic>) {
    && (forall i :: 0 <= i < |log| ==> log[i].time >= 0.0)
    && (forall i, j :: 0 <= i <= j < |log| ==> log[i].time <= log[j].time)
  }

  lemma {:induction false} KeptAgrees(log: seq<Diagnostic>, f: Diagnostic -> bool, g: Diagnostic -> bool)
    requires forall i :: 0 <= i < |log| ==> f(log[i]) == g(log[i])
    ensures Kept(log, f) == Kept(log, g)
    decreases |log|
  {
    if log != [] {
      KeptAgrees(log[..|log| - 1], f, g);
    }
  }

  /** Main result: on every log a query returns what it asks for exactly when its bounds are served. */
  lemma QueryIsServedExactly(q: Query)
    ensures (forall log :: LogOK(log) ==> Kept(log, m => Keeps(q, m)) == Kept(log, m => Asks(q, m))) <==> BoundsServed(q)
  {
    if BoundsServed(q) {
      forall log | LogOK(log) ensures Kept(log, m => Keeps(q, m)) == Kept(log, m => Asks(q, m)) {
        KeptAgrees(log, m => Keeps(q, m), m => Asks(q, m));
      }
    } else {
      var t := if q.end.Some? && q.end.value >= 0.0 then q.end.value else if q.start.Some? && q.start.value >= 0.0 then q.start.value else 0.0;
      var m := Diagnostic(q.client, q.kind, t);
      assert LogOK([m]) && [m][..0] == [];
      assert Keeps(q, m) != Asks(q, m);
      assert Kept([m], x => Keeps(q, x)) != Kept([m], x => Asks(q, x));
    }
  }

  // ---------------------------------------------------------------- the logger

  class DiagnosticMessageLogger {
    var log: seq<Diagnostic>
    var clientIndex: map<string, seq<nat>>
    var kindIndex: map<DiagnosticType, seq<nat>>
    var timeIndex: TimeIndex

    function ByClient(client: string): seq<nat>
      reads this
    {
      if client in clientIndex then clientIndex[client] else []
    }

    function ByKind(kind: DiagnosticType): seq<nat>
      reads this
    {
      if kind in kindIndex then kindIndex[kind] else []
    }

    ghost predicate Valid()
      reads this
    {
      && (forall client :: Lists(ByClient(client), log, 0, OfClient(client)))
      && (forall kind :: Lists(ByKind(kind), log, 0, OfKind(kind)))
      && |timeIndex| == |log| && forall i :: 0 <= i < |log| ==> timeIndex[i] == (log[i].time, i)
    }

    constructor ()
      ensures Valid() && log == []
    {
      log, clientIndex, kindIndex, timeIndex := [], map[], map[], [];
    }

    method ClearMessages()
      modifies this
      ensures Valid() && log == []
    {
      log, clientIndex, kindIndex, timeIndex := [], map[], map[], [];
    }

    /** Adds messages, stamped with the current time. */
    method AddDiagnosticMessages(messages: seq<Diagnostic>)
      requires Valid()
      modifies this
      ensures Valid() && log == old(log) + messages
    {
      for i := 0 to |messages|
        invariant Valid() && log == old(log) + messages[..i]
      {
        AddDiagnosticMessage(messages[i]);
      }
    }

    method AddDiagnosticMessage(message: Diagnostic)
      requires Valid()
      modifies this
      ensures Valid() && log == old(log) + [message]
    {
      forall client ensures Lists(if client == message.client then ByClient(client) + [|log|] else ByClient(client),
                                  log + [message], 0, OfClient(client)) {
        PushedLists(ByClient(client), log, message, 0, OfClient(client));
      }
      forall kind ensures Lists(if kind == message.kind then ByKind(kind) + [|log|] else ByKind(kind),
                                log + [message], 0, OfKind(kind)) {
        PushedLists(ByKind(kind), log, message, 0, OfKind(kind));
      }
      clientIndex := clientIndex[message.client := ByClient(message.client) + [|log|]];
      kindIndex := kindIndex[message.kind := ByKind(message.kind) + [|log|]];
      timeIndex := timeIndex + [(message.time, |log|)];
      log := log + [message];
    }

    /** The positions in the time range of a query. */
    method InTimeRange(start: real, end: real) returns (r: set<nat>)
      requires Valid() && Nondecreasing(timeIndex)
      ensures forall i: nat :: i in r <==> i < |log| && 0.0 <= start <= log[i].time <= end
    {
      var first, last := GetIndicesForTime(start, end, timeIndex, 0);
      r := {};
      var i := first;
      while i < last
        invariant first <= i <= last
        invariant forall j: nat :: j in r <==> first <= j < i
      {
        r := r + {i as nat};
        i := i + 1;
      }
    }

    /** Returns exactly the messages that a scan of the log with all filters keeps, in its order. */
    method RetrieveMessages(q: Query) returns (r: seq<Diagnostic>)
      requires Valid() && Nondecreasing(timeIndex)
      ensures r == Kept(log, m => Keeps(q, m))
    {
      var all, indices := Select(q);
      r := [];
      for i := 0 to |log|
        invariant r == Kept(log[..i], m => Keeps(q, m))
      {
        assert log[..i + 1][..i] == log[..i];
        if all || i in indices {
          r := r + [log[i]];
        }
      }
      assert log[..|log|] == log;
    }

    /** The positions a query selects, or `all` if it has no filter. */
    method Select(q: Query) returns (all: bool, indices: set<nat>)
      requires Valid() && Nondecreasing(timeIndex)
      ensures forall i: nat :: i < |log| ==> (all || i in indices <==> Keeps(q, log[i]))
    {
      var start, end := Bound(q.start), Bound(q.end);
      all, indices := true, {};
      if start >= 0.0 || end >= 0.0 {
        indices := InTimeRange(start, end);
        all := false;
      }
      if q.client != "" {
        var ofClient := set i | i in ByClient(q.client);
        assert forall i: nat :: i in ofClient <==> Retained(log, 0, OfClient(q.client), i);
        indices := if all then ofClient else ofClient * indices;
        all := false;
      }
      if !q.kind.UnknownType? {
        var ofKind := set i | i in ByKind(q.kind);
        assert forall i: nat :: i in ofKind <==> Retained(log, 0, OfKind(q.kind), i);
        indices := if all then ofKind else ofKind * indices;
        all := false;
      }
    }
  }
}
