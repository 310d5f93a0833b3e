/** The communication log: bounded, with an index for every kind of key. */
module MessageLogs {
  import opened LogIndices

  datatype Communication =
    | RpcCall(client: string, service: string, time: real)
    | PublishedMessage(messageType: string, time: real)

  type Index = map<string, seq<nat>>

  function OfClient(client: string): Communication -> bool {
    (m: Communication) => m.RpcCall? && m.client == client
  }

  function OfService(service: string): Communication -> bool {
    (m: Communication) => m.RpcCall? && m.service == service
  }

  function OfType(messageType: string): Communication -> bool {
    (m: Communication) => m.PublishedMessage? && m.messageType == messageType
  }

  function IsPublished(): Communication -> bool {
    (m: Communication) => m.PublishedMessage?
  }

  /** The time stamps of a log, with the positions. */
  function Times(log: seq<Communication>, popped: nat): TimeIndex {
    seq(|log|, i requires 0 <= i < |log| => (log[i].time, popped + i))
  }

  function Lookup(index: Index, key: string): seq<nat> {
    if key in index then index[key] else []
  }

  /** Every key leads to exactly the retained positions with that key. */
  ghost predicate Indexes(index: Index, log: seq<Communication>, popped: nat, matches: string -> Communication -> bool) {
    forall key :: Lists(Lookup(index, key), log, popped, matches(key))
  }

  /** All indices of a log. */
  datatype Indices = Indices(clients: Index, services: Index, types: Index, published: seq<nat>, times: TimeIndex) {
    /** They list exactly the positions of these messages. */
    ghost predicate Cover(log: seq<Communication>, popped: nat) {
      && Indexes(clients, log, popped, OfClient)
      && Indexes(services, log, popped, OfService)
      && Indexes(types, log, popped, OfType)
      && Lists(published, log, popped, IsPublished())
      && times == Times(log, popped)
    }

    function Enter(message: Communication, position: nat): Indices {
      match message
      case RpcCall(client, service, time) =>
        this.(clients := Entered(clients, client, position), services := Entered(services, service, position),
              times := times + [(time, position)])
      case PublishedMessage(messageType, time) =>
        this.(types := Entered(types, messageType, position), published := published + [position], times := times + [(time, position)])
    }

    function Cull(popped: nat): Indices
      requires times != []
    {
      Indices(Culled(clients, popped), Culled(services, popped), Culled(types, popped), WithoutStale(published, popped), times[1..])
    }
  }

  function Entered(index: Index, key: string, position: nat): Index {
    index[key := Lookup(index, key) + [position]]
  }

  function Culled(index: Index, popped: nat): Index {
    map key | key in index :: WithoutStale(index[key], popped)
  }

  lemma CulledIndexes(index: Index, log: seq<Communication>, popped: nat, matches: string -> Communication -> bool)
    requires log != [] && Indexes(index, log, popped, matches)
    ensures Indexes(Culled(index, popped + 1), log[1..], popped + 1, matches)
  {
    forall key ensures Lists(Lookup(Culled(index, popped + 1), key), log[1..], popped + 1, matches(key)) {
      PoppedLists(Lookup(index, key), log, popped, matches(key));
    }
  }

  lemma EnteredIndexes(index: Index, log: seq<Communication>, popped: nat, matches: string -> Communication -> bool,
                       message: Communication, key: string)
    requires Indexes(index, log, popped, matches) && forall k :: matches(k)(message) <==> k == key
    ensures Indexes(Entered(index, key, popped + |log|), log + [message], popped, matches)
  {
    forall k ensures Lists(Lookup(Entered(index, key, popped + |log|), k), log + [message], popped, matches(k)) {
      PushedLists(Lookup(index, k), log, message, popped, matches(k));
    }
  }

  lemma UnenteredIndexes(index: Index, log: seq<Communication>, popped: nat, matches: string -> Communication -> bool,
                         message: Communication)
    requires Indexes(index, log, popped, matches) && forall k :: !matches(k)(message)
    ensures Indexes(index, log + [message], popped, matches)
  {
    forall k ensures Lists(Lookup(index, k), log + [message], popped, matches(k)) {
      PushedLists(Lookup(index, k), log, message, popped, matches(k));
    }
  }

  /** Main result: entering a pushed message keeps the indices exact. */
  lemma EnterCovers(indices: Indices, log: seq<Communication>, popped: nat, message: Communication)
    requires indices.Cover(log, popped)
    ensures indices.Enter(message, popped + |log|).Cover(log + [message], popped)
  {
    assert Times(log + [message], popped) == Times(log, popped) + [(message.time, popped + |log|)];
    PushedLists(indices.published, log, message, popped, IsPublished());
    if message.RpcCall? {
      EnteredIndexes(indices.clients, log, popped, OfClient, message, message.client);
      EnteredIndexes(indices.services, log, popped, OfService, message, message.service);
      UnenteredIndexes(indices.types, log, popped, OfType, message);
    } else {
      EnteredIndexes(indices.types, log, popped, OfType, message, message.messageType);
      UnenteredIndexes(indices.clients, log, popped, OfClient, message);
      UnenteredIndexes(indices.services, log, popped, OfService, message);
    }
  }

  /** Main result: culling after a pop keeps the indices exact. */
  lemma CullCovers(indices: Indices, log: seq<Communication>, popped: nat)
    requires log != [] && indices.Cover(log, popped)
    ensures indices.Cull(popped + 1).Cover(log[1..], popped + 1)
  {
    assert Times(log[1..], popped + 1) == Times(log, popped)[1..];
    PoppedLists(indices.published, log, popped, IsPublished());
    CulledIndexes(indices.clients, log, popped, OfClient);
    CulledIndexes(indices.services, log, popped, OfService);
    CulledIndexes(indices.types, log, popped, OfType);
  }

  class MessageLogger {
    var log: seq<Communication>
    var clientIndex: Index
    var serviceIndex: Index
    var typeIndex: Index
    var publishedIndex: seq<nat>
    var timeIndex: TimeIndex
    var bufferLength: nat
    var numPushed: nat
    var numPopped: nat
    // All messages ever added
    ghost var history: seq<Communication>

    ghost function AllIndices(): Indices
      reads this
    {
      Indices(clientIndex, serviceIndex, typeIndex, publishedIndex, timeIndex)
    }

    /** The log holds the messages from the last one popped on, and the indices are exact. */
    ghost predicate Valid()
      reads this
    {
      && numPushed == |history| && numPopped <= numPushed && log == history[numPopped..]
      && AllIndices().Cover(log, numPopped)
    }

    constructor ()
      ensures Valid() && history == [] && bufferLength == 0
    {
      log, history, publishedIndex, timeIndex := [], [], [], [];
      clientIndex, serviceIndex, typeIndex := map[], map[], map[];
      bufferLength, numPushed, numPopped := 0, 0, 0;
    }

    method SetBufferLength(length: nat)
      requires Valid()
      modifies this`bufferLength
      ensures Valid() && bufferLength == length
    {
      bufferLength := length;
    }

    method ClearMessages()
      modifies this
      ensures Valid() && log == [] == history && bufferLength == old(bufferLength)
    {
      log, history, publishedIndex, timeIndex := [], [], [], [];
      clientIndex, serviceIndex, typeIndex := map[], map[], map[];
      numPushed, numPopped := 0, 0;
    }

    /** Adds a message; in a log that is over its limit then, the oldest message makes room. */
    method AddMessage(message: Communication)
      requires Valid()
      modifies this
      ensures Valid() && history == old(history) + [message] && bufferLength == old(bufferLength)
      ensures numPopped == old(numPopped) + if bufferLength != 0 && |old(log)| >= bufferLength then 1 else 0
    {
      Push(message);
      ghost var rest := old(log);
      if bufferLength != 0 && |log| > bufferLength {
        PopFront(rest);
        rest := rest[1..];
      }
      IndexMessage(message, rest);
    }

    method Push(message: Communication)
      requires Valid()
      modifies this`log, this`numPushed, this`history
      ensures log == old(log) + [message] && history == old(history) + [message] && numPushed == |history|
      ensures log == history[numPopped..]
    {
      log, numPushed, history := log + [message], numPushed + 1, history + [message];
    }

    /** Pops the front of the log, whose last message is not in the indices yet. */
    method PopFront(ghost indexed: seq<Communication>)
      requires indexed != [] && indexed < log && |log| == |indexed| + 1 && AllIndices().Cover(indexed, numPopped)
      modifies this`log, this`numPopped, this`clientIndex, this`serviceIndex, this`typeIndex, this`publishedIndex, this`timeIndex
      ensures log == old(log)[1..] && numPopped == old(numPopped) + 1
      ensures AllIndices().Cover(indexed[1..], numPopped)
    {
      CullCovers(AllIndices(), indexed, numPopped);
      log := log[1..];
      numPopped := numPopped + 1;
      CullInvalidIndices();
    }

    /** Enters the last message. */
    method IndexMessage(message: Communication, ghost indexed: seq<Communication>)
      requires log == indexed + [message] && numPushed == numPopped + |log| && AllIndices().Cover(indexed, numPopped)
      modifies this`clientIndex, this`serviceIndex, this`typeIndex, this`publishedIndex, this`timeIndex
      ensures AllIndices().Cover(log, numPopped)
    {
      EnterCovers(AllIndices(), indexed, numPopped, message);
      EnterLast(message);
    }

    method EnterLast(message: Communication)
      requires numPushed > 0
      modifies this`clientIndex, this`serviceIndex, this`typeIndex, this`publishedIndex, this`timeIndex
      ensures AllIndices() == old(AllIndices()).Enter(message, numPushed - 1)
    {
      if message.RpcCall? {
        clientIndex := clientIndex[message.client := Lookup(clientIndex, message.client) + [numPushed - 1]];
        serviceIndex := serviceIndex[message.service := Lookup(serviceIndex, message.service) + [numPushed - 1]];
      } else {
        publishedIndex := publishedIndex + [numPushed - 1];
        typeIndex := typeIndex[message.messageType := Lookup(typeIndex, message.messageType) + [numPushed - 1]];
      }
      timeIndex := timeIndex + [(message.time, numPushed - 1)];
    }

    /** Drops the positions that were popped from every index. */
    method CullInvalidIndices()
      requires timeIndex != [] && timeIndex[0].1 < numPopped && (|timeIndex| > 1 ==> timeIndex[1].1 >= numPopped)
      modifies this`clientIndex, this`serviceIndex, this`typeIndex, this`publishedIndex, this`timeIndex
      ensures AllIndices() == old(AllIndices()).Cull(numPopped)
    {
      clientIndex := EraseNegative(clientIndex);
      serviceIndex := EraseNegative(serviceIndex);
      typeIndex := EraseNegative(typeIndex);
      timeIndex := CullSimTimeIndices(timeIndex);
      publishedIndex := EraseNegativeIndices(publishedIndex);
    }

    method EraseNegative(index: Index) returns (r: Index)
      ensures r == Culled(index, numPopped)
    {
      r := index;
      var todo := index.Keys;
      while todo != {}
        invariant todo <= index.Keys
        invariant r == map key | key in index :: if key in todo then index[key] else WithoutStale(index[key], numPopped)
        decreases todo
      {
        var key :| key in todo;
        var q := EraseNegativeIndices(index[key]);
        r := r[key := q];
        todo := todo - {key};
      }
    }

    method EraseNegativeIndices(q: seq<nat>) returns (r: seq<nat>)
      ensures r == WithoutStale(q, numPopped)
    {
      r := q;
      while r != [] && r[0] < numPopped
        invariant WithoutStale(r, numPopped) == WithoutStale(q, numPopped)
        decreases |r|
      {
        r := r[1..];
      }
    }

    /** At most the first entry is stale after one pop. */
    method CullSimTimeIndices(index: TimeIndex) returns (r: TimeIndex)
      requires index != [] && index[0].1 < numPopped && (|index| > 1 ==> index[1].1 >= numPopped)
      ensures r == index[1..]
    {
      r := index;
      while r != [] && r[0].1 < numPopped
        invariant r == index || r == index[1..]
        decreases |r|
      {
        r := r[1..];
      }
    }
  }
}
