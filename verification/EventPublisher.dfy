/** The event publisher: clients register, subscribe and leave, the simulation publishes and
    waits for them, and actors are allocated to the clients that simulate them. */
module EventPublishing {
  import opened Barriers

  const MIN_TIMEOUT_IN_MS: nat := 2000
  const UINT_MAX: nat := 4294967295

  // ---------------------------------------------------------------- timeouts

  ghost predicate AtLeastProposals(v: nat, subscribers: Subscribers) {
    forall c :: c in subscribers && subscribers[c].isEventSubscriber ==> subscribers[c].profile.timeout <= v
  }

  /** The maximum of a base value and of the proposals of all event subscribers. */
  ghost predicate IsMaximum(v: nat, base: nat, subscribers: Subscribers) {
    && v >= base && AtLeastProposals(v, subscribers)
    && (v == base || exists c :: c in subscribers && subscribers[c].isEventSubscriber && subscribers[c].profile.timeout == v)
  }

  function Max(a: nat, b: nat): nat {
    if a < b then b else a
  }

  // ---------------------------------------------------------------- allocation

  predicate IsSimulator(s: Subscriber) {
    s.isEventSubscriber && s.profile.simulateActors
  }

  /** The clients that simulate actors on a platform. */
  function Simulators(subscribers: Subscribers, platform: Platform): set<ClientId> {
    set c | c in subscribers && IsSimulator(subscribers[c]) && subscribers[c].profile.platform == platform
  }

  ghost predicate LeastUsed(subscribers: Subscribers, among: set<ClientId>, c: ClientId) {
    && c in among && among <= subscribers.Keys && subscribers[c].use < UINT_MAX
    && forall m :: m in among ==> subscribers[c].use <= subscribers[m].use
  }

  ghost predicate NoRoom(subscribers: Subscribers, among: set<ClientId>) {
    forall m :: m in among && m in subscribers ==> subscribers[m].use >= UINT_MAX
  }

  datatype Allocation = Allocated(client: ClientId) | Nobody | Replayed | Failed

  /** The rules: a simulator of the actor's own platform first, then one of RoadRunner, in each
      case the one used least; a simulator without a platform is an error. */
  ghost predicate Allocates(subscribers: Subscribers, platform: Platform, replayed: bool, r: Allocation) {
    if replayed then r == Replayed
    else if forall c :: c in subscribers ==> !subscribers[c].isEventSubscriber then r == Nobody
    else if Simulators(subscribers, NoPlatform) != {} then r == Failed
    else if !NoRoom(subscribers, Simulators(subscribers, platform)) then
      r.Allocated? && LeastUsed(subscribers, Simulators(subscribers, platform), r.client)
    else if !NoRoom(subscribers, Simulators(subscribers, RoadRunner)) then
      r.Allocated? && LeastUsed(subscribers, Simulators(subscribers, RoadRunner), r.client)
    else r == Failed
  }

  /** One use more of client `c` is all that changed. */
  ghost predicate Counted(before: Subscribers, after: Subscribers, c: ClientId) {
    && c in before && after.Keys == before.Keys
    && after[c] == before[c].(use := before[c].use + 1)
    && forall m :: m in before && m != c ==> after[m] == before[m]
  }

  /** The simulators of one platform are used equally often, up to one actor. */
  ghost predicate Balanced(subscribers: Subscribers, platform: Platform) {
    forall c, m :: c in Simulators(subscribers, platform) && m in Simulators(subscribers, platform) ==>
      subscribers[c].use <= subscribers[m].use + 1
  }

  lemma SameSimulators(before: Subscribers, after: Subscribers, c: ClientId, p: Platform)
    requires Counted(before, after, c)
    ensures Simulators(after, p) == Simulators(before, p)
  {
  }

  /** Main result: an allocation keeps the simulators of every platform balanced. */
  lemma AllocationKeepsBalance(subscribers: Subscribers, platform: Platform, replayed: bool, r: Allocation,
                               after: Subscribers, p: Platform)
    requires Allocates(subscribers, platform, replayed, r) && Balanced(subscribers, p)
    requires if r.Allocated? then Counted(subscribers, after, r.client) else after == subscribers
    ensures Balanced(after, p)
  {
    if r.Allocated? {
      SameSimulators(subscribers, after, r.client, p);
    }
  }

  // ---------------------------------------------------------------- fairness over many allocations

  /** Allocation number `i` is served by a simulator of platform `p`, whose use is counted. */
  ghost predicate Allots(states: seq<Subscribers>, chosen: seq<ClientId>, p: Platform, i: nat) {
    && i < |chosen| && i + 1 < |states|
    && chosen[i] in Simulators(states[i], p)
    && (exists platform :: Allocates(states[i], platform, false, Allocated(chosen[i])))
    && Counted(states[i], states[i + 1], chosen[i])
  }

  /** Allocations one after the other, all served by simulators of platform `p`, which were used equally before. */
  ghost predicate Serves(states: seq<Subscribers>, chosen: seq<ClientId>, p: Platform) {
    && |states| == |chosen| + 1
    && (forall i: nat :: i < |chosen| ==> Allots(states, chosen, p, i))
    && (forall c, m :: c in Simulators(states[0], p) && m in Simulators(states[0], p) ==> states[0][c].use == states[0][m].use)
  }

  /** The simulators stay the same and balanced, and their uses count how often they were chosen. */
  ghost predicate Tallied(first: Subscribers, last: Subscribers, chosen: seq<ClientId>, p: Platform) {
    && Simulators(last, p) == Simulators(first, p) && Balanced(last, p)
    && (forall c :: c in Simulators(first, p) ==> last[c].use == first[c].use + multiset(chosen)[c])
    && (forall c :: c in chosen ==> c in Simulators(first, p))
  }

  lemma {:induction false} UsesTally(states: seq<Subscribers>, chosen: seq<ClientId>, p: Platform, n: nat)
    requires Serves(states, chosen, p) && n <= |chosen|
    ensures Tallied(states[0], states[n], chosen[..n], p)
  {
    if n > 0 {
      UsesTally(states, chosen, p, n - 1);
      assert Allots(states, chosen, p, n - 1);
      assert chosen[..n] == chosen[..n - 1] + [chosen[n - 1]];
      TallyOneMore(states[0], states[n - 1], states[n], chosen[..n - 1], chosen[n - 1], p);
    }
  }

  lemma TallyOneMore(first: Subscribers, before: Subscribers, after: Subscribers, chosen: seq<ClientId>, c: ClientId, p: Platform)
    requires Tallied(first, before, chosen, p) && c in Simulators(before, p) && Counted(before, after, c)
    requires exists platform :: Allocates(before, platform, false, Allocated(c))
    ensures Tallied(first, after, chosen + [c], p)
  {
    var platform :| Allocates(before, platform, false, Allocated(c));
    SameSimulators(before, after, c, p);
    AllocationKeepsBalance(before, platform, false, Allocated(c), after, p);
  }

  /** A multiset over some elements, each of them between `low` and `high` times. */
  lemma {:induction false} SizeBetween<T>(s: multiset<T>, over: set<T>, low: int, high: nat)
    requires forall x :: x in s ==> x in over
    requires forall x :: x in over ==> low <= s[x] <= high
    ensures |over| * low <= |s| <= |over| * high
    decreases over
  {
    if over == {} {
      assert s == multiset{};
    } else {
      var x :| x in over;
      var rest, k := s[x := 0], |over - {x}|;
      SizeBetween(rest, over - {x}, low, high);
      assert |s| == |rest| + s[x] && |over| == k + 1;
      OneMore(k, low);
      OneMore(k, high);
    }
  }

  lemma OneMore(k: nat, x: int)
    ensures (k + 1) * x == k * x + x
  {
  }

  lemma Scaled(k: nat, x: int, y: int)
    ensures x <= y ==> k * x <= k * y
  {
  }

  /** A number of times `k` bounds a quotient by `k`. */
  lemma QuotientBelow(n: nat, k: nat, x: int)
    requires k > 0 && n < k * x + k
    ensures n / k <= x
  {
    var q := n / k;
    assert n == k * q + n % k;
    Scaled(k, x + 1, q);
    assert k * (x + 1) == k * x + k;
  }

  lemma QuotientAbove(n: nat, k: nat, x: int)
    requires k > 0 && k * x <= n
    ensures x <= n / k
  {
    var q := n / k;
    assert n == k * q + n % k && n % k < k;
    Scaled(k, q + 1, x);
    assert k * (q + 1) == k * q + k;
  }

  /** Main result: if the same `k` simulators of one platform, used equally before, serve `n` allocations, then
      each of them is chosen `n / k` times, rounded down or up. */
  lemma AllocationIsFair(states: seq<Subscribers>, chosen: seq<ClientId>, p: Platform, c: ClientId)
    requires Serves(states, chosen, p) && c in Simulators(states[0], p)
    ensures var n, k := |chosen|, |Simulators(states[0], p)|;
            k > 0 && n / k <= multiset(chosen)[c] <= (n + k - 1) / k
  {
    var n, all := |chosen|, Simulators(states[0], p);
    var s, x: int := multiset(chosen), multiset(chosen)[c];
    UsesTally(states, chosen, p, n);
    assert chosen[..n] == chosen;
    forall m | m in all ensures x - 1 <= s[m] <= x + 1 {
      assert states[n][m].use == states[0][m].use + s[m] && states[n][c].use == states[0][c].use + x;
    }
    SizeBetween(s[c := 0], all - {c}, x - 1, x + 1);
    assert |all| == |all - {c}| + 1 && |s[c := 0]| == n - x;
    Bounds(n, |all|, x);
    QuotientBelow(n, |all|, x);
    QuotientAbove(n + |all| - 1, |all|, x);
  }

  lemma Bounds(n: nat, k: nat, x: nat)
    requires k > 0 && x <= n && (k - 1) * (x - 1) <= n - x <= (k - 1) * (x + 1)
    ensures n <= k * x + k - 1 && k * x <= n + k - 1
  {
  }

  class EventPublisher {
    const defaultTimeouts: map<string, nat>
    var timeouts: map<string, nat>
    var maxProposedTimeout: nat
    var subscribers: Subscribers
    var unready: set<ClientId>
    var noHeartBeat: set<ClientId>
    var isReplayMode: bool
    var excludedActors: set<nat>
    // The publication that is underway
    ghost var location: Location
    ghost var leaving: multiset<ClientId>
    ghost var history: History

    ghost function State(): Barrier
      reads this
    {
      Barrier(subscribers, unready, noHeartBeat, location, leaving, history)
    }

    /** Every timeout is the maximum of its default and of what the subscribers proposed. */
    ghost predicate TimeoutsOK()
      reads this
    {
      && IsMaximum(maxProposedTimeout, MIN_TIMEOUT_IN_MS, subscribers)
      && timeouts.Keys == defaultTimeouts.Keys
      && (forall e :: e in timeouts ==> IsMaximum(timeouts[e], defaultTimeouts[e], subscribers))
      && (forall e :: e in defaultTimeouts ==> defaultTimeouts[e] >= MIN_TIMEOUT_IN_MS)
    }

    ghost predicate Valid()
      reads this
    {
      Safe(State()) && TimeoutsOK() && "" !in subscribers
    }

    /** Configured timeouts are raised to the minimum. */
    constructor (configured: map<string, nat>)
      ensures Valid() && State() == Start()
      ensures defaultTimeouts.Keys == configured.Keys
      ensures forall e :: e in configured ==> defaultTimeouts[e] == Max(configured[e], MIN_TIMEOUT_IN_MS)
    {
      var defaults := map e | e in configured :: Max(configured[e], MIN_TIMEOUT_IN_MS);
      defaultTimeouts, timeouts, maxProposedTimeout := defaults, defaults, MIN_TIMEOUT_IN_MS;
      subscribers, unready, noHeartBeat := map[], {}, {};
      isReplayMode, excludedActors := false, {};
      location, leaving, history := Idle, multiset{}, Start().history;
    }

    // -------------------------------------------------------------- clients

    /** Registers a client under an id that is not in use. */
    method RegisterClient(client: ClientId) returns (ok: bool)
      requires Valid() && client != ""
      modifies this`subscribers
      ensures Valid() && State() == Next(old(State()), Register(client)) && ok == (client !in old(subscribers))
    {
      NextIsSafe(State(), Register(client));
      ok := client !in subscribers;
      if ok {
        MaximumGrows(subscribers, client, NewSubscriber());
        subscribers := subscribers[client := NewSubscriber()];
      }
    }

    /** Makes a registered client an event subscriber, unless it is one already or is to simulate
        actors without being synchronous. */
    method AddSubscriber(client: ClientId, profile: Profile) returns (ok: bool)
      requires Valid()
      modifies this`subscribers, this`timeouts, this`maxProposedTimeout
      ensures Valid() && State() == Next(old(State()), Subscribe(client, profile))
      ensures ok == MaySubscribe(old(subscribers), client, profile)
    {
      NextIsSafe(State(), Subscribe(client, profile));
      if client !in subscribers || subscribers[client].isEventSubscriber || (profile.simulateActors && !profile.synchronous) {
        return false;
      }
      MaximumGrows(subscribers, client, subscribers[client].(isEventSubscriber := true, profile := profile));
      subscribers := subscribers[client := subscribers[client].(isEventSubscriber := true, profile := profile)];
      ProcessProposedTimeout(client);
      ok := true;
    }

    /** Raises the timeouts to what one client proposes. */
    method ProcessProposedTimeout(client: ClientId)
      requires client in subscribers
      modifies this`timeouts, this`maxProposedTimeout
      ensures maxProposedTimeout == Max(old(maxProposedTimeout), subscribers[client].profile.timeout)
      ensures timeouts.Keys == old(timeouts.Keys)
      ensures forall e :: e in timeouts ==> timeouts[e] == Max(old(timeouts)[e], subscribers[client].profile.timeout)
    {
      var proposed := subscribers[client].profile.timeout;
      var todo := timeouts.Keys;
      while todo != {}
        invariant todo <= timeouts.Keys == old(timeouts.Keys) && maxProposedTimeout == old(maxProposedTimeout)
        invariant forall e :: e in timeouts ==> timeouts[e] == if e in todo then old(timeouts)[e] else Max(old(timeouts)[e], proposed)
        decreases todo
      {
        var e :| e in todo;
        if proposed > timeouts[e] {
          timeouts := timeouts[e := proposed];
        }
        todo := todo - {e};
      }
      if proposed > maxProposedTimeout {
        maxProposedTimeout := proposed;
      }
    }

    /** Computes the timeouts anew from the remaining subscribers. */
    method ResetTimeouts()
      requires forall e :: e in defaultTimeouts ==> defaultTimeouts[e] >= MIN_TIMEOUT_IN_MS
      modifies this`timeouts, this`maxProposedTimeout
      ensures TimeoutsOK()
    {
      timeouts, maxProposedTimeout := defaultTimeouts, MIN_TIMEOUT_IN_MS;
      var todo := subscribers.Keys;
      ghost var done: Subscribers := map[];
      while todo != {}
        invariant todo <= subscribers.Keys
        invariant done == map c | c in subscribers && c !in todo :: subscribers[c]
        invariant IsMaximum(maxProposedTimeout, MIN_TIMEOUT_IN_MS, done) && timeouts.Keys == defaultTimeouts.Keys
        invariant forall e :: e in timeouts ==> IsMaximum(timeouts[e], defaultTimeouts[e], done)
        decreases todo
      {
        var c :| c in todo;
        MaximumGrows(done, c, subscribers[c]);
        if subscribers[c].isEventSubscriber {
          ProcessProposedTimeout(c);
        }
        done := done[c := subscribers[c]];
        todo := todo - {c};
      }
      assert done == subscribers;
    }

    /** How long to wait for an event. */
    method TimeoutFor(event: string) returns (timeout: nat)
      requires Valid()
      ensures IsMaximum(timeout, if event in defaultTimeouts then defaultTimeouts[event] else MIN_TIMEOUT_IN_MS, subscribers)
    {
      timeout := maxProposedTimeout;
      if event in timeouts && timeouts[event] > maxProposedTimeout {
        timeout := timeouts[event];
      }
    }

    // -------------------------------------------------------------- publishing

    /** Marks the synchronous subscribers unready and opens the first window. */
    method Publish()
      requires Valid() && location.Idle?
      modifies this`unready, this`noHeartBeat, this`location, this`history
      ensures Valid() && State() == Next(old(State()), Barriers.Publish)
      ensures unready == Synchronous(subscribers)
    {
      NextIsSafe(State(), Barriers.Publish);
      assert unready == {};
      ghost var b := State();
      var todo := subscribers.Keys;
      while todo != {}
        invariant todo <= subscribers.Keys && State() == b.(unready := unready)
        invariant unready == set c | c in subscribers && c !in todo && subscribers[c].IsSynchronous()
        decreases todo
      {
        var c :| c in todo;
        if subscribers[c].IsSynchronous() {
          unready := unready + {c};
        }
        todo := todo - {c};
      }
      noHeartBeat := unready;
      location, history := PublishEvent(b).location, PublishEvent(b).history;
    }

    /** The end of one wait, by a notification or by the timeout: silent clients are dropped, and
        while somebody is unready another window opens. */
    method EndWindow(timeout: bool) returns (done: bool)
      requires Valid() && location.Waiting?
      modifies this`subscribers, this`unready, this`noHeartBeat, this`timeouts, this`maxProposedTimeout, this`location, this`history
      ensures Valid() && done == location.Idle?
      ensures old(MayContinue(State())) || !timeout ==> State() == Next(old(State()), Barriers.EndWindow(timeout))
      ensures !old(MayContinue(State())) && timeout ==>
                && unready == set c | c in old(unready) && (c in old(noHeartBeat) ==> old(OnlyRegistered(State(), c)))
                && subscribers == old(subscribers) - old(noHeartBeat)
      ensures done ==> history.snapshot <= history.readied + history.removed
    {
      ghost var b := State();
      NextIsSafe(b, Barriers.EndWindow(timeout));
      if unready != {} && noHeartBeat != {} {
        if !timeout {
          return false;
        }
        location := Dropping;
        DropSilentClients();
        NextIsSafe(State(), EndDropping);
      }
      OpenNextWindow();
      done := unready == {};
    }

    method OpenNextWindow()
      requires Safe(Continue(State())) && TimeoutsOK() && "" !in subscribers
      modifies this`noHeartBeat, this`location, this`history
      ensures Valid() && State() == Continue(old(State()))
    {
      ghost var b := Continue(State());
      if unready != {} {
        noHeartBeat := unready;
      }
      location, history := b.location, b.history;
    }

    /** Drops everybody who did not speak, while no client can become ready. */
    method DropSilentClients()
      requires Valid() && location.Dropping?
      modifies this`subscribers, this`unready, this`noHeartBeat, this`timeouts, this`maxProposedTimeout, this`history
      ensures Valid() && noHeartBeat == {} && subscribers == old(subscribers) - old(noHeartBeat)
      ensures unready == set c | c in old(unready) && (c in old(noHeartBeat) ==> old(OnlyRegistered(State(), c)))
    {
      while noHeartBeat != {}
        invariant Valid() && noHeartBeat <= old(noHeartBeat)
        invariant subscribers == old(subscribers) - (old(noHeartBeat) - noHeartBeat)
        invariant unready == set c | c in old(unready) && (c in old(noHeartBeat) - noHeartBeat ==> old(OnlyRegistered(State(), c)))
        decreases noHeartBeat
      {
        var c :| c in noHeartBeat;
        DropSilentClient(c);
      }
    }

    method DropSilentClient(c: ClientId)
      requires Valid() && location.Dropping? && c in noHeartBeat
      modifies this`subscribers, this`unready, this`noHeartBeat, this`timeouts, this`maxProposedTimeout, this`history
      ensures Valid() && State() == Next(Next(old(State()), Drop(c)), EraseDropped)
    {
      ghost var b := Next(State(), Drop(c));
      NextIsSafe(State(), Drop(c));
      NextIsSafe(b, EraseDropped);
      noHeartBeat := noHeartBeat - {c};
      if !(c in subscribers && !subscribers[c].isEventSubscriber) {
        unready := unready - {c};
      }
      EraseClient(c);
      history := b.history;
    }

    /** Erases a client; the timeouts follow the remaining subscribers. */
    method EraseClient(c: ClientId)
      requires TimeoutsOK() && "" !in subscribers
      modifies this`subscribers, this`timeouts, this`maxProposedTimeout
      ensures TimeoutsOK() && subscribers == old(subscribers) - {c}
    {
      if c in subscribers {
        subscribers := subscribers - {c};
        ResetTimeouts();
      } else {
        assert subscribers - {c} == subscribers;
      }
    }

    /** A client reports that it is ready for the next event. */
    method SetClientReady(client: ClientId) returns (ok: bool)
      requires Valid() && !location.Locked()
      modifies this`unready, this`noHeartBeat, this`history
      ensures Valid() && State() == Next(old(State()), Ready(client)) && ok == (client in old(unready))
      ensures noHeartBeat == old(noHeartBeat) - {client} && unready == old(unready) - {client}
      ensures history.spoke == if location.Waiting? then old(history.spoke) + {client} else old(history.spoke)
    {
      ghost var b := Next(State(), Ready(client));
      NextIsSafe(State(), Ready(client));
      noHeartBeat := noHeartBeat - {client};
      ok := client in unready;
      if ok {
        unready := unready - {client};
      }
      history := b.history;
    }

    /** A client reports that it is alive but busy. */
    method SetClientBusy(client: ClientId)
      requires Valid() && !location.Locked()
      modifies this`noHeartBeat, this`history
      ensures Valid() && State() == Next(old(State()), Busy(client))
      ensures noHeartBeat == old(noHeartBeat) - {client} && unready == old(unready)
      ensures history.spoke == if location.Waiting? then old(history.spoke) + {client} else old(history.spoke)
    {
      ghost var b := Next(State(), Busy(client));
      NextIsSafe(State(), Busy(client));
      if client in noHeartBeat {
        noHeartBeat := noHeartBeat - {client};
      }
      history := b.history;
    }

    // -------------------------------------------------------------- removal, in three steps

    /** A client that only registered is removed at once. */
    method Unregister(client: ClientId) returns (done: bool)
      requires Valid()
      modifies this`subscribers
      ensures Valid() && State() == Next(old(State()), Barriers.Unregister(client)) && done == old(OnlyRegistered(State(), client))
    {
      NextIsSafe(State(), Barriers.Unregister(client));
      done := client in subscribers && !subscribers[client].isEventSubscriber;
      if done {
        MaximumShrinks(subscribers, client);
        subscribers := subscribers - {client};
      }
    }

    /** Nobody waits for a client that is removed. */
    method ResolveUnready(client: ClientId)
      requires Valid() && !location.Locked()
      modifies this`unready, this`leaving, this`history
      ensures Valid() && State() == Next(old(State()), Barriers.ResolveUnready(client))
    {
      ghost var b := Next(State(), Barriers.ResolveUnready(client));
      NextIsSafe(State(), Barriers.ResolveUnready(client));
      unready := unready - {client};
      leaving, history := b.leaving, b.history;
    }

    method Erase(client: ClientId)
      requires Valid() && client in leaving
      modifies this`subscribers, this`timeouts, this`maxProposedTimeout, this`leaving
      ensures Valid() && State() == Next(old(State()), Barriers.Erase(client))
    {
      NextIsSafe(State(), Barriers.Erase(client));
      EraseClient(client);
      leaving := leaving - multiset{client};
    }

    /** The whole removal. */
    method RemoveSubscriber(client: ClientId)
      requires Valid() && !location.Locked()
      modifies this`subscribers, this`unready, this`timeouts, this`maxProposedTimeout, this`leaving, this`history
      ensures Valid() && State() == Removal(old(State()), client)
    {
      ghost var b := State();
      var done := Unregister(client);
      if !done {
        assert State() == b;
        ResolveUnready(client);
        Erase(client);
        assert State() == Next(Next(b, Barriers.ResolveUnready(client)), Barriers.Erase(client));
      }
    }

    // -------------------------------------------------------------- allocation

    /** Picks a client that simulates an actor and counts its use. */
    method AllocateActorSimulator(platform: Platform, actor: nat) returns (r: Allocation)
      requires Valid()
      modifies this`subscribers
      ensures Valid()
      ensures if r.Allocated? then Counted(old(subscribers), subscribers, r.client) else subscribers == old(subscribers)
      ensures Allocates(old(subscribers), platform, isReplayMode && actor !in excludedActors, r)
    {
      if isReplayMode && actor !in excludedActors {
        return Replayed;
      }
      var count := CountSubscribers();
      if count == 0 {
        return Nobody;
      }
      var failed, candidate := FindSimulator(platform);
      if failed {
        return Failed;
      }
      if candidate == "" {
        candidate := FindLeastUsed(RoadRunner);
      }
      if candidate == "" {
        return Failed;
      }
      Use(candidate);
      r := Allocated(candidate);
    }

    method Use(client: ClientId)
      requires Valid() && client in subscribers
      modifies this`subscribers
      ensures Valid() && Counted(old(subscribers), subscribers, client)
    {
      UseKeepsTimeouts(subscribers, client);
      subscribers := subscribers[client := subscribers[client].(use := subscribers[client].use + 1)];
    }

    method CountSubscribers() returns (count: nat)
      ensures count == 0 <==> forall c :: c in subscribers ==> !subscribers[c].isEventSubscriber
    {
      count := 0;
      var todo := subscribers.Keys;
      while todo != {}
        invariant todo <= subscribers.Keys
        invariant count == 0 <==> forall c :: c in subscribers && c !in todo ==> !subscribers[c].isEventSubscriber
        decreases todo
      {
        var c :| c in todo;
        if subscribers[c].isEventSubscriber {
          count := count + 1;
        }
        todo := todo - {c};
      }
    }

    /** The least used simulator of a platform; fails on a simulator without a platform. */
    method FindSimulator(platform: Platform) returns (failed: bool, candidate: ClientId)
      requires "" !in subscribers
      ensures failed == (Simulators(subscribers, NoPlatform) != {})
      ensures !failed && candidate == "" ==> NoRoom(subscribers, Simulators(subscribers, platform))
      ensures !failed && candidate != "" ==> LeastUsed(subscribers, Simulators(subscribers, platform), candidate)
    {
      failed, candidate := false, "";
      var use := UINT_MAX;
      var todo := subscribers.Keys;
      while todo != {}
        invariant todo <= subscribers.Keys && Simulators(subscribers, NoPlatform) <= todo
        invariant Best(Simulators(subscribers, platform) - todo, candidate, use)
        decreases todo
      {
        var c :| c in todo;
        if IsSimulator(subscribers[c]) {
          if subscribers[c].profile.platform.NoPlatform? {
            assert c in Simulators(subscribers, NoPlatform);
            return true, "";
          }
          if subscribers[c].profile.platform == platform && subscribers[c].use < use {
            candidate, use := c, subscribers[c].use;
          }
        }
        todo := todo - {c};
      }
      assert Simulators(subscribers, platform) - todo == Simulators(subscribers, platform);
    }

    method FindLeastUsed(platform: Platform) returns (candidate: ClientId)
      requires "" !in subscribers
      ensures candidate == "" ==> NoRoom(subscribers, Simulators(subscribers, platform))
      ensures candidate != "" ==> LeastUsed(subscribers, Simulators(subscribers, platform), candidate)
    {
      candidate := "";
      var use := UINT_MAX;
      var todo := subscribers.Keys;
      while todo != {}
        invariant todo <= subscribers.Keys
        invariant Best(Simulators(subscribers, platform) - todo, candidate, use)
        decreases todo
      {
        var c :| c in todo;
        if IsSimulator(subscribers[c]) && subscribers[c].profile.platform == platform && subscribers[c].use < use {
          candidate, use := c, subscribers[c].use;
        }
        todo := todo - {c};
      }
      assert Simulators(subscribers, platform) - todo == Simulators(subscribers, platform);
    }

    /** `candidate` is the least used of these clients so far, and `use` says how often it was used. */
    ghost predicate Best(among: set<ClientId>, candidate: ClientId, use: nat)
      reads this
    {
      && use <= UINT_MAX && among <= subscribers.Keys
      && (candidate == "" ==> use == UINT_MAX)
      && (candidate != "" ==> candidate in among && subscribers[candidate].use == use < UINT_MAX)
      && (forall m :: m in among ==> use <= subscribers[m].use)
    }
  }

  lemma UseKeepsTimeouts(subscribers: Subscribers, c: ClientId)
    requires c in subscribers
    ensures forall v, base :: IsMaximum(v, base, subscribers) ==>
              IsMaximum(v, base, subscribers[c := subscribers[c].(use := subscribers[c].use + 1)])
  {
    var after := subscribers[c := subscribers[c].(use := subscribers[c].use + 1)];
    forall v: nat, base: nat | IsMaximum(v, base, subscribers) ensures IsMaximum(v, base, after) {
      if v != base {
        var m :| m in subscribers && subscribers[m].isEventSubscriber && subscribers[m].profile.timeout == v;
        assert m in after && after[m].isEventSubscriber && after[m].profile.timeout == v;
      }
    }
  }

  lemma MaximumShrinks(subscribers: Subscribers, c: ClientId)
    requires c in subscribers && !subscribers[c].isEventSubscriber
    ensures forall v, base :: IsMaximum(v, base, subscribers) ==> IsMaximum(v, base, subscribers - {c})
  {
    forall v: nat, base: nat | IsMaximum(v, base, subscribers) ensures IsMaximum(v, base, subscribers - {c}) {
      if v != base {
        var m :| m in subscribers && subscribers[m].isEventSubscriber && subscribers[m].profile.timeout == v;
        assert m in subscribers - {c};
      }
    }
  }

  lemma MaximumGrows(done: Subscribers, c: ClientId, s: Subscriber)
    requires c !in done || !done[c].isEventSubscriber
    ensures forall v, base :: IsMaximum(v, base, done) ==>
              IsMaximum(if s.isEventSubscriber then Max(v, s.profile.timeout) else v, base, done[c := s])
  {
    forall v: nat, base: nat | IsMaximum(v, base, done)
      ensures IsMaximum(if s.isEventSubscriber then Max(v, s.profile.timeout) else v, base, done[c := s])
    {
      var grown := done[c := s];
      if v != base {
        var m :| m in done && done[m].isEventSubscriber && done[m].profile.timeout == v;
        assert m in grown && grown[m] == done[m];
      }
      assert c in grown && grown[c] == s;
      forall m | m in grown && grown[m].isEventSubscriber
        ensures grown[m].profile.timeout <= if s.isEventSubscriber then Max(v, s.profile.timeout) else v
      {
        if m != c {
          assert m in done;
        }
      }
    }
  }
}
