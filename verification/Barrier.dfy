/** Publishing an event and waiting for the synchronous clients, as atomic steps of the
    publishing thread and of the threads that serve the clients. */
module Barriers {

  type ClientId = string

  datatype Platform = RoadRunner | Simulink | External(platformName: string) | NoPlatform

  datatype Profile = Profile(synchronous: bool, simulateActors: bool, platform: Platform, timeout: nat)

  /** A registered client; it becomes an event subscriber later. */
  datatype Subscriber = Subscriber(isEventSubscriber: bool, profile: Profile, use: nat) {
    predicate IsSynchronous() {
      isEventSubscriber && profile.synchronous
    }
  }

  type Subscribers = map<ClientId, Subscriber>

  function Synchronous(subscribers: Subscribers): set<ClientId> {
    set c | c in subscribers && subscribers[c].IsSynchronous()
  }

  /** The publisher is idle, waits for a notification, or drops the clients that were silent until the
      timeout. While it drops them it holds the lock on the clients' readiness, but it erases a
      client in a later critical section than it looks it up. */
  datatype Location = Idle | Waiting | Dropping | Erasing(client: ClientId) {
    predicate Locked() {
      Dropping? || Erasing?
    }
  }

  datatype Barrier = Barrier(
    subscribers: Subscribers,
    unready: set<ClientId>,
    noHeartBeat: set<ClientId>,
    location: Location,
    // Removals that already resolved the unready flag but did not erase the client yet
    leaving: multiset<ClientId>,
    history: History)

  /** What happened since the event was published. */
  datatype History = History(
    snapshot: set<ClientId>,     // who was marked unready
    halfway: set<ClientId>,      // whose removal was underway then
    readied: set<ClientId>,      // who became ready
    removed: set<ClientId>,      // who was removed, or dropped after a timeout, while unready
    spoke: set<ClientId>,        // who sent ready or busy in this window
    dropped: set<ClientId>,      // who was dropped at the end of this window
    windows: nat,
    busyNotices: nat,            // busy notices from clients not heard of before in their window
    busyBefore: nat)             // ... before this window

  datatype Step =
    | Publish
    | Ready(client: ClientId)
    | Busy(client: ClientId)
    | EndWindow(timeout: bool)
    | Drop(client: ClientId)             // the two steps of a drop
    | EraseDropped
    | EndDropping
    | Register(client: ClientId)
    | Subscribe(client: ClientId, profile: Profile)
    | Unregister(client: ClientId)       // the three steps of a removal
    | ResolveUnready(client: ClientId)
    | Erase(client: ClientId)

  function OpenWindow(b: Barrier): Barrier {
    b.(noHeartBeat := b.unready, location := Waiting,
       history := b.history.(spoke := {}, dropped := {}, windows := b.history.windows + 1, busyBefore := b.history.busyNotices))
  }

  function PublishEvent(b: Barrier): Barrier {
    var waitFor := Synchronous(b.subscribers);
    OpenWindow(b.(unready := waitFor,
                  history := History(waitFor, set c | c in b.leaving, {}, {}, {}, {}, 0, 0, 0)))
  }

  /** The wait loop opens another window until no client is unready. */
  function Continue(b: Barrier): Barrier {
    if b.unready == {} then b.(location := Idle) else OpenWindow(b)
  }

  predicate MayContinue(b: Barrier) {
    b.unready == {} || b.noHeartBeat == {}
  }

  /** Who spoke in this window, with client `c` added if the window is open. */
  function Spoke(b: Barrier, c: ClientId): set<ClientId> {
    if b.location.Waiting? then b.history.spoke + {c} else b.history.spoke
  }

  function SetReady(b: Barrier, c: ClientId): Barrier {
    b.(noHeartBeat := b.noHeartBeat - {c}, unready := b.unready - {c},
       history := b.history.(spoke := Spoke(b, c),
                             readied := if c in b.unready then b.history.readied + {c} else b.history.readied))
  }

  function SetBusy(b: Barrier, c: ClientId): Barrier {
    b.(noHeartBeat := b.noHeartBeat - {c},
       history := b.history.(spoke := Spoke(b, c),
                             busyNotices := if c in b.noHeartBeat then b.history.busyNotices + 1 else b.history.busyNotices))
  }

  predicate OnlyRegistered(b: Barrier, c: ClientId) {
    c in b.subscribers && !b.subscribers[c].isEventSubscriber
  }

  function Resolve(b: Barrier, c: ClientId): Barrier {
    b.(unready := b.unready - {c},
       history := b.history.(removed := if c in b.unready then b.history.removed + {c} else b.history.removed))
  }

  /** Looks up a silent client: one that only registered loses its registration, and nobody waits
      for another one any more, which is still to be erased. */
  function DropClient(b: Barrier, c: ClientId): Barrier {
    var b1 := b.(noHeartBeat := b.noHeartBeat - {c}, history := b.history.(dropped := b.history.dropped + {c}));
    if OnlyRegistered(b, c) then b1.(subscribers := b.subscribers - {c}) else Resolve(b1, c).(location := Erasing(c))
  }

  function NewSubscriber(): Subscriber {
    Subscriber(false, Profile(false, false, NoPlatform, 0), 0)
  }

  /** Only a registered client can subscribe, once; to simulate actors it must be synchronous. */
  predicate MaySubscribe(subscribers: Subscribers, c: ClientId, profile: Profile) {
    c in subscribers && !subscribers[c].isEventSubscriber && (profile.simulateActors ==> profile.synchronous)
  }

  function Next(b: Barrier, step: Step): Barrier {
    match step
    case Publish => if b.location.Idle? then PublishEvent(b) else b
    case Ready(c) => if b.location.Locked() then b else SetReady(b, c)
    case Busy(c) => if b.location.Locked() then b else SetBusy(b, c)
    case EndWindow(timeout) =>
      if !b.location.Waiting? then b
      else if MayContinue(b) then Continue(b)
      else if timeout then b.(location := Dropping) else b
    case Drop(c) => if b.location.Dropping? && c in b.noHeartBeat then DropClient(b, c) else b
    case EraseDropped =>
      if b.location.Erasing? then b.(subscribers := b.subscribers - {b.location.client}, location := Dropping) else b
    case EndDropping => if b.location.Dropping? && b.noHeartBeat == {} then Continue(b) else b
    case Register(c) => if c in b.subscribers then b else b.(subscribers := b.subscribers[c := NewSubscriber()])
    case Subscribe(c, profile) =>
      if MaySubscribe(b.subscribers, c, profile) then
        b.(subscribers := b.subscribers[c := b.subscribers[c].(isEventSubscriber := true, profile := profile)])
      else b
    case Unregister(c) => if OnlyRegistered(b, c) then b.(subscribers := b.subscribers - {c}) else b
    case ResolveUnready(c) => if b.location.Locked() then b else Resolve(b, c).(leaving := b.leaving + multiset{c})
    case Erase(c) => if c in b.leaving then b.(subscribers := b.subscribers - {c}, leaving := b.leaving - multiset{c}) else b
  }

  function Run(b: Barrier, steps: seq<Step>): Barrier {
    if steps == [] then b else Next(Run(b, steps[..|steps| - 1]), steps[|steps| - 1])
  }

  /** A removal whose steps are not interrupted. */
  function Removal(b: Barrier, c: ClientId): (r: Barrier)
    requires !b.location.Locked()
    ensures r.subscribers == b.subscribers - {c} && r.leaving == b.leaving && r.noHeartBeat == b.noHeartBeat
    ensures r.unready == if OnlyRegistered(b, c) then b.unready else b.unready - {c}
  {
    if OnlyRegistered(b, c) then Next(b, Unregister(c)) else Next(Next(b, ResolveUnready(c)), Erase(c))
  }

  function Start(): Barrier {
    Barrier(map[], {}, {}, Idle, multiset{}, History({}, {}, {}, {}, {}, {}, 0, 0, 0))
  }

  // ---------------------------------------------------------------- safety

  /** Everybody marked is still unready, became ready, or was removed; a client without a heart
      beat did not speak in this window, nor did one that was dropped. */
  ghost predicate Safe(b: Barrier) {
    var h := b.history;
    && b.unready <= h.snapshot <= b.unready + h.readied + h.removed
    && h.spoke !! b.noHeartBeat && h.spoke !! h.dropped
    && (b.location.Waiting? ==> h.dropped == {})
    && (b.location.Idle? ==> b.unready == {})
  }

  lemma NextIsSafe(b: Barrier, step: Step)
    requires Safe(b)
    ensures Safe(Next(b, step))
  {
  }

  /** Main result: whatever clients do, when a publication returns every client that was marked
      became ready or was removed, and no client is dropped in a window in which it spoke. */
  lemma {:induction false} EveryRunIsSafe(steps: seq<Step>)
    ensures Safe(Run(Start(), steps))
    decreases |steps|
  {
    if steps != [] {
      EveryRunIsSafe(steps[..|steps| - 1]);
      NextIsSafe(Run(Start(), steps[..|steps| - 1]), steps[|steps| - 1]);
    }
  }

  /** A client that reports takes itself off the list of silent clients, for this window; one that is ready is
      no longer waited for, and one that is busy still is. */
  lemma NoticesAreHeard(b: Barrier, c: ClientId)
    requires !b.location.Locked()
    ensures var ready := Next(b, Ready(c));
            && ready.unready == b.unready - {c} && ready.noHeartBeat == b.noHeartBeat - {c} && ready.subscribers == b.subscribers
            && (c in b.unready ==> c in ready.history.readied) && (b.location.Waiting? ==> c in ready.history.spoke)
    ensures var busy := Next(b, Busy(c));
            && busy.unready == b.unready && busy.noHeartBeat == b.noHeartBeat - {c} && busy.subscribers == b.subscribers
            && (b.location.Waiting? ==> c in busy.history.spoke)
            && (c in b.noHeartBeat ==> busy.history.busyNotices == b.history.busyNotices + 1)
  {
  }

  /** Client `c` spoke in window number `w`, unless a later window was opened since. */
  ghost predicate Heard(s: Barrier, w: nat, c: ClientId) {
    Safe(s) && s.history.windows >= w && (s.history.windows == w ==> c in s.history.spoke)
  }

  /** Main result: a client that reports in an open window is not dropped when that window ends, whatever happens. */
  lemma {:induction false} SpeakersSurvive(b: Barrier, c: ClientId, step: Step, steps: seq<Step>)
    requires Safe(b) && b.location.Waiting? && (step == Ready(c) || step == Busy(c)) && NoPublish(steps)
    ensures var s := Run(Next(b, step), steps);
            Heard(s, b.history.windows, c) && (s.history.windows == b.history.windows ==> c !in s.history.dropped)
    decreases |steps|
  {
    NextIsSafe(b, step);
    if steps != [] {
      var before := steps[..|steps| - 1];
      SpeakersSurvive(b, c, step, before);
      StaysHeard(Run(Next(b, step), before), b.history.windows, c, steps[|steps| - 1]);
    }
  }

  lemma StaysHeard(s: Barrier, w: nat, c: ClientId, step: Step)
    requires Heard(s, w, c) && step != Publish
    ensures Heard(Next(s, step), w, c)
  {
    NextIsSafe(s, step);
  }

  /** As long as no window times out, nobody is dropped, and every client waited for is ready, removed or waited for still. */
  lemma {:induction false} OnlyTimeoutsDrop(b: Barrier, steps: seq<Step>)
    requires Safe(b) && b.location.Waiting? && NoPublish(steps) && EndWindow(true) !in steps
    ensures var s := Run(b, steps);
            Safe(s) && (s.location.Waiting? || s.location.Idle?) && s.history.dropped == {}
            && s.history.snapshot == b.history.snapshot
    decreases |steps|
  {
    if steps != [] {
      var before := steps[..|steps| - 1];
      OnlyTimeoutsDrop(b, before);
      NextIsSafe(Run(b, before), steps[|steps| - 1]);
    }
  }

  /** A client that subscribes is an event subscriber with its profile, is not waited for at once, and from the next
      publication on exactly if it is synchronous. */
  lemma SubscribersAreWaitedFor(b: Barrier, c: ClientId, profile: Profile)
    requires MaySubscribe(b.subscribers, c, profile)
    ensures var b' := Next(b, Subscribe(c, profile));
            && b'.subscribers == b.subscribers[c := Subscriber(true, profile, b.subscribers[c].use)]
            && b'.unready == b.unready && b'.noHeartBeat == b.noHeartBeat
            && (c in PublishEvent(b').unready <==> profile.synchronous)
            && PublishEvent(b').unready - {c} == PublishEvent(b).unready - {c}
  {
    var b' := Next(b, Subscribe(c, profile));
    forall m | m != c ensures m in Synchronous(b'.subscribers) <==> m in Synchronous(b.subscribers) {
    }
  }

  /** Both steps of a drop: the silent client is erased, and nobody waits for it unless it had only registered; all others stay. */
  lemma DroppedIsErased(b: Barrier, c: ClientId)
    requires b.location.Dropping? && c in b.noHeartBeat
    ensures var b1 := Next(b, Drop(c)); var b' := Next(b1, EraseDropped);
            && b'.location.Dropping? && b'.subscribers == b.subscribers - {c} && b'.noHeartBeat == b.noHeartBeat - {c}
            && b'.unready == (if OnlyRegistered(b, c) then b.unready else b.unready - {c})
            && c in b'.history.dropped
  {
  }

  // ---------------------------------------------------------------- the unready clients subscribe

  ghost predicate UnreadySubscribe(b: Barrier) {
    b.unready <= Synchronous(b.subscribers)
  }

  /** An unready client subscribes, and is not being removed, unless its removal was underway when
      the event was published. */
  ghost predicate Accounted(b: Barrier) {
    && (forall c :: c in b.unready && c !in b.history.halfway ==> c in Synchronous(b.subscribers) && c !in b.leaving)
    && (b.location.Erasing? ==> b.location.client !in b.unready)
  }

  lemma NextIsAccounted(b: Barrier, step: Step)
    requires Safe(b) && Accounted(b)
    ensures Accounted(Next(b, step))
  {
    var b' := Next(b, step);
    forall c | c in b'.unready && c !in b'.history.halfway ensures c in Synchronous(b'.subscribers) && c !in b'.leaving {
      if step.Publish? && b.location.Idle? {
      } else {
        assert c in b.unready && c !in b.history.halfway;
      }
    }
  }

  lemma {:induction false} EveryRunIsAccounted(steps: seq<Step>)
    ensures Accounted(Run(Start(), steps))
    decreases |steps|
  {
    if steps != [] {
      EveryRunIsSafe(steps[..|steps| - 1]);
      EveryRunIsAccounted(steps[..|steps| - 1]);
      NextIsAccounted(Run(Start(), steps[..|steps| - 1]), steps[|steps| - 1]);
    }
  }

  predicate NoPublish(steps: seq<Step>) {
    forall i :: 0 <= i < |steps| ==> steps[i] != Publish
  }

  lemma {:induction false} HalfwayIsFixed(b: Barrier, steps: seq<Step>)
    requires Safe(b) && Accounted(b) && NoPublish(steps)
    ensures var b' := Run(b, steps);
            Safe(b') && Accounted(b') && b'.unready <= b.unready
            && b'.history.halfway == b.history.halfway && b'.history.snapshot == b.history.snapshot
    decreases |steps|
  {
    if steps != [] {
      var before := steps[..|steps| - 1];
      HalfwayIsFixed(b, before);
      NextIsSafe(Run(b, before), steps[|steps| - 1]);
      NextIsAccounted(Run(b, before), steps[|steps| - 1]);
    }
  }

  /** Main result: during a publication the unready clients stay among the synchronous subscribers,
      whatever happens, exactly when no synchronous subscriber's removal is underway at its start. */
  lemma UnreadySubscribeExactly(b: Barrier)
    requires Safe(b) && Accounted(b) && b.location.Idle?
    ensures (forall steps :: NoPublish(steps) ==> UnreadySubscribe(Run(PublishEvent(b), steps)))
       <==> NoneHalfway(b)
  {
    var b0 := PublishEvent(b);
    NextIsSafe(b, Publish);
    NextIsAccounted(b, Publish);
    if NoneHalfway(b) {
      forall steps | NoPublish(steps) ensures UnreadySubscribe(Run(b0, steps)) {
        HalfwayIsFixed(b0, steps);
      }
    } else {
      var c :| c in b.leaving && c in Synchronous(b.subscribers);
      assert Run(b0, []) == b0 && [Erase(c)][..0] == [];
      assert Run(b0, [Erase(c)]) == Next(b0, Erase(c));
      assert c in Run(b0, [Erase(c)]).unready && NoPublish([Erase(c)]);
    }
  }

  // ---------------------------------------------------------------- progress

  /** Every window opened so far but the first had a busy notice in the window before it; and if an
      unready client has a heart beat, there was one in this window. */
  ghost predicate Progressing(b: Barrier) {
    var h := b.history;
    && h.busyBefore <= h.busyNotices
    && h.windows <= 1 + h.busyBefore
    && (b.location.Idle? || b.unready <= b.noHeartBeat || h.busyBefore < h.busyNotices)
  }

  /** No synchronous subscriber's removal is underway. */
  ghost predicate NoneHalfway(b: Barrier) {
    forall c :: c in b.leaving ==> c !in Synchronous(b.subscribers)
  }

  lemma NextIsProgressing(b: Barrier, step: Step)
    requires Safe(b) && Accounted(b) && b.history.halfway !! b.history.snapshot && Progressing(b)
    ensures Progressing(Next(b, step))
  {
    if step.Drop? && b.location.Dropping? && step.client in b.noHeartBeat && step.client in b.unready {
      assert step.client in Synchronous(b.subscribers);
    }
  }

  lemma {:induction false} WindowsAreBounded(b: Barrier, steps: seq<Step>)
    requires Safe(b) && Accounted(b) && b.location.Idle? && NoneHalfway(b) && NoPublish(steps)
    ensures Progressing(Run(PublishEvent(b), steps))
    decreases |steps|
  {
    var b0 := PublishEvent(b);
    NextIsSafe(b, Publish);
    NextIsAccounted(b, Publish);
    if steps != [] {
      var before := steps[..|steps| - 1];
      WindowsAreBounded(b, before);
      HalfwayIsFixed(b0, before);
      NextIsProgressing(Run(b0, before), steps[|steps| - 1]);
    }
  }

  lemma RunOneMore(b: Barrier, steps: seq<Step>, step: Step)
    ensures Run(b, steps + [step]) == Next(Run(b, steps), step)
  {
    assert (steps + [step])[..|steps|] == steps;
  }

  /** Any set of clients can become ready, one after the other. */
  lemma {:induction false} AllReady(b: Barrier, steps: seq<Step>, clients: set<ClientId>) returns (more: seq<Step>)
    requires NoPublish(steps) && Run(b, steps).location.Waiting?
    ensures NoPublish(more)
    ensures var s, s' := Run(b, steps), Run(b, more);
            s'.location.Waiting? && s'.subscribers == s.subscribers && s'.unready == s.unready - clients
            && s'.noHeartBeat == s.noHeartBeat - clients && s'.history.windows == s.history.windows
            && s'.history.busyNotices == s.history.busyNotices
    decreases clients
  {
    more := steps;
    if clients != {} {
      var c :| c in clients;
      RunOneMore(b, steps, Ready(c));
      more := AllReady(b, steps + [Ready(c)], clients - {c});
    }
  }

  lemma OnlyRegisteredKeepsWaiting(s: Barrier, c: ClientId)
    requires s.location.Waiting? && s.unready == {c} == s.noHeartBeat && OnlyRegistered(s, c)
    ensures var h := Next(Next(Next(s, EndWindow(true)), Drop(c)), EndDropping).history;
            h.windows == s.history.windows + 1 && h.busyNotices == s.history.busyNotices
  {
    assert Next(Next(s, EndWindow(true)), Drop(c)).noHeartBeat == {};
  }

  /** A client erased during the wait, whose removal was underway before, can register again and
      then keep the wait going without any busy notice. */
  lemma ReregisteredClientKeepsWaiting(b: Barrier, c: ClientId) returns (steps: seq<Step>)
    requires b.location.Idle? && c in b.leaving && c in Synchronous(b.subscribers)
    ensures NoPublish(steps)
    ensures var h := Run(PublishEvent(b), steps).history; h.windows == 2 && h.busyNotices == 0
  {
    var b0 := PublishEvent(b);
    var s1 := OthersBecomeReady(b, c);
    OnlyRegisteredKeepsWaiting(Run(b0, s1), c);
    RunThreeMore(b0, s1, EndWindow(true), Drop(c), EndDropping);
    steps := s1 + [EndWindow(true)] + [Drop(c)] + [EndDropping];
  }

  lemma OthersBecomeReady(b: Barrier, c: ClientId) returns (steps: seq<Step>)
    requires b.location.Idle? && c in b.leaving && c in Synchronous(b.subscribers)
    ensures NoPublish(steps)
    ensures var s := Run(PublishEvent(b), steps);
            && s.location.Waiting? && OnlyRegistered(s, c) && s.unready == {c} == s.noHeartBeat
            && s.history.windows == 1 && s.history.busyNotices == 0
  {
    var b0 := PublishEvent(b);
    RunTwo(b0, Erase(c), Register(c));
    RegistersAgain(b, c);
    steps := AllReady(b0, [Erase(c), Register(c)], b0.unready - {c});
    assert b0.unready - (b0.unready - {c}) == {c};
  }

  lemma RegistersAgain(b: Barrier, c: ClientId)
    requires b.location.Idle? && c in b.leaving && c in Synchronous(b.subscribers)
    ensures var s := Next(Next(PublishEvent(b), Erase(c)), Register(c));
            && s.location.Waiting? && OnlyRegistered(s, c) && c in s.unready && s.unready == s.noHeartBeat == PublishEvent(b).unready
            && s.history.windows == 1 && s.history.busyNotices == 0
  {
  }

  lemma RunTwo(b: Barrier, x: Step, y: Step)
    ensures Run(b, [x, y]) == Next(Next(b, x), y)
  {
    assert [] + [x] == [x] && [x] + [y] == [x, y];
    RunOneMore(b, [], x);
    RunOneMore(b, [x], y);
  }

  lemma RunThreeMore(b: Barrier, steps: seq<Step>, x: Step, y: Step, z: Step)
    ensures Run(b, steps + [x] + [y] + [z]) == Next(Next(Next(Run(b, steps), x), y), z)
  {
    RunOneMore(b, steps, x);
    RunOneMore(b, steps + [x], y);
    RunOneMore(b, steps + [x] + [y], z);
  }

  /** Main result: a wait opens at most one window more than it handles busy notices, whatever
      happens, exactly when no synchronous subscriber's removal is underway at its start. */
  lemma WindowsAreBoundedExactly(b: Barrier)
    requires Safe(b) && Accounted(b) && b.location.Idle?
    ensures (forall steps :: NoPublish(steps) ==> Bounded(Run(PublishEvent(b), steps))) <==> NoneHalfway(b)
  {
    if NoneHalfway(b) {
      forall steps | NoPublish(steps) ensures Bounded(Run(PublishEvent(b), steps)) {
        WindowsAreBounded(b, steps);
      }
    } else {
      var c :| c in b.leaving && c in Synchronous(b.subscribers);
      var steps := ReregisteredClientKeepsWaiting(b, c);
      assert !Bounded(Run(PublishEvent(b), steps));
    }
  }

  predicate Bounded(b: Barrier) {
    b.history.windows <= 1 + b.history.busyNotices
  }

  /** Under that condition a window of any wait that times out ends the wait if no client sent a busy
      notice in it: the end of the dropping finds nobody unready. */
  lemma SilentWindowEndsTheWait(b: Barrier, steps: seq<Step>)
    requires Safe(b) && Accounted(b) && b.location.Idle? && NoneHalfway(b) && NoPublish(steps)
    ensures var s := Run(PublishEvent(b), steps);
            s.location.Dropping? && s.noHeartBeat == {} && s.history.busyNotices == s.history.busyBefore ==>
              Next(s, EndDropping).location.Idle? && s.history.snapshot <= s.history.readied + s.history.removed
  {
    NextIsSafe(b, Publish);
    NextIsAccounted(b, Publish);
    WindowsAreBounded(b, steps);
    HalfwayIsFixed(PublishEvent(b), steps);
    SilenceEndsTheWait(Run(PublishEvent(b), steps));
  }

  lemma SilenceEndsTheWait(s: Barrier)
    requires Safe(s) && Progressing(s)
    ensures s.location.Dropping? && s.noHeartBeat == {} && s.history.busyNotices == s.history.busyBefore ==>
              Next(s, EndDropping).location.Idle? && s.history.snapshot <= s.history.readied + s.history.removed
  {
  }
}
