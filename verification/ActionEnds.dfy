/** How final actions end: which ones give way to a starting phase, and which ones end by themselves. */
module ActionEnds {
  import opened Wrappers
  import opened Scenario
  import opened PhaseSemantics
  import opened PhaseTree
  import opened PhaseCompletion
  import opened SuperStep
  import opened ActionLifeCycle
  import opened ActionRuns
  import opened Execution

  // ---------------------------------------------------------------- kinds of actions

  predicate Steers(kind: ActionKind) {
    kind.LaneChange? || kind.LateralOffset?
  }

  predicate Drives(kind: ActionKind) {
    kind.Speed? || kind.LongitudinalDistance?
  }

  /** Two actions of an actor are in conflict exactly if both control how it steers, or how it drives, or the same parameter. */
  lemma ConflictMeaning(x: ActionKind, y: ActionKind)
    ensures x.InConflictWith(y) <==>
              || (Steers(x) && Steers(y))
              || (Drives(x) && Drives(y))
              || (x.ChangeParameter? && y.ChangeParameter? && x.name == y.name)
  {
    if x.Dimensions() * y.Dimensions() != {} {
      var dim :| dim in x.Dimensions() * y.Dimensions();
    } else {
      assert Lateral !in x.Dimensions() * y.Dimensions() && Longitudinal !in x.Dimensions() * y.Dimensions();
    }
  }

  /** Every action of an actor phase belongs to exactly one interval, and all actions of a system phase are final. */
  lemma ActionsByInterval(d: Diagram, p: nat, a: nat)
    requires p < |d.phases| && a in d.phases[p].actions
    ensures a < |d.actions|
    ensures d.phases[p].kind.ActorAction? ==>
              && (a in Initials(d, p) <==> d.actions[a].interval == AtStart)
              && (a in Invariants(d, p) <==> d.actions[a].interval == Invariant)
              && (a in Finals(d, p) <==> d.actions[a].interval == AtEnd)
    ensures d.phases[p].kind.SystemAction? ==> a in Finals(d, p) && a !in Initials(d, p) && a !in Invariants(d, p)
  {
    ActionsNamed(d, p);
    assert d.ActionOK(p, a);
  }

  /** The completion of an actor's action is published, that of a zero-time operation or a wait is not. */
  lemma CompletionEvents(d: Diagram, m: Machine, a: nat)
    requires Fits(d, m) && a < |d.actions| && m.status[a] == Dispatched
    ensures var kind := d.actions[a].kind;
            var silent := kind.ScenarioSuccess? || kind.ScenarioFailure? || kind.Wait? || kind.Emit?;
            && Complete(d, m, a).m.trace == m.trace + (if silent then [] else [ActionCompleteEvent(a, Done)])
            && Preempt(d, m, a).trace == m.trace + (if silent then [] else [ActionCompleteEvent(a, Interrupted)])
  {
  }

  // ---------------------------------------------------------------- giving way

  /** What preempting makes of a status. */
  function Preempted(s: ActionStatus): ActionStatus {
    match s
    case Unspecified => Skipped
    case Dispatched => Interrupted
    case _ => s
  }

  predicate Conflicts(d: Diagram, a: nat, news: seq<nat>)
    requires a < |d.actions| && d.Named(news)
  {
    exists j :: 0 <= j < |news| && d.actions[a].kind.InConflictWith(d.actions[news[j]].kind)
  }

  /** Exactly the actions of `gone` were preempted. */
  ghost predicate Gone(d: Diagram, m: Machine, m': Machine, gone: iset<nat>) {
    && |m.status| == |m'.status| == |d.actions|
    && forall a: nat :: a < |d.actions| ==> m'.status[a] == if a in gone then Preempted(m.status[a]) else m.status[a]
  }

  lemma GoneChain(d: Diagram, m1: Machine, m2: Machine, m3: Machine, g: iset<nat>, h: iset<nat>)
    requires Gone(d, m1, m2, g) && Gone(d, m2, m3, h)
    ensures Gone(d, m1, m3, g + h)
  {
  }

  lemma PreemptGone(d: Diagram, m: Machine, a: nat)
    requires Fits(d, m) && a < |d.actions|
    ensures Gone(d, m, Preempt(d, m, a), iset{a})
  {
  }

  lemma {:induction false} PreemptAllGone(d: Diagram, m: Machine, acts: seq<nat>)
    requires Fits(d, m) && d.Named(acts)
    ensures Gone(d, m, PreemptAll(d, m, acts), iset a | a in acts)
    decreases |acts|
  {
    if acts != [] {
      PreemptGone(d, m, acts[0]);
      PreemptAllGone(d, Preempt(d, m, acts[0]), acts[1..]);
      GoneChain(d, m, Preempt(d, m, acts[0]), PreemptAll(d, m, acts), iset{acts[0]}, iset a | a in acts[1..]);
      assert (iset a | a in acts) == iset{acts[0]} + (iset a | a in acts[1..]);
    }
  }

  /** The actions of `acts` that conflict with one of `news`. */
  ghost function Yielding(d: Diagram, acts: seq<nat>, news: seq<nat>): iset<nat>
    requires d.Named(acts) && d.Named(news)
  {
    iset a | a in acts && Conflicts(d, a, news)
  }

  lemma {:induction false} PreemptConflictingGone(d: Diagram, m: Machine, acts: seq<nat>, b: nat)
    requires Fits(d, m) && b < |d.actions| && d.Named(acts)
    ensures Gone(d, m, PreemptConflicting(d, m, acts, b), Yielding(d, acts, [b]))
    decreases |acts|
  {
    if acts != [] {
      var a := acts[0];
      var hit := d.actions[a].kind.InConflictWith(d.actions[b].kind);
      var m1 := if hit then Preempt(d, m, a) else m;
      PreemptGone(d, m, a);
      PreemptConflictingGone(d, m1, acts[1..], b);
      assert Conflicts(d, a, [b]) <==> hit by {
        assert [b][0] == b;
      }
      var g: iset<nat> := if hit then iset{a} else iset{};
      GoneChain(d, m, m1, PreemptConflicting(d, m, acts, b), g, Yielding(d, acts[1..], [b]));
      assert Yielding(d, acts, [b]) == g + Yielding(d, acts[1..], [b]);
    }
  }

  lemma {:induction false} PreemptForAllGone(d: Diagram, m: Machine, acts: seq<nat>, news: seq<nat>)
    requires Fits(d, m) && d.Named(acts) && d.Named(news)
    ensures Gone(d, m, PreemptForAll(d, m, acts, news), Yielding(d, acts, news))
    decreases |news|
  {
    if news != [] {
      var b, rest := news[0], news[1..];
      var m1 := PreemptConflicting(d, m, acts, b);
      PreemptConflictingGone(d, m, acts, b);
      PreemptForAllGone(d, m1, acts, rest);
      GoneChain(d, m, m1, PreemptForAll(d, m, acts, news), Yielding(d, acts, [b]), Yielding(d, acts, rest));
      forall a | a in acts ensures Conflicts(d, a, news) <==> Conflicts(d, a, [b]) || Conflicts(d, a, rest) {
        ConflictsSplit(d, a, news);
      }
      assert Yielding(d, acts, news) == Yielding(d, acts, [b]) + Yielding(d, acts, rest);
    }
  }

  lemma ConflictsSplit(d: Diagram, a: nat, news: seq<nat>)
    requires a < |d.actions| && d.Named(news) && news != []
    ensures Conflicts(d, a, news) <==> Conflicts(d, a, [news[0]]) || Conflicts(d, a, news[1..])
  {
    assert [news[0]][0] == news[0];
    forall j | 0 <= j < |news| && d.actions[a].kind.InConflictWith(d.actions[news[j]].kind)
      ensures Conflicts(d, a, [news[0]]) || Conflicts(d, a, news[1..])
    {
      if j > 0 {
        assert news[1..][j - 1] == news[j];
      }
    }
  }

  /** The final actions of phase `q` that give way to phase `p`: those of the same actor in conflict with a final action of `p`. */
  ghost function GivingWay(d: Diagram, q: nat, p: nat): iset<nat>
    requires q < |d.phases| && p < |d.phases|
  {
    if SameActor(d, q, p) then Yielding(d, Finals(d, q), Finals(d, p)) else iset{}
  }

  /** ... and of all phases of `ids` that are tracked. */
  ghost function AllGivingWay(d: Diagram, ids: seq<nat>, tracked: set<nat>, p: nat): iset<nat>
    requires p < |d.phases|
  {
    iset a, q | q in ids && q in tracked && q < |d.phases| && a in GivingWay(d, q, p) :: a
  }

  lemma {:induction false} ResolveTrackedGone(d: Diagram, m: Machine, ids: seq<nat>, tracked: set<nat>, p: nat)
    requires Fits(d, m) && p < |d.phases| && forall i :: 0 <= i < |ids| ==> ids[i] < |d.phases|
    ensures Gone(d, m, ResolveTracked(d, m, ids, tracked, p), AllGivingWay(d, ids, tracked, p))
    decreases |ids|
  {
    if ids != [] {
      var q, rest := ids[0], ids[1..];
      var m1 := if q in tracked then DetectAndResolveConflict(d, m, q, p) else m;
      var g: iset<nat> := if q in tracked then GivingWay(d, q, p) else iset{};
      assert Gone(d, m, m1, g) by {
        PreemptForAllGone(d, m, Finals(d, q), Finals(d, p));
      }
      ResolveTrackedGone(d, m1, rest, tracked, p);
      GoneChain(d, m, m1, ResolveTracked(d, m1, rest, tracked, p), g, AllGivingWay(d, rest, tracked, p));
      SplitGivingWay(d, ids, tracked, p, g);
    }
  }

  lemma SplitGivingWay(d: Diagram, ids: seq<nat>, tracked: set<nat>, p: nat, g: iset<nat>)
    requires p < |d.phases| && ids != [] && ids[0] < |d.phases|
    requires g == if ids[0] in tracked then GivingWay(d, ids[0], p) else iset{}
    ensures AllGivingWay(d, ids, tracked, p) == g + AllGivingWay(d, ids[1..], tracked, p)
  {
    assert forall q :: q in ids <==> q == ids[0] || q in ids[1..];
  }

  /** Main result: a starting actor phase preempts exactly the live final actions of the tracked phases of its actor that conflict
      with one of its own final actions. */
  lemma StartPreemptsExactly(d: Diagram, m: Machine, p: nat)
    requires Pre(d, m, p)
    ensures var m', tracked := NotifyStarted(d, m, p), m.toDispatch + m.inProcess;
            && Gone(d, m, m', AllGivingWay(d, d.idOrder, tracked, p))
            && m'.toDispatch == m.toDispatch + {p} && m'.inProcess == m.inProcess && m'.phases == m.phases
  {
    var m1 := ResolveTracked(d, m, d.idOrder, m.toDispatch, p);
    var m2 := m1.(toDispatch := m1.toDispatch + {p});
    ResolveTrackedGone(d, m, d.idOrder, m.toDispatch, p);
    ResolveTrackedGone(d, m2, d.idOrder, m2.inProcess, p);
    var g, h := AllGivingWay(d, d.idOrder, m.toDispatch, p), AllGivingWay(d, d.idOrder, m.inProcess, p);
    assert Gone(d, m, m2, g);
    GoneChain(d, m, m2, NotifyStarted(d, m, p), g, h);
    assert AllGivingWay(d, d.idOrder, m.toDispatch + m.inProcess, p) == g + h;
  }

  // ---------------------------------------------------------------- actions that do not end by themselves

  /** Continuous actions hold on when their objective is met, and only the client knows when another user-defined action is over. */
  predicate OpenEnded(kind: ActionKind) {
    match kind
    case Speed(_, continuous) => continuous
    case LongitudinalDistance(continuous) => continuous
    case UserDefined(instantaneous) => !instantaneous
    case _ => false
  }

  /** No open-ended action became done. */
  ghost predicate HoldsOn(d: Diagram, m: Machine, m': Machine) {
    && |m.status| == |m'.status| == |d.actions|
    && forall a :: 0 <= a < |d.actions| && OpenEnded(d.actions[a].kind) && m'.status[a] == Done ==> m.status[a] == Done
  }

  lemma HoldsOnChain(d: Diagram, m1: Machine, m2: Machine, m3: Machine)
    requires HoldsOn(d, m1, m2) && HoldsOn(d, m2, m3)
    ensures HoldsOn(d, m1, m3)
  {
  }

  lemma GoneHoldsOn(d: Diagram, m: Machine, m': Machine, gone: iset<nat>)
    requires Gone(d, m, m', gone)
    ensures HoldsOn(d, m, m')
  {
  }

  lemma {:induction false} CompleteMetHoldsOn(d: Diagram, e: Env, m: Machine, acts: seq<nat>)
    requires Fits(d, m) && d.Named(acts)
    ensures HoldsOn(d, m, CompleteMet(d, e, m, acts).m)
    decreases |acts|
  {
    if acts != [] {
      var a, rest := acts[0], acts[1..];
      if m.status[a] != Dispatched {
        CompleteMetHoldsOn(d, e, m, rest);
      } else if CheckStatus(d, e, m.effects, a) != Raises {
        var m1 := if Met(d, e, m.effects, a) then Complete(d, m, a).m else m;
        assert HoldsOn(d, m, m1);
        CompleteMetHoldsOn(d, e, m1, rest);
        HoldsOnChain(d, m, m1, CompleteMet(d, e, m1, rest).m);
      }
    }
  }

  lemma BeforeRunHoldsOn(d: Diagram, m: Machine, p: nat)
    requires Pre(d, m, p)
    ensures HoldsOn(d, m, BeforeRun(d, m, p))
  {
    match d.phases[p].kind {
      case ActorAction(_) =>
        StartPreemptsExactly(d, m, p);
        GoneHoldsOn(d, m, BeforeRun(d, m, p), AllGivingWay(d, d.idOrder, m.toDispatch + m.inProcess, p));
      case SystemAction =>
        DispatchAllEffect(d, m, Finals(d, p));
      case _ =>
    }
  }

  lemma OnRunHoldsOn(d: Diagram, e: Env, m: Machine, p: nat)
    requires Pre(d, m, p) && m.phases[p].state == Start
    ensures HoldsOn(d, m, OnRun(d, e, m, p).m)
  {
    var r1 := if d.phases[p].kind.ActorAction? then Apply(d, e, m, InitializeActor(p)) else Step(m, Returned(true));
    if r1.out.Returned? {
      BeforeRunHoldsOn(d, r1.m, p);
    }
  }

  lemma {:induction false} OnEndHoldsOn(d: Diagram, m: Machine, p: nat)
    requires Pre(d, m, p)
    ensures HoldsOn(d, m, OnEnd(d, m, p))
    decreases |d.phases| - p, 1, 0
  {
    if d.phases[p].kind.Mix? {
      EndChildrenHoldOn(d, m, p, 0);
    } else if d.phases[p].kind.Serial? {
      EndChildrenHoldOn(d, m, p, m.phases[p].position);
    } else {
      EndActionsHoldOn(d, m, p);
    }
  }

  lemma EndActionsHoldOn(d: Diagram, m: Machine, p: nat)
    requires Pre(d, m, p)
    ensures HoldsOn(d, m, EndActions(d, m, p))
  {
    var m1 := if d.phases[p].kind.ActorAction? && m.phases[p].state == Run
              then m.(toDispatch := m.toDispatch - {p}, inProcess := m.inProcess - {p}) else m;
    PreemptAllGone(d, m1, Finals(d, p));
  }

  lemma {:induction false} EndChildrenHoldOn(d: Diagram, m: Machine, p: nat, i: nat)
    requires Pre(d, m, p)
    ensures HoldsOn(d, m, EndChildren(d, m, p, i))
    decreases |d.phases| - p, 0, if i < |d.phases[p].children| then |d.phases[p].children| - i else 0
  {
    if i < |d.phases[p].children| {
      var m1 := OnEnd(d, m, Child(d, p, i));
      OnEndHoldsOn(d, m, Child(d, p, i));
      EndChildrenHoldOn(d, m1, p, i + 1);
      HoldsOnChain(d, m, m1, EndChildren(d, m1, p, i + 1));
    }
  }

  /** Main result: an update makes no open-ended action done, whatever it checks. */
  lemma {:induction false} UpdateHoldsOn(d: Diagram, e: Env, m: Machine, p: nat)
    requires Pre(d, m, p)
    ensures HoldsOn(d, m, Update(d, e, m, p).m)
    decreases |d.phases| - p, 3 - Rank(m.phases[p].state), 5, 0
  {
    AdvanceHoldsOn(d, e, m, p);
    var r := Advance(d, e, m, p);
    if r.out == Returned(true) {
      UpdateHoldsOn(d, e, r.m, p);
      HoldsOnChain(d, m, r.m, Update(d, e, r.m, p).m);
    }
  }

  lemma {:induction false} AdvanceHoldsOn(d: Diagram, e: Env, m: Machine, p: nat)
    requires Pre(d, m, p)
    ensures HoldsOn(d, m, Advance(d, e, m, p).m)
    decreases |d.phases| - p, 3 - Rank(m.phases[p].state), 4, 0
  {
    match m.phases[p].state {
      case Idle =>
      case Start =>
        if StartDecision(d, e, m, p) == Satisfied {
          OnRunHoldsOn(d, e, m, p);
        }
      case Run =>
        TryEndHoldsOn(d, e, m, p);
      case End =>
    }
  }

  lemma {:induction false} TryEndHoldsOn(d: Diagram, e: Env, m: Machine, p: nat)
    requires Pre(d, m, p) && m.phases[p].state == Run
    ensures HoldsOn(d, m, TryEnd(d, e, m, p).m)
    decreases |d.phases| - p, 1, 3, 0
  {
    DoRunUpdateHoldsOn(d, e, m, p);
    var r1 := DoRunUpdate(d, e, m, p);
    if r1.out == Returned(true) {
      OnEndHoldsOn(d, r1.m, p);
      HoldsOnChain(d, m, r1.m, OnEnd(d, r1.m, p));
    }
  }

  lemma {:induction false} DoRunUpdateHoldsOn(d: Diagram, e: Env, m: Machine, p: nat)
    requires Pre(d, m, p) && m.phases[p].state == Run
    ensures HoldsOn(d, m, DoRunUpdate(d, e, m, p).m)
    decreases |d.phases| - p, 0, 3, 0
  {
    UpdateContentHoldsOn(d, e, m, p);
    var r1 := UpdateContent(d, e, m, p);
    if r1.out.Returned? {
      OperationsHoldOn(d, e, r1.m, p, 0);
      var r2 := UpdateSystemActions(d, e, r1.m, p, 0);
      HoldsOnChain(d, m, r1.m, r2.m);
      if r2.out.Returned? {
        ConcludeHoldsOn(d, e, r2.m, p);
        HoldsOnChain(d, m, r2.m, Conclude(d, e, r2.m, p).m);
      }
    }
  }

  lemma ConcludeHoldsOn(d: Diagram, e: Env, m: Machine, p: nat)
    requires Pre(d, m, p)
    ensures HoldsOn(d, m, Conclude(d, e, m, p).m)
  {
    CompleteMetHoldsOn(d, e, m, Finals(d, p));
  }

  lemma {:induction false} UpdateContentHoldsOn(d: Diagram, e: Env, m: Machine, p: nat)
    requires Pre(d, m, p) && m.phases[p].state == Run
    ensures HoldsOn(d, m, UpdateContent(d, e, m, p).m)
    decreases |d.phases| - p, 0, 2, 0
  {
    match d.phases[p].kind {
      case Mix =>
        var r1 := SortIfNeeded(d, e, m, p);
        if r1.out.Returned? {
          ChildrenHoldOn(d, e, SetChildrenDone(d, r1.m, p, true), p, 0);
        }
      case Serial =>
        InOrderHoldsOn(d, e, m, p);
      case _ =>
    }
  }

  lemma {:induction false} KidHoldsOn(d: Diagram, e: Env, m: Machine, p: nat, c: nat)
    requires Pre(d, m, p) && d.KidOK(p, c)
    ensures HoldsOn(d, m, UpdateKid(d, e, m, p, c).m)
    decreases |d.phases| - p, 0, 0, 0
  {
    UpdateHoldsOn(d, e, m, c);
  }

  lemma {:induction false} ChildrenHoldOn(d: Diagram, e: Env, m: Machine, p: nat, i: nat)
    requires Pre(d, m, p) && m.phases[p].state == Run && d.phases[p].kind.Mix?
    requires IsOrder(m.phases[p].execOrder, |d.phases[p].children|)
    ensures HoldsOn(d, m, UpdateChildren(d, e, m, p, i).m)
    decreases |d.phases| - p, 0, 1, |m.phases[p].execOrder| - i
  {
    if i < |m.phases[p].execOrder| {
      var k := m.phases[p].execOrder[i];
      KidHoldsOn(d, e, m, p, Child(d, p, k));
      var r1 := UpdateChild(d, e, m, p, k);
      if r1.out.Returned? {
        ChildrenHoldOn(d, e, r1.m, p, i + 1);
        HoldsOnChain(d, m, r1.m, UpdateChildren(d, e, r1.m, p, i + 1).m);
      }
    }
  }

  lemma {:induction false} InOrderHoldsOn(d: Diagram, e: Env, m: Machine, p: nat)
    requires Pre(d, m, p) && m.phases[p].state == Run && d.phases[p].kind.Serial?
    ensures HoldsOn(d, m, UpdateInOrder(d, e, m, p).m)
    decreases |d.phases| - p, 0, 1, |d.phases[p].children| - m.phases[p].position
  {
    if m.phases[p].position < |d.phases[p].children| {
      var c := Child(d, p, m.phases[p].position);
      KidHoldsOn(d, e, m, p, c);
      var r1 := UpdateKid(d, e, m, p, c);
      if r1.out == Returned(true) {
        var m2 := PassChild(d, r1.m, p);
        InOrderHoldsOn(d, e, m2, p);
        HoldsOnChain(d, m, m2, UpdateInOrder(d, e, m2, p).m);
      }
    }
  }

  lemma {:induction false} OperationsHoldOn(d: Diagram, e: Env, m: Machine, p: nat, i: nat)
    requires Pre(d, m, p) && m.phases[p].state == Run
    ensures HoldsOn(d, m, UpdateSystemActions(d, e, m, p, i).m)
    decreases |d.phases| - p, 0, 1, |d.phases[p].systemActions| - i
  {
    if i < |d.phases[p].systemActions| {
      var c := Operation(d, p, i);
      KidHoldsOn(d, e, m, p, c);
      var r1 := UpdateKid(d, e, m, p, c);
      if r1.out.Returned? {
        OperationsHoldOn(d, e, r1.m, p, i + 1);
        HoldsOnChain(d, m, r1.m, UpdateSystemActions(d, e, r1.m, p, i + 1).m);
      }
    }
  }

  lemma {:induction false} PassesHoldOn(d: Diagram, e: Env, m: Machine, repeat: bool)
    requires Pre(d, m, 0)
    ensures HoldsOn(d, m, RunPasses(d, e, m, repeat).step.m)
    decreases 3 * |d.phases| - RankSum(m.phases)
  {
    var m0 := m.(transition := false);
    UpdateHoldsOn(d, e, m0, 0);
    var r := Update(d, e, m0, 0);
    RankSumBounded(r.m.phases);
    if r.out.Returned? && repeat && r.m.transition {
      PassesHoldOn(d, e, r.m, repeat);
      HoldsOnChain(d, m, r.m, RunPasses(d, e, r.m, repeat).step.m);
    }
  }

  // ---------------------------------------------------------------- whole runs

  lemma {:induction false} DispatchingHoldsOn(d: Diagram, m: Machine, ids: seq<nat>)
    requires Fits(d, m) && forall i :: 0 <= i < |ids| ==> ids[i] < |d.phases|
    ensures HoldsOn(d, m, DispatchPhases(d, m, ids))
    decreases |ids|
  {
    if ids != [] {
      var q := ids[0];
      var m1 := if q in m.toDispatch then DispatchPhase(d, m, q) else m;
      ActionsNamed(d, q);
      var acts := Unskipped(d, m, q, d.phases[q].actions);
      DispatchAllEffect(d, m.(trace := m.trace + [ActionEvent(q, acts)], inProcess := m.inProcess + {q}), Finals(d, q));
      DispatchingHoldsOn(d, m1, ids[1..]);
      HoldsOnChain(d, m, m1, DispatchPhases(d, m1, ids[1..]));
    }
  }

  lemma EventHoldsOn(d: Diagram, e: Env, m: Machine, ev: SimulationEvent)
    requires Fits(d, m)
    ensures HoldsOn(d, m, ProcessEvent(d, e, m, ev).step.m)
  {
    if d.phases != [] && ev != OtherEvent {
      SubtreeBounds(d, 0);
      PassesHoldOn(d, e, m, ev == ScenarioUpdate);
      var m1 := RunPasses(d, e, m, ev == ScenarioUpdate).step.m;
      DispatchingHoldsOn(d, m1, d.idOrder);
      HoldsOnChain(d, m, m1, DispatchPhases(d, m1, d.idOrder));
    }
  }

  /** Main result: in every run, an open-ended action is done only if a client reported it. */
  lemma {:induction false} DoneOnlyByReport(d: Diagram, stimuli: seq<Stimulus>, a: nat)
    requires a < |d.actions| && OpenEnded(d.actions[a].kind)
    ensures Execute(d, stimuli).m.status[a] == Done ==> CompletionReported(a) in stimuli
    decreases |stimuli|
  {
    if stimuli != [] {
      var before, s := stimuli[..|stimuli| - 1], stimuli[|stimuli| - 1];
      DoneOnlyByReport(d, before, a);
      RunKeepsInvariants(d, before);
      var r := Execute(d, before);
      assert forall x :: x in before ==> x in stimuli;
      if r.out.Returned? {
        match s {
          case EventRaised(e, ev) => EventHoldsOn(d, e, r.m, ev);
          case CompletionReported(b) => ReportCompletes(d, r.m, b);
        }
      }
    }
  }

  // ---------------------------------------------------------------- actions that end at once

  /** Nothing has to be waited for: such an action is done when its phase is next updated. */
  predicate Immediate(kind: ActionKind) {
    match kind
    case Path => true
    case ChangeParameter(_) => true
    case UserDefined(instantaneous) => instantaneous
    case Speed(fromPath, continuous) => fromPath && !continuous
    case _ => kind.IsSystem()
  }

  lemma ConcludeEndsImmediate(d: Diagram, e: Env, m: Machine, p: nat, a: nat)
    requires Pre(d, m, p) && !m.phases[p].initPending
    requires (d.phases[p].kind.ActorAction? || d.phases[p].kind.SystemAction?) && a in Finals(d, p)
    requires Immediate(d.actions[a].kind) || d.actions[a].kind.Position?
    ensures var r := Conclude(d, e, m, p); r.out.Returned? ==> r.m.status[a] != Dispatched
  {
    var r := CompleteMet(d, e, m, Finals(d, p));
    CompleteMetIsQuiet(d, e, m, Finals(d, p));
    if r.out.Returned? {
      var i :| 0 <= i < |Finals(d, p)| && Finals(d, p)[i] == a;
      assert CheckStatus(d, e, r.m.effects, a) == if d.actions[a].kind.Position? then Raises else Satisfied;
    }
  }

  /** A run update that returns, and had no initial actions to wait for, leaves no immediate final action of its phase
      dispatched, and none whose check is not implemented. */
  lemma ImmediateActionsEnd(d: Diagram, e: Env, m: Machine, p: nat, a: nat)
    requires Pre(d, m, p) && m.phases[p].state == Run && !m.phases[p].initPending
    requires (d.phases[p].kind.ActorAction? || d.phases[p].kind.SystemAction?) && a in Finals(d, p)
    requires Immediate(d.actions[a].kind) || d.actions[a].kind.Position?
    ensures var r := DoRunUpdate(d, e, m, p); r.out.Returned? ==> r.m.status[a] != Dispatched
  {
    PendingUntilTheEnd(d, e, m, p);
    ConcludeEndsImmediate(d, e, UpdateSystemActions(d, e, UpdateContent(d, e, m, p).m, p, 0).m, p, a);
  }
}
