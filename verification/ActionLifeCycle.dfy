/** The life cycle of final actions, and the events published about them, over every run. */
module ActionLifeCycle {
  import opened Scenario
  import opened PhaseSemantics

  // ---------------------------------------------------------------- statuses

  /** The status changes an action may go through. */
  predicate Moves(s: ActionStatus, t: ActionStatus) {
    s == t || s == Unspecified || (s == Dispatched && (t == Done || t == Interrupted))
  }

  /** Statuses only moved forward, and events were only added. */
  ghost predicate Later(m: Machine, m': Machine) {
    && |m.status| == |m'.status| && m.trace <= m'.trace
    && forall a :: 0 <= a < |m.status| ==> Moves(m.status[a], m'.status[a])
  }

  lemma LaterIsTransitive(m1: Machine, m2: Machine, m3: Machine)
    requires Later(m1, m2) && Later(m2, m3)
    ensures Later(m1, m3)
  {
    assert forall a :: 0 <= a < |m1.status| ==> Moves(m1.status[a], m2.status[a]) && Moves(m2.status[a], m3.status[a]);
  }

  /** An action that can still control its actor. */
  predicate Live(s: ActionStatus) {
    s == Unspecified || s == Dispatched
  }

  // ---------------------------------------------------------------- the published events

  /** What the events say about one action: not sent, sent once, completed once after that. */
  datatype Life = NotSent | Sent | Completed(status: ActionStatus) | Broken

  function LifeStep(l: Life, ev: Event, a: nat): Life {
    match ev
    case ActionEvent(_, acts) => if a !in acts then l else if l == NotSent then Sent else Broken
    case ActionCompleteEvent(b, s) =>
      if b != a then l else if l == Sent && (s == Done || s == Interrupted) then Completed(s) else Broken
  }

  function LifeOf(trace: seq<Event>, a: nat): Life {
    if trace == [] then NotSent
    else LifeStep(LifeOf(trace[..|trace| - 1], a), trace[|trace| - 1], a)
  }

  lemma LifeAppend(trace: seq<Event>, ev: Event, a: nat)
    ensures LifeOf(trace + [ev], a) == LifeStep(LifeOf(trace, a), ev, a)
  {
    assert (trace + [ev])[..|trace|] == trace;
  }

  /** The life that goes with a status. */
  function LifeFor(s: ActionStatus): Life {
    match s
    case Unspecified => NotSent
    case Skipped => NotSent
    case Dispatched => Sent
    case Interrupted => Completed(Interrupted)
    case Done => Completed(Done)
  }

  ghost predicate IsActorFinal(d: Diagram, a: nat) {
    && a < |d.actions|
    && d.actions[a].owner < |d.phases|
    && d.phases[d.actions[a].owner].kind.ActorAction?
    && a in Finals(d, d.actions[a].owner)
  }

  // ---------------------------------------------------------------- the invariant

  ghost predicate LivesOK(d: Diagram, m: Machine)
    requires |m.status| == |d.actions|
  {
    forall a: nat :: IsActorFinal(d, a) ==> LifeOf(m.trace, a) == LifeFor(m.status[a])
  }

  ghost predicate StatusAllowed(d: Diagram, m: Machine, q: nat, s: ActionStatus)
    requires q < |d.phases| == |m.phases|
  {
    match m.phases[q].state
    case Idle => s == Unspecified
    case Start => s == Unspecified
    case End => Terminal(s)
    case Run =>
      if d.phases[q].kind.SystemAction? then s != Unspecified
      else if q in m.toDispatch then s == Unspecified || s == Skipped
      else if q in m.inProcess then s != Unspecified
      else Terminal(s)
  }

  /** The final actions of a phase agree with its state, and only running actor phases are tracked. */
  ghost predicate PhaseActionsOK(d: Diagram, m: Machine, q: nat)
    requires |m.phases| == |d.phases| && |m.status| == |d.actions| && q < |d.phases|
  {
    && (q in m.toDispatch || q in m.inProcess ==> d.phases[q].kind.ActorAction? && m.phases[q].state == Run)
    && !(q in m.toDispatch && q in m.inProcess)
    && (forall a :: a in Finals(d, q) ==> a < |d.actions| && StatusAllowed(d, m, q, m.status[a]))
  }

  /** Two running phases of one actor hold no two live final actions in conflict. */
  ghost predicate NoConflict(d: Diagram, m: Machine, q: nat, r: nat)
    requires |m.phases| == |d.phases| && |m.status| == |d.actions| && q < |d.phases| && r < |d.phases|
  {
    q != r && SameActor(d, q, r) && m.phases[q].state == Run && m.phases[r].state == Run ==>
      NoLiveConflict(d, m, Finals(d, q), Finals(d, r))
  }

  ghost predicate NoLiveConflict(d: Diagram, m: Machine, acts: seq<nat>, news: seq<nat>)
    requires |m.status| == |d.actions| && d.Named(acts) && d.Named(news)
  {
    forall i, j :: 0 <= i < |acts| && 0 <= j < |news| && d.actions[acts[i]].kind.InConflictWith(d.actions[news[j]].kind) ==>
      !(Live(m.status[acts[i]]) && Live(m.status[news[j]]))
  }

  ghost predicate ActionsOK(d: Diagram, m: Machine) {
    && |m.phases| == |d.phases| && |m.status| == |d.actions|
    && (forall q :: q in m.toDispatch || q in m.inProcess ==> q < |d.phases|)
    && LivesOK(d, m)
    && (forall q: nat :: q < |d.phases| ==> PhaseActionsOK(d, m, q))
    && (forall q: nat, r: nat :: q < |d.phases| && r < |d.phases| ==> NoConflict(d, m, q, r))
  }

  /** The invariant reads states, statuses, the tracked phases and the events only. */
  lemma SameForActions(d: Diagram, m: Machine, m': Machine)
    requires ActionsOK(d, m) && |m'.phases| == |d.phases|
    requires forall q :: 0 <= q < |m.phases| ==> m'.phases[q].state == m.phases[q].state
    requires m'.status == m.status && m'.toDispatch == m.toDispatch && m'.inProcess == m.inProcess && m'.trace == m.trace
    ensures ActionsOK(d, m')
  {
    forall q: nat | q < |d.phases| ensures PhaseActionsOK(d, m', q) {
      assert PhaseActionsOK(d, m, q);
    }
    forall q: nat, r: nat | q < |d.phases| && r < |d.phases| ensures NoConflict(d, m', q, r) {
      assert NoConflict(d, m, q, r);
    }
  }

  // ---------------------------------------------------------------- changes of status

  /** A step that takes an action out of play: it is skipped, interrupted or done. */
  predicate Settles(s: ActionStatus, t: ActionStatus) {
    s == t || (s == Unspecified && t == Skipped) || (s == Dispatched && (t == Interrupted || t == Done))
  }

  /** Every action settled or stayed, and the events kept up with that. */
  ghost predicate Tracked(d: Diagram, m: Machine, m': Machine) {
    && |m.status| == |m'.status| == |d.actions| && m.trace <= m'.trace
    && (forall a :: 0 <= a < |m.status| ==> Settles(m.status[a], m'.status[a]))
    && (LivesOK(d, m) ==> LivesOK(d, m'))
  }

  lemma NotifyKeepsLives(d: Diagram, m: Machine, a: nat, s: ActionStatus)
    requires |m.status| == |d.actions| && a < |d.actions| && m.status[a] == Dispatched && (s == Done || s == Interrupted)
    ensures Tracked(d, m, NotifyComplete(d, m.(status := m.status[a := s]), a, s))
  {
    var m' := NotifyComplete(d, m.(status := m.status[a := s]), a, s);
    if LivesOK(d, m) {
      forall b: nat | IsActorFinal(d, b) ensures LifeOf(m'.trace, b) == LifeFor(m'.status[b]) {
        assert d.ActionOK(d.actions[b].owner, b);
        LifeAppend(m.trace, ActionCompleteEvent(a, s), b);
      }
    }
  }

  lemma PreemptTracked(d: Diagram, m: Machine, a: nat)
    requires Fits(d, m) && a < |d.actions|
    ensures Tracked(d, m, Preempt(d, m, a)) && !Live(Preempt(d, m, a).status[a])
    ensures m.status[a] == Unspecified ==> Preempt(d, m, a).status[a] == Skipped
    ensures m.status[a] == Dispatched ==> Preempt(d, m, a).status[a] == Interrupted
    ensures forall b :: 0 <= b < |m.status| && b != a ==> Preempt(d, m, a).status[b] == m.status[b]
  {
    if m.status[a] == Dispatched {
      NotifyKeepsLives(d, m, a, Interrupted);
    }
  }

  lemma CompleteTracked(d: Diagram, m: Machine, a: nat)
    requires Fits(d, m) && a < |d.actions|
    ensures Tracked(d, m, Complete(d, m, a).m)
    ensures Complete(d, m, a).m.status[a] == (if m.status[a] == Dispatched then Done else m.status[a])
    ensures Complete(d, m, a).out.Raised? <==> m.status[a] == Unspecified
    ensures forall b :: 0 <= b < |m.status| && b != a ==> Complete(d, m, a).m.status[b] == m.status[b]
  {
    if m.status[a] == Dispatched {
      NotifyKeepsLives(d, m, a, Done);
    }
  }

  /** Only actions of `acts` changed. */
  ghost predicate Only(m: Machine, m': Machine, acts: seq<nat>) {
    |m.status| == |m'.status| && forall b :: 0 <= b < |m.status| && b !in acts ==> m'.status[b] == m.status[b]
  }

  lemma {:induction false} PreemptAllTracked(d: Diagram, m: Machine, acts: seq<nat>)
    requires Fits(d, m) && d.Named(acts)
    ensures var m' := PreemptAll(d, m, acts);
            Tracked(d, m, m') && Only(m, m', acts) && forall i :: 0 <= i < |acts| ==> Terminal(m'.status[acts[i]])
    decreases |acts|
  {
    if acts != [] {
      var m1 := Preempt(d, m, acts[0]);
      PreemptTracked(d, m, acts[0]);
      PreemptAllTracked(d, m1, acts[1..]);
      PreemptedChain(d, m, m1, PreemptAll(d, m1, acts[1..]), acts);
    }
  }

  lemma PreemptedChain(d: Diagram, m: Machine, m1: Machine, m2: Machine, acts: seq<nat>)
    requires acts != [] && |m2.status| == |d.actions| && d.Named(acts)
    requires Tracked(d, m, m1) && Only(m, m1, [acts[0]]) && !Live(m1.status[acts[0]])
    requires Tracked(d, m1, m2) && Only(m1, m2, acts[1..])
    requires forall i :: 0 <= i < |acts[1..]| ==> Terminal(m2.status[acts[1..][i]])
    ensures Tracked(d, m, m2) && Only(m, m2, acts) && forall i :: 0 <= i < |acts| ==> Terminal(m2.status[acts[i]])
  {
    forall i | 0 <= i < |acts| ensures Terminal(m2.status[acts[i]]) {
      if i > 0 {
        assert acts[1..][i - 1] == acts[i];
      }
    }
  }

  /** Dispatched actions may have become done, and nothing else changed. */
  ghost predicate OnlyDone(m: Machine, m': Machine)
    requires |m.status| == |m'.status|
  {
    forall a :: 0 <= a < |m.status| ==> m'.status[a] == m.status[a] || (m.status[a] == Dispatched && m'.status[a] == Done)
  }

  lemma CompletedChain(d: Diagram, m: Machine, m1: Machine, m2: Machine, acts: seq<nat>)
    requires acts != [] && Tracked(d, m, m1) && Only(m, m1, [acts[0]]) && OnlyDone(m, m1)
    requires Tracked(d, m1, m2) && Only(m1, m2, acts[1..]) && OnlyDone(m1, m2)
    ensures Tracked(d, m, m2) && Only(m, m2, acts) && OnlyDone(m, m2)
  {
  }

  lemma {:induction false} CompleteMetTracked(d: Diagram, e: Env, m: Machine, acts: seq<nat>)
    requires Fits(d, m) && d.Named(acts)
    ensures var m' := CompleteMet(d, e, m, acts).m;
            Tracked(d, m, m') && Only(m, m', acts) && OnlyDone(m, m')
    decreases |acts|
  {
    if acts != [] {
      var a, rest := acts[0], acts[1..];
      if m.status[a] != Dispatched {
        CompleteMetTracked(d, e, m, rest);
      } else if CheckStatus(d, e, m.effects, a) != Raises {
        var met := CheckStatus(d, e, m.effects, a) == Satisfied && d.actions[a].kind.HasRegularEnding();
        var m1 := if met then Complete(d, m, a).m else m;
        CompleteTracked(d, m, a);
        CompleteMetTracked(d, e, m1, rest);
        CompletedChain(d, m, m1, CompleteMet(d, e, m1, rest).m, acts);
      }
    }
  }

  lemma {:induction false} PreemptConflictingTracked(d: Diagram, m: Machine, acts: seq<nat>, b: nat)
    requires Fits(d, m) && b < |d.actions| && d.Named(acts)
    ensures var m' := PreemptConflicting(d, m, acts, b);
            Tracked(d, m, m') && Only(m, m', acts) && NoneLive(d, m', acts, b)
    decreases |acts|
  {
    if acts != [] {
      PreemptTracked(d, m, acts[0]);
      var hit := d.actions[acts[0]].kind.InConflictWith(d.actions[b].kind);
      PreemptConflictingTracked(d, if hit then Preempt(d, m, acts[0]) else m, acts[1..], b);
    }
  }

  /** No action of `acts` that conflicts with `b` is live. */
  ghost predicate NoneLive(d: Diagram, m: Machine, acts: seq<nat>, b: nat)
    requires |m.status| == |d.actions| && d.Named(acts) && b < |d.actions|
  {
    forall i :: 0 <= i < |acts| && d.actions[acts[i]].kind.InConflictWith(d.actions[b].kind) ==> !Live(m.status[acts[i]])
  }

  lemma {:induction false} PreemptForAllTracked(d: Diagram, m: Machine, acts: seq<nat>, news: seq<nat>)
    requires Fits(d, m) && d.Named(acts) && d.Named(news)
    ensures var m' := PreemptForAll(d, m, acts, news);
            Tracked(d, m, m') && Only(m, m', acts) && forall j :: 0 <= j < |news| ==> NoneLive(d, m', acts, news[j])
    decreases |news|
  {
    if news != [] {
      var m1 := PreemptConflicting(d, m, acts, news[0]);
      PreemptConflictingTracked(d, m, acts, news[0]);
      PreemptForAllTracked(d, m1, acts, news[1..]);
      ForAllChain(d, m, m1, PreemptForAll(d, m1, acts, news[1..]), acts, news);
    }
  }

  lemma ForAllChain(d: Diagram, m: Machine, m1: Machine, m2: Machine, acts: seq<nat>, news: seq<nat>)
    requires |m1.status| == |m2.status| == |d.actions| && d.Named(acts) && d.Named(news) && news != []
    requires Tracked(d, m, m1) && Only(m, m1, acts) && NoneLive(d, m1, acts, news[0])
    requires Tracked(d, m1, m2) && Only(m1, m2, acts)
    requires forall j :: 0 <= j < |news[1..]| ==> NoneLive(d, m2, acts, news[1..][j])
    ensures Tracked(d, m, m2) && Only(m, m2, acts) && forall j :: 0 <= j < |news| ==> NoneLive(d, m2, acts, news[j])
  {
    NoneLivePersists(d, m1, m2, acts, news[0]);
    forall j | 0 <= j < |news| ensures NoneLive(d, m2, acts, news[j]) {
      if j > 0 {
        assert NoneLive(d, m2, acts, news[1..][j - 1]);
      }
    }
  }

  lemma NoneLivePersists(d: Diagram, m: Machine, m': Machine, acts: seq<nat>, b: nat)
    requires Tracked(d, m, m') && d.Named(acts) && b < |d.actions| && NoneLive(d, m, acts, b)
    ensures NoneLive(d, m', acts, b)
  {
  }

  // ---------------------------------------------------------------- settling actions of running phases

  lemma SettlingKeepsActions(d: Diagram, m: Machine, m': Machine)
    requires ActionsOK(d, m) && Tracked(d, m, m') && |m'.phases| == |d.phases|
    requires forall q :: 0 <= q < |m.phases| ==> m'.phases[q].state == m.phases[q].state
    requires m'.toDispatch == m.toDispatch && m'.inProcess == m.inProcess
    requires forall q: nat :: q < |d.phases| ==> PhaseUntouched(d, m, m', q) || m.phases[q].state == Run
    ensures ActionsOK(d, m')
  {
    forall q: nat | q < |d.phases| ensures PhaseActionsOK(d, m', q) {
      assert PhaseActionsOK(d, m, q);
    }
    forall q: nat, r: nat | q < |d.phases| && r < |d.phases| ensures NoConflict(d, m', q, r) {
      assert NoConflict(d, m, q, r);
    }
  }

  ghost predicate PhaseUntouched(d: Diagram, m: Machine, m': Machine, q: nat)
    requires q < |d.phases|
  {
    forall a :: a in Finals(d, q) ==> a < |m.status| == |m'.status| && m'.status[a] == m.status[a]
  }

  lemma OtherPhasesUntouched(d: Diagram, m: Machine, m': Machine, p: nat)
    requires p < |d.phases| && |m.status| == |d.actions| && Only(m, m', Finals(d, p))
    ensures forall q: nat :: q < |d.phases| && q != p ==> PhaseUntouched(d, m, m', q)
  {
    forall q: nat, a | q < |d.phases| && q != p && a in Finals(d, q)
      ensures a < |m.status| && m'.status[a] == m.status[a]
    {
      assert d.ActionOK(q, a);
    }
  }

  lemma CompletingKeepsActions(d: Diagram, e: Env, m: Machine, p: nat)
    requires Pre(d, m, p) && ActionsOK(d, m) && m.phases[p].state == Run
    ensures var m' := CompleteMet(d, e, m, Finals(d, p)).m;
            ActionsOK(d, m') && Later(m, m')
  {
    CompleteMetTracked(d, e, m, Finals(d, p));
    var m' := CompleteMet(d, e, m, Finals(d, p)).m;
    OtherPhasesUntouched(d, m, m', p);
    SettlingKeepsActions(d, m, m');
  }

  // ---------------------------------------------------------------- starting an actor phase

  /** No final action of `q` that conflicts with one of `p` is live. */
  ghost predicate Cleared(d: Diagram, m: Machine, q: nat, p: nat)
    requires |m.status| == |d.actions| && q < |d.phases| && p < |d.phases|
  {
    SameActor(d, q, p) ==> forall j :: 0 <= j < |Finals(d, p)| ==> NoneLive(d, m, Finals(d, q), Finals(d, p)[j])
  }

  lemma ClearedPersists(d: Diagram, m: Machine, m': Machine, q: nat, p: nat)
    requires Tracked(d, m, m') && q < |d.phases| && p < |d.phases| && Cleared(d, m, q, p)
    ensures Cleared(d, m', q, p)
  {
    if SameActor(d, q, p) {
      forall j | 0 <= j < |Finals(d, p)| ensures NoneLive(d, m', Finals(d, q), Finals(d, p)[j]) {
        assert NoneLive(d, m, Finals(d, q), Finals(d, p)[j]);
      }
    }
  }

  ghost predicate Resolved(d: Diagram, m: Machine, m': Machine, ids: seq<nat>, tracked: set<nat>, p: nat)
    requires |m'.status| == |d.actions| && p < |d.phases|
  {
    && Tracked(d, m, m')
    && (forall q: nat :: q < |d.phases| ==> q in tracked || PhaseUntouched(d, m, m', q))
    && (forall q: nat :: q < |d.phases| && q in ids && q in tracked ==> Cleared(d, m', q, p))
  }

  lemma {:induction false} ResolveTrackedClears(d: Diagram, m: Machine, ids: seq<nat>, tracked: set<nat>, p: nat)
    requires Fits(d, m) && p < |d.phases| && forall i :: 0 <= i < |ids| ==> ids[i] < |d.phases|
    ensures Resolved(d, m, ResolveTracked(d, m, ids, tracked, p), ids, tracked, p)
    decreases |ids|
  {
    if ids != [] {
      var m1 := if ids[0] in tracked then DetectAndResolveConflict(d, m, ids[0], p) else m;
      ResolveOneClears(d, m, ids[0], p);
      ResolveTrackedClears(d, m1, ids[1..], tracked, p);
      ResolvedChain(d, m, m1, ResolveTracked(d, m1, ids[1..], tracked, p), ids, tracked, p);
    }
  }

  /** Resolving the conflicts of one phase, and then those of the others. */
  lemma ResolvedChain(d: Diagram, m: Machine, m1: Machine, m2: Machine, ids: seq<nat>, tracked: set<nat>, p: nat)
    requires |m1.status| == |m2.status| == |d.actions| && p < |d.phases| && ids != [] && ids[0] < |d.phases|
    requires Tracked(d, m, m1) && (ids[0] in tracked ==> Cleared(d, m1, ids[0], p))
    requires forall r: nat :: r < |d.phases| ==> (r == ids[0] && r in tracked) || PhaseUntouched(d, m, m1, r)
    requires Resolved(d, m1, m2, ids[1..], tracked, p)
    ensures Resolved(d, m, m2, ids, tracked, p)
  {
    forall r: nat | r < |d.phases| && r in ids && r in tracked ensures Cleared(d, m2, r, p) {
      if r == ids[0] {
        ClearedPersists(d, m1, m2, r, p);
      } else {
        assert r in ids[1..];
      }
    }
    forall r: nat | r < |d.phases| && r !in tracked ensures PhaseUntouched(d, m, m2, r) {
      assert PhaseUntouched(d, m1, m2, r);
      assert PhaseUntouched(d, m, m1, r);
    }
  }

  lemma ResolveOneClears(d: Diagram, m: Machine, q: nat, p: nat)
    requires Fits(d, m) && p < |d.phases| && q < |d.phases|
    ensures var m' := DetectAndResolveConflict(d, m, q, p);
            Tracked(d, m, m') && Cleared(d, m', q, p)
            && forall r: nat :: r < |d.phases| && r != q ==> PhaseUntouched(d, m, m', r)
  {
    var m' := DetectAndResolveConflict(d, m, q, p);
    if SameActor(d, q, p) {
      PreemptForAllTracked(d, m, Finals(d, q), Finals(d, p));
      OtherPhasesUntouched(d, m, m', q);
    } else {
      OtherPhasesUntouched(d, m, m', q);
    }
  }

  /** Notifying the executor resolves every conflict of the starting phase with a tracked one. */
  lemma NotifyStartedClears(d: Diagram, m: Machine, p: nat)
    requires Pre(d, m, p)
    ensures var m' := NotifyStarted(d, m, p);
            && Tracked(d, m, m')
            && (forall q: nat :: q < |d.phases| ==> q in m.toDispatch || q in m.inProcess || PhaseUntouched(d, m, m', q))
            && (forall q: nat :: q < |d.phases| && (q in m.toDispatch || q in m.inProcess) ==> Cleared(d, m', q, p))
  {
    var m1 := ResolveTracked(d, m, d.idOrder, m.toDispatch, p);
    ResolveTrackedClears(d, m, d.idOrder, m.toDispatch, p);
    var m2 := m1.(toDispatch := m1.toDispatch + {p});
    assert Tracked(d, m1, m2);
    ResolveTrackedClears(d, m2, d.idOrder, m2.inProcess, p);
    var m' := ResolveTracked(d, m2, d.idOrder, m2.inProcess, p);
    forall q: nat | q < |d.phases| && (q in m.toDispatch || q in m.inProcess) ensures Cleared(d, m', q, p) {
      if q in m.toDispatch {
        assert Cleared(d, m1, q, p);
        ClearedPersists(d, m2, m', q, p);
      }
    }
    forall q: nat | q < |d.phases| && q !in m.toDispatch && q !in m.inProcess ensures PhaseUntouched(d, m, m', q) {
      assert PhaseUntouched(d, m, m1, q) && PhaseUntouched(d, m2, m', q);
    }
  }

  /** Setting the notified phase running keeps the invariant: it conflicts with no live action. */
  lemma ActorRunKeepsActions(d: Diagram, m: Machine, p: nat)
    requires Pre(d, m, p) && ActionsOK(d, m) && m.phases[p].state == Start && d.phases[p].kind.ActorAction?
    ensures ActionsOK(d, SetState(d, NotifyStarted(d, m, p), p, Run))
    ensures Later(m, NotifyStarted(d, m, p))
  {
    var m1 := NotifyStarted(d, m, p);
    NotifyStartedClears(d, m, p);
    NewRunKeepsPhases(d, m, m1, p);
    NewRunKeepsConflicts(d, m, m1, p);
  }

  lemma NewRunKeepsPhases(d: Diagram, m: Machine, m1: Machine, p: nat)
    requires Pre(d, m, p) && ActionsOK(d, m) && m.phases[p].state == Start && d.phases[p].kind.ActorAction?
    requires Fits(d, m1) && m1.phases == m.phases && Tracked(d, m, m1)
    requires m1.toDispatch == m.toDispatch + {p} && m1.inProcess == m.inProcess
    requires forall q: nat :: q < |d.phases| ==> q in m.toDispatch || q in m.inProcess || PhaseUntouched(d, m, m1, q)
    ensures var m2 := SetState(d, m1, p, Run); forall q: nat :: q < |d.phases| ==> PhaseActionsOK(d, m2, q)
  {
    var m2 := SetState(d, m1, p, Run);
    assert PhaseActionsOK(d, m, p);
    forall q: nat | q < |d.phases| ensures PhaseActionsOK(d, m2, q) {
      assert PhaseActionsOK(d, m, q);
      assert q in m.toDispatch || q in m.inProcess || PhaseUntouched(d, m, m1, q);
    }
  }

  lemma NewRunKeepsConflicts(d: Diagram, m: Machine, m1: Machine, p: nat)
    requires Pre(d, m, p) && ActionsOK(d, m) && m.phases[p].state == Start && d.phases[p].kind.ActorAction?
    requires Fits(d, m1) && m1.phases == m.phases && Tracked(d, m, m1)
    requires forall q: nat :: q < |d.phases| && (q in m.toDispatch || q in m.inProcess) ==> Cleared(d, m1, q, p)
    ensures var m2 := SetState(d, m1, p, Run);
            forall q: nat, r: nat :: q < |d.phases| && r < |d.phases| ==> NoConflict(d, m2, q, r)
  {
    var m2 := SetState(d, m1, p, Run);
    forall q: nat, r: nat | q < |d.phases| && r < |d.phases| ensures NoConflict(d, m2, q, r) {
      assert NoConflict(d, m, q, r) && PhaseActionsOK(d, m, q) && PhaseActionsOK(d, m, r);
      if q == p && r != p {
        NewRunConflict(d, m, m1, p, r);
      } else if r == p && q != p {
        NewRunConflict(d, m, m1, p, q);
      }
    }
  }

  lemma NewRunConflict(d: Diagram, m: Machine, m1: Machine, p: nat, q: nat)
    requires Fits(d, m) && |m1.status| == |d.actions| && p < |d.phases| && q < |d.phases|
    requires PhaseActionsOK(d, m, q) && Tracked(d, m, m1)
    requires (q in m.toDispatch || q in m.inProcess) ==> Cleared(d, m1, q, p)
    ensures SameActor(d, q, p) && m.phases[q].state == Run ==>
              NoLiveConflict(d, m1, Finals(d, q), Finals(d, p)) && NoLiveConflict(d, m1, Finals(d, p), Finals(d, q))
  {
    var acts, news := Finals(d, q), Finals(d, p);
    if SameActor(d, q, p) && m.phases[q].state == Run {
      forall i, j | 0 <= i < |acts| && 0 <= j < |news| && d.actions[acts[i]].kind.InConflictWith(d.actions[news[j]].kind)
        ensures !Live(m1.status[acts[i]])
      {
        assert acts[i] in Finals(d, q);
        if q in m.toDispatch || q in m.inProcess {
          assert NoneLive(d, m1, acts, news[j]);
        }
      }
      ConflictIsSymmetric(d);
    }
  }

  lemma ConflictIsSymmetric(d: Diagram)
    ensures forall a: nat, b: nat :: a < |d.actions| && b < |d.actions| ==>
              d.actions[a].kind.InConflictWith(d.actions[b].kind) == d.actions[b].kind.InConflictWith(d.actions[a].kind)
  {
    forall a: nat, b: nat | a < |d.actions| && b < |d.actions|
      ensures d.actions[a].kind.InConflictWith(d.actions[b].kind) == d.actions[b].kind.InConflictWith(d.actions[a].kind)
    {
      var x, y := d.actions[a].kind, d.actions[b].kind;
      assert x.Dimensions() * y.Dimensions() == y.Dimensions() * x.Dimensions();
      if x.ChangeParameter? && !y.ChangeParameter? {
        assert x.Dimensions() == {};
      } else if y.ChangeParameter? && !x.ChangeParameter? {
        assert y.Dimensions() == {};
      }
    }
  }
}
