/** What one update of the phase machine does, as functions on machine values.

  Each function mirrors one member of the source's phase classes. An exception becomes
  `Raised`, which keeps the machine reached when it was thrown.
 */
module PhaseSemantics {
  import opened Wrappers
  import opened Scenario

  datatype ActionStatus = Unspecified | Skipped | Dispatched | Interrupted | Done

  /** The run-time fields of a phase. */
  datatype PhaseRt = PhaseRt(
    state: PhaseState,
    position: nat,
    childrenDone: bool,
    initPending: bool,
    execOrder: seq<nat>)

  /** Things done to the world, in order. Only phase state transitions do any. */
  datatype Effect =
    | ApplyStart(phase: nat)
    | ApplyEnd(phase: nat)
    | InitializeActor(phase: nat)
    | ApplyAction(action: nat)

  /** Events published to the simulation clients. */
  datatype Event =
    | ActionEvent(phase: nat, actions: seq<nat>)
    | ActionCompleteEvent(action: nat, status: ActionStatus)

  datatype Machine = Machine(
    phases: seq<PhaseRt>,
    status: seq<ActionStatus>,
    toDispatch: set<nat>,
    inProcess: set<nat>,
    transition: bool,
    effects: seq<Effect>,
    trace: seq<Event>)

  datatype Verdict = Satisfied | Unsatisfied | Raises

  /** The world seen during one event: leaf conditions and action objectives may depend on
      everything done so far; `raises` says which operations throw; `sort` stands for the
      race track and yields execution orders for mix phases, or None for its errors. */
  datatype Env = Env(
    leaf: (nat, seq<Effect>) -> Verdict,
    action: (nat, seq<Effect>) -> Verdict,
    raises: (Effect, seq<Effect>) -> bool,
    sort: (nat, seq<PhaseRt>, seq<Effect>) -> Option<map<nat, seq<nat>>>)

  datatype Cause = SuccessReported | FailureReported | EngineError

  datatype Outcome = Returned(value: bool) | Raised(cause: Cause)

  datatype Step = Step(m: Machine, out: Outcome)

  // ---------------------------------------------------------------- well-formedness

  predicate IsOrder(order: seq<nat>, k: nat) {
    && |order| == k
    && (forall i :: 0 <= i < |order| ==> order[i] < k)
    && (forall i, j :: 0 <= i < j < |order| ==> order[i] != order[j])
    && (forall c: nat :: c < k ==> c in order)
  }

  ghost predicate OrderOK(d: Diagram, phases: seq<PhaseRt>, q: nat)
    requires q < |d.phases| == |phases|
  {
    phases[q].execOrder == [] || IsOrder(phases[q].execOrder, |d.phases[q].children|)
  }

  ghost predicate Fits(d: Diagram, m: Machine) {
    && |m.phases| == |d.phases|
    && |m.status| == |d.actions|
    && (forall q: nat :: q < |d.phases| ==> OrderOK(d, m.phases, q))
  }

  predicate OrdersOK(d: Diagram, p: nat, orders: map<nat, seq<nat>>)
    requires p < |d.phases|
  {
    && p in orders
    && forall k :: k in orders ==>
         && p <= k < d.phases[p].last && k < |d.phases|
         && d.phases[k].kind.Mix? && IsOrder(orders[k], |d.phases[k].children|)
  }

  ghost predicate Pre(d: Diagram, m: Machine, p: nat) {
    Fits(d, m) && p < |d.phases| && p < d.phases[p].last <= |d.phases|
  }

  // ---------------------------------------------------------------- ranks

  function RankSum(phases: seq<PhaseRt>): nat {
    RanksUpTo(phases, |phases|)
  }

  function RanksUpTo(phases: seq<PhaseRt>, n: nat): nat
    requires n <= |phases|
  {
    if n == 0 then 0 else RanksUpTo(phases, n - 1) + Rank(phases[n - 1].state)
  }

  lemma {:induction false} RanksGrow(xs: seq<PhaseRt>, ys: seq<PhaseRt>, n: nat)
    requires n <= |xs| == |ys|
    requires forall q :: 0 <= q < n ==> Rank(xs[q].state) <= Rank(ys[q].state)
    ensures RanksUpTo(xs, n) <= RanksUpTo(ys, n)
    ensures (exists q :: 0 <= q < n && Rank(xs[q].state) < Rank(ys[q].state)) ==> RanksUpTo(xs, n) < RanksUpTo(ys, n)
  {
    if n > 0 {
      RanksGrow(xs, ys, n - 1);
    }
  }

  lemma RankSumGrows(xs: seq<PhaseRt>, ys: seq<PhaseRt>)
    requires |xs| == |ys|
    requires forall q :: 0 <= q < |xs| ==> Rank(xs[q].state) <= Rank(ys[q].state)
    ensures RankSum(xs) <= RankSum(ys)
    ensures (exists q :: 0 <= q < |xs| && Rank(xs[q].state) < Rank(ys[q].state)) ==> RankSum(xs) < RankSum(ys)
  {
    RanksGrow(xs, ys, |xs|);
  }

  lemma {:induction false} RanksBounded(xs: seq<PhaseRt>, n: nat)
    requires n <= |xs|
    ensures RanksUpTo(xs, n) <= 3 * n
  {
    if n > 0 {
      RanksBounded(xs, n - 1);
    }
  }

  lemma RankSumBounded(xs: seq<PhaseRt>)
    ensures RankSum(xs) <= 3 * |xs|
  {
    RanksBounded(xs, |xs|);
  }

  /** What every operation on the subtree `[lo, hi)` keeps: other phases are untouched, no
      phase goes back, and a newly set transition flag means that some phase advanced. */
  ghost predicate Frame(d: Diagram, m: Machine, m': Machine, lo: nat, hi: nat) {
    && Fits(d, m')
    && |m.phases| == |m'.phases|
    && (forall q :: 0 <= q < |m.phases| ==>
          if lo <= q < hi then Rank(m.phases[q].state) <= Rank(m'.phases[q].state)
          else m'.phases[q] == m.phases[q])
    && RankSum(m.phases) <= RankSum(m'.phases)
    && (m.transition ==> m'.transition)
    && (m'.transition ==> m.transition || RankSum(m.phases) < RankSum(m'.phases))
  }

  // ---------------------------------------------------------------- field updates

  function SetState(d: Diagram, m: Machine, p: nat, s: PhaseState): (r: Machine)
    requires Fits(d, m) && p < |d.phases| && Rank(m.phases[p].state) <= Rank(s)
    ensures Frame(d, m, r, p, p + 1)
    ensures Rank(m.phases[p].state) < Rank(s) ==> RankSum(m.phases) < RankSum(r.phases)
  {
    var r := m.(phases := m.phases[p := m.phases[p].(state := s)]);
    RankSumGrows(m.phases, r.phases);
    assert forall q: nat :: q < |d.phases| ==> OrderOK(d, m.phases, q) ==> OrderOK(d, r.phases, q);
    r
  }

  function SetRt(d: Diagram, m: Machine, p: nat, rt: PhaseRt): (r: Machine)
    requires Fits(d, m) && p < |d.phases|
    requires rt.state == m.phases[p].state && rt.execOrder == m.phases[p].execOrder
    ensures Frame(d, m, r, p, p + 1)
  {
    var r := m.(phases := m.phases[p := rt]);
    RankSumGrows(m.phases, r.phases);
    assert forall q: nat :: q < |d.phases| ==> OrderOK(d, m.phases, q) ==> OrderOK(d, r.phases, q);
    r
  }

  function SetPosition(d: Diagram, m: Machine, p: nat, position: nat, childrenDone: bool): (r: Machine)
    requires Fits(d, m) && p < |d.phases|
    ensures Frame(d, m, r, p, p + 1)
  {
    SetRt(d, m, p, m.phases[p].(position := position, childrenDone := childrenDone))
  }

  function SetChildrenDone(d: Diagram, m: Machine, p: nat, done: bool): (r: Machine)
    requires Fits(d, m) && p < |d.phases|
    ensures Frame(d, m, r, p, p + 1)
  {
    SetRt(d, m, p, m.phases[p].(childrenDone := done))
  }

  function ClearInitPending(d: Diagram, m: Machine, p: nat): (r: Machine)
    requires Fits(d, m) && p < |d.phases|
    ensures Frame(d, m, r, p, p + 1)
  {
    SetRt(d, m, p, m.phases[p].(initPending := false))
  }

  /** Installs the race track's execution orders. */
  function SetExecOrders(d: Diagram, m: Machine, p: nat, orders: map<nat, seq<nat>>): (r: Machine)
    requires Fits(d, m) && p < |d.phases| && OrdersOK(d, p, orders)
    ensures Frame(d, m, r, p, d.phases[p].last)
    ensures forall q :: 0 <= q < |m.phases| && m.phases[q].execOrder != [] ==> r.phases[q].execOrder != []
    ensures forall q :: 0 <= q < |m.phases| ==> r.phases[q] == m.phases[q].(execOrder := r.phases[q].execOrder)
    ensures r.phases[p].execOrder == orders[p]
    ensures r == m.(phases := r.phases)
  {
    var phases := WithOrders(m.phases, orders);
    RankSumGrows(m.phases, phases);
    RankSumGrows(phases, m.phases);
    OrdersFit(d, m, p, orders);
    m.(phases := phases)
  }

  function WithOrders(phases: seq<PhaseRt>, orders: map<nat, seq<nat>>): seq<PhaseRt> {
    seq(|phases|, q requires 0 <= q < |phases| =>
          if q in orders then phases[q].(execOrder := orders[q]) else phases[q])
  }

  lemma OrdersFit(d: Diagram, m: Machine, p: nat, orders: map<nat, seq<nat>>)
    requires Fits(d, m) && p < |d.phases| && OrdersOK(d, p, orders)
    ensures forall q: nat :: q < |d.phases| ==> OrderOK(d, WithOrders(m.phases, orders), q)
    ensures forall k :: k in orders ==> orders[k] != []
  {
    forall q: nat | q < |d.phases| ensures OrderOK(d, WithOrders(m.phases, orders), q) {
      assert OrderOK(d, m.phases, q);
    }
    forall k | k in orders ensures orders[k] != [] {
      CompositeHasChildren(d, k);
    }
  }

  // ---------------------------------------------------------------- conditions

  /** Every final action has been skipped, interrupted or done. */
  predicate Terminal(s: ActionStatus) {
    s == Skipped || s == Interrupted || s == Done
  }

  predicate HasCompleted(d: Diagram, m: Machine, p: nat)
    requires |m.phases| == |d.phases| && |m.status| == |d.actions| && p < |d.phases|
  {
    match d.phases[p].kind
    case Mix => m.phases[p].childrenDone
    case Serial => m.phases[p].childrenDone
    case _ => forall i :: 0 <= i < |Finals(d, p)| ==> Terminal(m.status[Finals(d, p)[i]])
  }

  function FromBool(b: bool): Verdict {
    if b then Satisfied else Unsatisfied
  }

  function Check(d: Diagram, e: Env, m: Machine, c: Condition): Verdict
    requires |m.phases| == |d.phases| && |m.status| == |d.actions|
    decreases c, 0
  {
    match c
    case Leaf(id) => e.leaf(id, m.effects)
    case PhaseStateIs(q, s) => if q < |m.phases| then FromBool(m.phases[q].state == s) else Raises
    case ActionsComplete(q) => if q < |m.phases| then FromBool(HasCompleted(d, m, q)) else Raises
    case Or(ops) => CheckUntil(d, e, m, ops, Satisfied)
    case And(ops) => CheckUntil(d, e, m, ops, Unsatisfied)
  }

  /** Evaluates operands until one yields `stop` or throws. */
  function CheckUntil(d: Diagram, e: Env, m: Machine, ops: seq<Condition>, stop: Verdict): Verdict
    requires |m.phases| == |d.phases| && |m.status| == |d.actions|
    decreases ops, 1
  {
    if ops == [] then (if stop == Satisfied then Unsatisfied else Satisfied)
    else
      var v := Check(d, e, m, ops[0]);
      if v == stop || v == Raises then v else CheckUntil(d, e, m, ops[1..], stop)
  }

  /** The objective check of an action; a position action's check is not implemented and throws. */
  function CheckStatus(d: Diagram, e: Env, effects: seq<Effect>, a: nat): Verdict
    requires a < |d.actions|
  {
    match d.actions[a].kind
    case Position => Raises
    case UserDefined(instantaneous) => FromBool(instantaneous)
    case LaneChange => e.action(a, effects)
    case LateralOffset => e.action(a, effects)
    case LongitudinalDistance(_) => e.action(a, effects)
    case Speed(fromPath, _) => if fromPath then Satisfied else e.action(a, effects)
    case _ => Satisfied
  }

  predicate NoneRaises(d: Diagram, e: Env, effects: seq<Effect>, acts: seq<nat>)
    requires d.Named(acts)
  {
    forall i :: 0 <= i < |acts| ==> CheckStatus(d, e, effects, acts[i]) != Raises
  }

  // ---------------------------------------------------------------- actions

  /** Publishes the completion of an actor action; system actions publish nothing. */
  function NotifyComplete(d: Diagram, m: Machine, a: nat, s: ActionStatus): Machine
    requires a < |d.actions|
  {
    if d.actions[a].kind.IsSystem() then m
    else m.(trace := m.trace + [ActionCompleteEvent(a, s)])
  }

  function Preempt(d: Diagram, m: Machine, a: nat): (r: Machine)
    requires Fits(d, m) && a < |d.actions|
    ensures Frame(d, m, r, 0, 0) && r == m.(status := r.status, trace := r.trace)
  {
    match m.status[a]
    case Unspecified => m.(status := m.status[a := Skipped])
    case Dispatched => NotifyComplete(d, m.(status := m.status[a := Interrupted]), a, Interrupted)
    case _ => m
  }

  /** Completes an action; throws an internal error if it was never dispatched. */
  function Complete(d: Diagram, m: Machine, a: nat): (r: Step)
    requires Fits(d, m) && a < |d.actions|
    ensures Frame(d, m, r.m, 0, 0) && r.m == m.(status := r.m.status, trace := r.m.trace)
  {
    match m.status[a]
    case Unspecified => Step(m, Raised(EngineError))
    case Dispatched => Step(NotifyComplete(d, m.(status := m.status[a := Done]), a, Done), Returned(true))
    case _ => Step(m, Returned(true))
  }

  function PreemptAll(d: Diagram, m: Machine, acts: seq<nat>): (r: Machine)
    requires Fits(d, m) && d.Named(acts)
    ensures Frame(d, m, r, 0, 0) && r == m.(status := r.status, trace := r.trace)
    decreases |acts|
  {
    if acts == [] then m
    else PreemptAll(d, Preempt(d, m, acts[0]), acts[1..])
  }

  /** Marks every unspecified action of `acts` as dispatched. */
  function DispatchAll(d: Diagram, m: Machine, acts: seq<nat>): (r: Machine)
    requires Fits(d, m) && d.Named(acts)
    ensures Frame(d, m, r, 0, 0) && r == m.(status := r.status)
    decreases |acts|
  {
    if acts == [] then m
    else
      var m1 := if m.status[acts[0]] == Unspecified then m.(status := m.status[acts[0] := Dispatched]) else m;
      DispatchAll(d, m1, acts[1..])
  }

  /** Completes the dispatched actions whose objective is met. */
  function CompleteMet(d: Diagram, e: Env, m: Machine, acts: seq<nat>): (r: Step)
    requires Fits(d, m) && d.Named(acts)
    ensures Frame(d, m, r.m, 0, 0) && r.m == m.(status := r.m.status, trace := r.m.trace)
    decreases |acts|
  {
    if acts == [] then Step(m, Returned(true))
    else if m.status[acts[0]] == Dispatched then
      var v := CheckStatus(d, e, m.effects, acts[0]);
      if v == Raises then Step(m, Raised(EngineError))
      else
        var m1 := if v == Satisfied && d.actions[acts[0]].kind.HasRegularEnding()
                  then Complete(d, m, acts[0]).m else m;
        CompleteMet(d, e, m1, acts[1..])
    else CompleteMet(d, e, m, acts[1..])
  }

  /** Applies one effect, which may throw. */
  function Apply(d: Diagram, e: Env, m: Machine, eff: Effect): (r: Step)
    requires Fits(d, m) && (eff.ApplyAction? ==> eff.action < |d.actions|)
    ensures Frame(d, m, r.m, 0, 0) && r.m == m.(effects := r.m.effects)
  {
    var m1 := m.(effects := m.effects + [eff]);
    if eff.ApplyAction? && d.actions[eff.action].kind.ScenarioSuccess? then Step(m1, Raised(SuccessReported))
    else if eff.ApplyAction? && d.actions[eff.action].kind.ScenarioFailure? then Step(m1, Raised(FailureReported))
    else if e.raises(eff, m.effects) then Step(m1, Raised(EngineError))
    else Step(m1, Returned(true))
  }

  function ApplyAll(d: Diagram, e: Env, m: Machine, acts: seq<nat>): (r: Step)
    requires Fits(d, m) && d.Named(acts)
    ensures Frame(d, m, r.m, 0, 0) && r.m == m.(effects := r.m.effects)
    decreases |acts|
  {
    if acts == [] then Step(m, Returned(true))
    else
      var r1 := Apply(d, e, m, ApplyAction(acts[0]));
      if r1.out.Raised? then r1 else ApplyAll(d, e, r1.m, acts[1..])
  }

  // ---------------------------------------------------------------- conflicts

  predicate SameActor(d: Diagram, p: nat, q: nat)
    requires p < |d.phases| && q < |d.phases|
  {
    d.phases[p].kind.ActorAction? && d.phases[q].kind.ActorAction? && d.phases[p].kind.actor == d.phases[q].kind.actor
  }

  /** Preempts the actions of `acts` that conflict with the new action `b`. */
  function PreemptConflicting(d: Diagram, m: Machine, acts: seq<nat>, b: nat): (r: Machine)
    requires Fits(d, m) && b < |d.actions| && d.Named(acts)
    ensures Frame(d, m, r, 0, 0) && r == m.(status := r.status, trace := r.trace)
    decreases |acts|
  {
    if acts == [] then m
    else
      var m1 := if d.actions[acts[0]].kind.InConflictWith(d.actions[b].kind) then Preempt(d, m, acts[0]) else m;
      PreemptConflicting(d, m1, acts[1..], b)
  }

  function PreemptForAll(d: Diagram, m: Machine, acts: seq<nat>, news: seq<nat>): (r: Machine)
    requires Fits(d, m)
    requires d.Named(acts)
    requires d.Named(news)
    ensures Frame(d, m, r, 0, 0) && r == m.(status := r.status, trace := r.trace)
    decreases |news|
  {
    if news == [] then m
    else PreemptForAll(d, PreemptConflicting(d, m, acts, news[0]), acts, news[1..])
  }

  /** Resolves the conflicts of phase `q` with the starting phase `p`: the new phase wins. */
  function DetectAndResolveConflict(d: Diagram, m: Machine, q: nat, p: nat): (r: Machine)
    requires Fits(d, m) && p < |d.phases| && q < |d.phases|
    ensures Frame(d, m, r, 0, 0) && r == m.(status := r.status, trace := r.trace)
  {
    if SameActor(d, q, p) then PreemptForAll(d, m, Finals(d, q), Finals(d, p)) else m
  }

  /** Resolves conflicts of every phase of `ids` that is in `tracked` with the starting phase `p`. */
  function ResolveTracked(d: Diagram, m: Machine, ids: seq<nat>, tracked: set<nat>, p: nat): (r: Machine)
    requires Fits(d, m) && p < |d.phases|
    requires forall i :: 0 <= i < |ids| ==> ids[i] < |d.phases|
    ensures Frame(d, m, r, 0, 0) && r == m.(status := r.status, trace := r.trace)
    decreases |ids|
  {
    if ids == [] then m
    else
      var m1 := if ids[0] in tracked then DetectAndResolveConflict(d, m, ids[0], p) else m;
      ResolveTracked(d, m1, ids[1..], tracked, p)
  }

  function NotifyStarted(d: Diagram, m: Machine, p: nat): (r: Machine)
    requires Fits(d, m) && p < |d.phases|
    ensures Frame(d, m, r, 0, 0)
    ensures r == m.(status := r.status, trace := r.trace, toDispatch := m.toDispatch + {p})
  {
    var m1 := ResolveTracked(d, m, d.idOrder, m.toDispatch, p);
    var m2 := m1.(toDispatch := m1.toDispatch + {p});
    ResolveTracked(d, m2, d.idOrder, m2.inProcess, p)
  }

  // ---------------------------------------------------------------- transitions

  function OnStart(d: Diagram, e: Env, m: Machine, p: nat): (r: Step)
    requires Pre(d, m, p) && m.phases[p].state == Idle
    ensures Frame(d, m, r.m, p, p + 1) && r.m.phases[p] == m.phases[p].(state := Start)
    ensures RankSum(m.phases) < RankSum(r.m.phases)
  {
    var m1 := SetState(d, m, p, Start);
    if d.phases[p].startCondition.Some? then Apply(d, e, m1, ApplyStart(p)) else Step(m1, Returned(true))
  }

  /** Bookkeeping before a phase is set running: conflicts for an actor phase, dispatch for a system phase. */
  function BeforeRun(d: Diagram, m: Machine, p: nat): (r: Machine)
    requires Fits(d, m) && p < |d.phases|
    ensures Frame(d, m, r, 0, 0) && r.phases == m.phases && r.effects == m.effects
  {
    match d.phases[p].kind
    case ActorAction(_) => NotifyStarted(d, m, p)
    case SystemAction => DispatchAll(d, m, Finals(d, p))
    case _ => m
  }

  /** Applies the end condition and the actions, then checks the initial actions. */
  function AfterRun(d: Diagram, e: Env, m: Machine, p: nat): (r: Step)
    requires Pre(d, m, p)
    ensures Frame(d, m, r.m, 0, 0) && r.m == m.(effects := r.m.effects)
  {
    var r1 := if d.phases[p].endCondition.Some? then Apply(d, e, m, ApplyEnd(p)) else Step(m, Returned(true));
    if r1.out.Raised? then r1
    else
      var r2 := ApplyAll(d, e, r1.m, Initials(d, p) + Invariants(d, p) + Finals(d, p));
      if r2.out.Raised? then r2
      else if !NoneRaises(d, e, r2.m.effects, Initials(d, p)) then Step(r2.m, Raised(EngineError))
      else r2
  }

  function OnRun(d: Diagram, e: Env, m: Machine, p: nat): (r: Step)
    requires Pre(d, m, p) && m.phases[p].state == Start
    ensures Frame(d, m, r.m, p, p + 1)
    ensures r.out.Returned? ==> r.m.phases[p] == m.phases[p].(state := Run) && RankSum(m.phases) < RankSum(r.m.phases)
  {
    var r1 := if d.phases[p].kind.ActorAction? then Apply(d, e, m, InitializeActor(p)) else Step(m, Returned(true));
    if r1.out.Raised? then r1
    else AfterRun(d, e, SetState(d, BeforeRun(d, r1.m, p), p, Run), p)
  }

  /** Ends a phase and the subtree of its children; a serial phase skips those it already passed. */
  function OnEnd(d: Diagram, m: Machine, p: nat): (r: Machine)
    requires Pre(d, m, p)
    ensures Frame(d, m, r, p, d.phases[p].last) && r.phases[p] == m.phases[p].(state := End)
    ensures Rank(m.phases[p].state) < 3 ==> RankSum(m.phases) < RankSum(r.phases)
    decreases |d.phases| - p, 2, 0
  {
    SetState(d, EndBelow(d, m, p), p, End)
  }

  function EndBelow(d: Diagram, m: Machine, p: nat): (r: Machine)
    requires Pre(d, m, p)
    ensures Frame(d, m, r, p + 1, d.phases[p].last)
    decreases |d.phases| - p, 1, 0
  {
    match d.phases[p].kind
    case Mix => EndChildren(d, m, p, 0)
    case Serial => EndChildren(d, m, p, m.phases[p].position)
    case _ => EndActions(d, m, p)
  }

  /** Untracks a running actor phase and preempts the final actions of a phase that has not ended. */
  function EndActions(d: Diagram, m: Machine, p: nat): (r: Machine)
    requires Fits(d, m) && p < |d.phases|
    ensures Frame(d, m, r, 0, 0) && r.phases == m.phases && r.effects == m.effects
  {
    var m1 := if d.phases[p].kind.ActorAction? && m.phases[p].state == Run
              then m.(toDispatch := m.toDispatch - {p}, inProcess := m.inProcess - {p}) else m;
    if m1.phases[p].state == End then m1 else PreemptAll(d, m1, Finals(d, p))
  }

  function EndChildren(d: Diagram, m: Machine, p: nat, i: nat): (r: Machine)
    requires Pre(d, m, p)
    ensures Frame(d, m, r, p + 1, d.phases[p].last)
    decreases |d.phases| - p, 0, if i < |d.phases[p].children| then |d.phases[p].children| - i else 0
  {
    if i < |d.phases[p].children| then
      EndChildren(d, OnEnd(d, m, Child(d, p, i)), p, i + 1)
    else m
  }

  // ---------------------------------------------------------------- updates

  /** Promotes a phase until it can go no further; returns whether it has ended. */
  function Update(d: Diagram, e: Env, m: Machine, p: nat): (r: Step)
    requires Pre(d, m, p)
    ensures Frame(d, m, r.m, p, d.phases[p].last)
    ensures r.out.Returned? ==> r.out.value == (r.m.phases[p].state == End)
    decreases |d.phases| - p, 3 - Rank(m.phases[p].state), 5, 0
  {
    var r1 := Advance(d, e, m, p);
    if r1.out.Raised? then r1
    else if !r1.out.value then Step(r1.m, Returned(r1.m.phases[p].state == End))
    else Update(d, e, r1.m, p)
  }

  /** One attempt to change the state of a phase; returns whether it changed. */
  function Advance(d: Diagram, e: Env, m: Machine, p: nat): (r: Step)
    requires Pre(d, m, p)
    ensures Frame(d, m, r.m, p, d.phases[p].last)
    ensures r.out == Returned(true) ==> r.m.transition && Rank(m.phases[p].state) < Rank(r.m.phases[p].state)
    ensures r.out == Returned(false) ==> r.m.phases[p].state == m.phases[p].state
    decreases |d.phases| - p, 3 - Rank(m.phases[p].state), 4, 0
  {
    match m.phases[p].state
    case Idle => Notify(OnStart(d, e, m, p))
    case Start => TryRun(d, e, m, p)
    case Run => TryEnd(d, e, m, p)
    case End => Step(m, Returned(false))
  }

  /** Runs a starting phase once its start condition holds. */
  function TryRun(d: Diagram, e: Env, m: Machine, p: nat): (r: Step)
    requires Pre(d, m, p) && m.phases[p].state == Start
    ensures Frame(d, m, r.m, p, p + 1)
    ensures r.out == Returned(true) ==> r.m.transition && r.m.phases[p].state == Run
    ensures r.out == Returned(false) ==> r.m == m
  {
    match StartDecision(d, e, m, p)
    case Satisfied => Notify(OnRun(d, e, m, p))
    case Unsatisfied => Step(m, Returned(false))
    case Raises => Step(m, Raised(EngineError))
  }

  /** Updates a running phase and ends it if that update says so. */
  function TryEnd(d: Diagram, e: Env, m: Machine, p: nat): (r: Step)
    requires Pre(d, m, p) && m.phases[p].state == Run
    ensures Frame(d, m, r.m, p, d.phases[p].last)
    ensures r.out == Returned(true) ==> r.m.transition && r.m.phases[p].state == End
    ensures r.out == Returned(false) ==> r.m.phases[p].state == Run
    decreases |d.phases| - p, 1, 3, 0
  {
    var r1 := DoRunUpdate(d, e, m, p);
    if r1.out.Raised? || !r1.out.value then r1 else Finish(d, r1.m, p)
  }

  /** Tells the executor that a state changed, unless an exception got in the way. */
  function Notify(r: Step): Step {
    if r.out.Raised? then r else Step(r.m.(transition := true), Returned(true))
  }

  function StartDecision(d: Diagram, e: Env, m: Machine, p: nat): Verdict
    requires |m.phases| == |d.phases| && |m.status| == |d.actions| && p < |d.phases|
  {
    match d.phases[p].startCondition
    case Some(c) => Check(d, e, m, c)
    case None => Satisfied
  }

  /** Ends a running phase; ending the root reports success by an exception. */
  function Finish(d: Diagram, m: Machine, p: nat): (r: Step)
    requires Pre(d, m, p) && m.phases[p].state == Run
    ensures Frame(d, m, r.m, p, d.phases[p].last) && r.m.phases[p].state == End
    ensures r.out.Returned? ==> r.m.transition && r.out.value
  {
    var m1 := OnEnd(d, m, p);
    if p == 0 then Step(m1, Raised(SuccessReported)) else Notify(Step(m1, Returned(true)))
  }

  /** Updates what a running phase contains, then decides whether the phase ends. */
  function DoRunUpdate(d: Diagram, e: Env, m: Machine, p: nat): (r: Step)
    requires Pre(d, m, p) && m.phases[p].state == Run
    ensures Frame(d, m, r.m, p, d.phases[p].last) && r.m.phases[p].state == Run
    decreases |d.phases| - p, 0, 3, 0
  {
    var r1 := UpdateContent(d, e, m, p);
    if r1.out.Raised? then r1
    else
      var r2 := UpdateSystemActions(d, e, r1.m, p, 0);
      if r2.out.Raised? then r2 else Conclude(d, e, r2.m, p)
  }

  /** The part of a run update that depends on the kind of phase. */
  function UpdateContent(d: Diagram, e: Env, m: Machine, p: nat): (r: Step)
    requires Pre(d, m, p) && m.phases[p].state == Run
    ensures Frame(d, m, r.m, p, d.phases[p].last) && r.m.phases[p].state == Run
    decreases |d.phases| - p, 0, 2, 0
  {
    match d.phases[p].kind
    case Mix =>
      var r1 := SortIfNeeded(d, e, m, p);
      if r1.out.Raised? then r1 else UpdateChildren(d, e, SetChildrenDone(d, r1.m, p, true), p, 0)
    case Serial => UpdateInOrder(d, e, m, p)
    case _ => Step(m, if NoneRaises(d, e, m.effects, Invariants(d, p)) then Returned(true) else Raised(EngineError))
  }

  /** The base-class part of a run update: one more step if initial actions are pending,
      otherwise action completion and the decision whether the phase ends. */
  function Conclude(d: Diagram, e: Env, m: Machine, p: nat): (r: Step)
    requires Pre(d, m, p)
    ensures Frame(d, m, r.m, p, p + 1) && r.m.phases[p].state == m.phases[p].state
  {
    if m.phases[p].initPending then Step(ClearInitPending(d, m, p), Returned(false))
    else
      var r1 := if d.phases[p].kind.Mix? || d.phases[p].kind.Serial? then Step(m, Returned(true))
                else CompleteMet(d, e, m, Finals(d, p));
      if r1.out.Raised? then r1 else Step(r1.m, EndDecision(d, e, r1.m, p))
  }

  /** The end condition decides; without one, completion does. */
  function EndDecision(d: Diagram, e: Env, m: Machine, p: nat): Outcome
    requires |m.phases| == |d.phases| && |m.status| == |d.actions| && p < |d.phases|
  {
    match d.phases[p].endCondition
    case Some(c) =>
      (match Check(d, e, m, c)
       case Satisfied => Returned(true)
       case Unsatisfied => Returned(false)
       case Raises => Raised(EngineError))
    case None => Returned(HasCompleted(d, m, p))
  }

  /** The race track's execution orders for mix phase `p`; `OrdersOK` is what a race track
      that succeeds guarantees, so an answer without it counts as none. */
  function RaceTrackOrders(d: Diagram, e: Env, m: Machine, p: nat): (r: Option<map<nat, seq<nat>>>)
    requires p < |d.phases|
    ensures r.Some? ==> OrdersOK(d, p, r.value)
  {
    match e.sort(p, m.phases, m.effects)
    case Some(orders) => if OrdersOK(d, p, orders) then Some(orders) else None
    case None => None
  }

  function SortIfNeeded(d: Diagram, e: Env, m: Machine, p: nat): (r: Step)
    requires Pre(d, m, p) && d.phases[p].kind.Mix?
    ensures Frame(d, m, r.m, p, d.phases[p].last) && r.m == m.(phases := r.m.phases)
    ensures forall q :: 0 <= q < |m.phases| ==> r.m.phases[q] == m.phases[q].(execOrder := r.m.phases[q].execOrder)
    ensures forall q :: 0 <= q < |m.phases| && m.phases[q].execOrder != [] ==> r.m.phases[q].execOrder != []
    ensures r.out.Returned? ==> IsOrder(r.m.phases[p].execOrder, |d.phases[p].children|)
    ensures m.phases[p].execOrder != [] ==> r == Step(m, Returned(true))
  {
    assert OrderOK(d, m.phases, p);
    if m.phases[p].execOrder == [] then
      match RaceTrackOrders(d, e, m, p)
      case None => Step(m, Raised(EngineError))
      case Some(orders) => Step(SetExecOrders(d, m, p, orders), Returned(true))
    else Step(m, Returned(true))
  }

  /** Updates one phase directly below `p`. */
  function UpdateKid(d: Diagram, e: Env, m: Machine, p: nat, c: nat): (r: Step)
    requires Pre(d, m, p) && d.KidOK(p, c)
    ensures Frame(d, m, r.m, p + 1, d.phases[p].last) && Frame(d, m, r.m, c, d.phases[c].last)
    ensures r.m.phases[p] == m.phases[p]
    ensures r.out.Returned? ==> r.out.value == (r.m.phases[c].state == End)
    decreases |d.phases| - p, 0, 0, 0
  {
    Update(d, e, m, c)
  }

  /** Updates the children of a mix phase in execution order, from position `i` of that order. */
  function UpdateChildren(d: Diagram, e: Env, m: Machine, p: nat, i: nat): (r: Step)
    requires Pre(d, m, p) && m.phases[p].state == Run && d.phases[p].kind.Mix?
    requires IsOrder(m.phases[p].execOrder, |d.phases[p].children|)
    ensures Frame(d, m, r.m, p, d.phases[p].last)
    ensures r.m.phases[p] == m.phases[p].(childrenDone := r.m.phases[p].childrenDone)
    decreases |d.phases| - p, 0, 1, if i < |m.phases[p].execOrder| then |m.phases[p].execOrder| - i else 0
  {
    if i < |m.phases[p].execOrder| then
      var r1 := UpdateChild(d, e, m, p, m.phases[p].execOrder[i]);
      if r1.out.Raised? then r1 else UpdateChildren(d, e, r1.m, p, i + 1)
    else Step(m, Returned(true))
  }

  /** Updates child number `k` of a mix phase; a child that has not ended clears `childrenDone`. */
  function UpdateChild(d: Diagram, e: Env, m: Machine, p: nat, k: nat): (r: Step)
    requires Pre(d, m, p) && k < |d.phases[p].children|
    ensures Frame(d, m, r.m, p, d.phases[p].last)
    ensures r.m.phases[p] == m.phases[p].(childrenDone := r.m.phases[p].childrenDone)
    decreases |d.phases| - p, 0, 0, 1
  {
    var r1 := UpdateKid(d, e, m, p, Child(d, p, k));
    if r1.out.Raised? || r1.out.value then r1
    else Step(SetChildrenDone(d, r1.m, p, false), r1.out)
  }

  /** Updates the children of a serial phase from the current position until one has not ended. */
  function UpdateInOrder(d: Diagram, e: Env, m: Machine, p: nat): (r: Step)
    requires Pre(d, m, p) && m.phases[p].state == Run && d.phases[p].kind.Serial?
    ensures Frame(d, m, r.m, p, d.phases[p].last)
    ensures r.m.phases[p] == m.phases[p].(position := r.m.phases[p].position, childrenDone := r.m.phases[p].childrenDone)
    decreases |d.phases| - p, 0, 1,
              if m.phases[p].position < |d.phases[p].children| then |d.phases[p].children| - m.phases[p].position else 0
  {
    var k := m.phases[p].position;
    if k < |d.phases[p].children| then
      var r1 := UpdateKid(d, e, m, p, Child(d, p, k));
      if r1.out.Raised? then r1
      else if !r1.out.value then Step(r1.m, Returned(true))
      else UpdateInOrder(d, e, PassChild(d, r1.m, p), p)
    else Step(m, Returned(true))
  }

  /** Moves a serial phase to its next child; passing the last one completes the children. */
  function PassChild(d: Diagram, m: Machine, p: nat): (r: Machine)
    requires Fits(d, m) && p < |d.phases| && m.phases[p].position < |d.phases[p].children|
    ensures Frame(d, m, r, p, p + 1)
  {
    var k := m.phases[p].position + 1;
    SetPosition(d, m, p, k, k == |d.phases[p].children| || m.phases[p].childrenDone)
  }

  /** Updates the zero-time operations of a phase, from number `i`. */
  function UpdateSystemActions(d: Diagram, e: Env, m: Machine, p: nat, i: nat): (r: Step)
    requires Pre(d, m, p) && m.phases[p].state == Run
    ensures Frame(d, m, r.m, p + 1, d.phases[p].last)
    decreases |d.phases| - p, 0, 1, if i < |d.phases[p].systemActions| then |d.phases[p].systemActions| - i else 0
  {
    if i < |d.phases[p].systemActions| then
      var r1 := UpdateKid(d, e, m, p, Operation(d, p, i));
      if r1.out.Raised? then r1 else UpdateSystemActions(d, e, r1.m, p, i + 1)
    else Step(m, Returned(true))
  }
}
