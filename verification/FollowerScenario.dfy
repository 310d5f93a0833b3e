/** A scenario in which the super step ends too early: a follower waits for the actions of a leader that
    comes after it, in a run from the beginning. */
module FollowerScenario {
  import opened Wrappers
  import opened Scenario
  import opened PhaseSemantics
  import opened PhaseTree
  import opened SuperStep
  import opened Fixpoint
  import opened CompletionConditions
  import opened Execution

  // ---------------------------------------------------------------- leader and follower

  /** A mix phase over a follower, which waits for the actions of a leader, and the leader, which runs on
      after its one action until a leaf condition is met. */
  ghost predicate Follows(d: Diagram) {
    && |d.phases| == 3 && |d.actions| == 1 && d.idOrder == [0, 1, 2]
    && d.phases[0].kind.Mix? && d.phases[0].children == [1, 2]
    && d.phases[0].startCondition == None && d.phases[0].endCondition == None
    && d.phases[1].kind.ActorAction? && d.phases[1].startCondition == Some(ActionsComplete(2))
    && d.phases[2].kind.ActorAction? && d.phases[2].startCondition == None && d.phases[2].endCondition == Some(Leaf(0))
    && d.phases[2].actions == [0] && d.actions[0].kind == LaneChange
    && (forall p :: 0 <= p < 3 ==> d.phases[p].systemActions == [] && Initials(d, p) == [] && Invariants(d, p) == [])
    && Finals(d, 0) == [] && Finals(d, 1) == [] && Finals(d, 2) == [0]
  }

  /** Lane changes are complete, leaf conditions are not met, and the race track keeps the order of the children. */
  function World(): Env {
    Env((_, _) => Unsatisfied, (_, _) => Satisfied, (_, _) => false, (_, _, _) => Some(map[0 := [0, 1]]))
  }

  function Phases(root: PhaseState, order: seq<nat>, done: bool, x: PhaseState, q: PhaseState): seq<PhaseRt> {
    [PhaseRt(root, 0, done, false, order), PhaseRt(x, 0, false, false, []), PhaseRt(q, 0, false, false, [])]
  }

  lemma Fitting(d: Diagram, m: Machine, root: PhaseState, order: seq<nat>, done: bool, x: PhaseState, q: PhaseState)
    requires Follows(d) && m.phases == Phases(root, order, done, x, q) && |m.status| == 1 && (order == [] || order == [0, 1])
    ensures Pre(d, m, 0) && Pre(d, m, 1) && Pre(d, m, 2) && Child(d, 0, 0) == 1 && Child(d, 0, 1) == 2
    ensures IsOrder([0, 1], 2)
  {
    SubtreeBounds(d, 0);
    SubtreeBounds(d, 1);
    SubtreeBounds(d, 2);
    assert IsOrder([0, 1], 2);
    forall p: nat | p < 3 ensures OrderOK(d, m.phases, p) {
      assert p == 0 || p == 1 || p == 2;
    }
  }

  /** An idle phase starts and waits for its start condition. */
  lemma StartsAndWaits(d: Diagram, e: Env, m: Machine, p: nat, m': Machine)
    requires Pre(d, m, p) && m.phases[p].state == Idle && d.phases[p].startCondition.Some?
    requires !e.raises(ApplyStart(p), m.effects)
    requires m' == SetState(d, m, p, Start).(effects := m.effects + [ApplyStart(p)], transition := true)
    requires StartDecision(d, e, m', p) == Unsatisfied
    ensures Update(d, e, m, p) == Step(m', Returned(false))
  {
    assert Advance(d, e, m, p) == Step(m', Returned(true));
    assert Update(d, e, m', p) == Step(m', Returned(false));
  }

  lemma FollowerStarts(d: Diagram, m: Machine, m': Machine, done: bool, q: PhaseState)
    requires Follows(d) && m.phases == Phases(Run, [0, 1], done, Idle, q) && m.status == [Unspecified]
    requires m' == m.(phases := Phases(Run, [0, 1], done, Start, q), effects := m.effects + [ApplyStart(1)], transition := true)
    ensures Pre(d, m, 1) && Update(d, World(), m, 1) == Step(m', Returned(false))
  {
    Fitting(d, m, Run, [0, 1], done, Idle, q);
    assert m.phases[1 := m.phases[1].(state := Start)] == m'.phases;
    assert Finals(d, 2)[0] == 0;
    StartsAndWaits(d, World(), m, 1, m');
  }

  lemma {:induction false} NoneTracked(d: Diagram, m: Machine, ids: seq<nat>, p: nat)
    requires Fits(d, m) && p < |d.phases| && forall i :: 0 <= i < |ids| ==> ids[i] < |d.phases|
    ensures ResolveTracked(d, m, ids, {}, p) == m
    decreases |ids|
  {
    if ids != [] {
      NoneTracked(d, m, ids[1..], p);
    }
  }

  lemma LeaderIsTracked(d: Diagram, m: Machine)
    requires Follows(d) && Fits(d, m) && m.toDispatch == {} == m.inProcess
    ensures BeforeRun(d, m, 2) == m.(toDispatch := {2})
  {
    NoneTracked(d, m, d.idOrder, 2);
    NoneTracked(d, m.(toDispatch := {2}), d.idOrder, 2);
    assert {} + {2} == {2};
  }

  lemma LeaderActs(d: Diagram, m: Machine)
    requires Follows(d) && Pre(d, m, 2)
    ensures AfterRun(d, World(), m, 2) == Step(m.(effects := m.effects + [ApplyEnd(2), ApplyAction(0)]), Returned(true))
  {
    var m1 := m.(effects := m.effects + [ApplyEnd(2)]);
    var m2 := m.(effects := m.effects + [ApplyEnd(2), ApplyAction(0)]);
    assert m1.effects + [ApplyAction(0)] == m2.effects;
    assert Initials(d, 2) + Invariants(d, 2) + Finals(d, 2) == [0];
    assert ApplyAll(d, World(), m1, [0]) == Step(m2, Returned(true)) by {
      assert [0][1..] == [];
    }
  }

  lemma LeaderRuns(d: Diagram, m: Machine, m': Machine, done: bool, x: PhaseState)
    requires Follows(d) && m.phases == Phases(Run, [0, 1], done, x, Start)
    requires |m.status| == 1 && m.toDispatch == {} == m.inProcess
    requires m' == m.(phases := Phases(Run, [0, 1], done, x, Run), toDispatch := {2},
                      effects := m.effects + [InitializeActor(2), ApplyEnd(2), ApplyAction(0)])
    ensures Pre(d, m, 2) && OnRun(d, World(), m, 2) == Step(m', Returned(true))
  {
    var m1 := m.(effects := m.effects + [InitializeActor(2)]);
    var m2 := m1.(toDispatch := {2}, phases := m'.phases);
    Fitting(d, m, Run, [0, 1], done, x, Start);
    Fitting(d, m2, Run, [0, 1], done, x, Run);
    assert m.phases[2 := m.phases[2].(state := Run)] == m'.phases;
    LeaderIsTracked(d, m1);
    LeaderActs(d, m2);
    assert m2.effects + [ApplyEnd(2), ApplyAction(0)] == m'.effects;
  }

  /** A running leaf phase runs on if its final actions change nothing and its end condition fails. */
  lemma LeafRunsOn(d: Diagram, e: Env, m: Machine, p: nat, m': Machine)
    requires Pre(d, m, p) && d.phases[p].kind.ActorAction? && d.phases[p].systemActions == []
    requires m.phases[p].state == Run && !m.phases[p].initPending && d.phases[p].endCondition.Some? && Invariants(d, p) == []
    requires CompleteMet(d, e, m, Finals(d, p)) == Step(m', Returned(true))
    requires Check(d, e, m', d.phases[p].endCondition.value) == Unsatisfied
    ensures Update(d, e, m, p) == Step(m', Returned(false))
  {
    assert UpdateContent(d, e, m, p) == Step(m, Returned(true));
    assert UpdateSystemActions(d, e, m, p, 0) == Step(m, Returned(true));
    assert DoRunUpdate(d, e, m, p) == Step(m', Returned(false));
    assert Advance(d, e, m, p) == Step(m', Returned(false));
  }

  lemma LeaderStarts(d: Diagram, m: Machine, m': Machine, done: bool, x: PhaseState)
    requires Follows(d) && m.phases == Phases(Run, [0, 1], done, x, Idle)
    requires m.status == [Unspecified] && m.toDispatch == {} == m.inProcess
    requires m' == m.(phases := Phases(Run, [0, 1], done, x, Run), toDispatch := {2}, transition := true,
                      effects := m.effects + [InitializeActor(2), ApplyEnd(2), ApplyAction(0)])
    ensures Pre(d, m, 2) && Update(d, World(), m, 2) == Step(m', Returned(false))
  {
    var e, m1 := World(), m.(phases := Phases(Run, [0, 1], done, x, Start), transition := true);
    Fitting(d, m, Run, [0, 1], done, x, Idle);
    Fitting(d, m1, Run, [0, 1], done, x, Start);
    Fitting(d, m', Run, [0, 1], done, x, Run);
    assert m.phases[2 := m.phases[2].(state := Start)] == m1.phases;
    LeaderRuns(d, m1, m', done, x);
    assert Advance(d, e, m, 2) == Step(m1, Returned(true));
    assert Advance(d, e, m1, 2) == Step(m', Returned(true));
    assert CompleteMet(d, e, m', [0]) == Step(m', Returned(true)) by {
      assert [0][1..] == [];
    }
    LeafRunsOn(d, e, m', 2, m');
    assert Update(d, e, m1, 2) == Update(d, e, m', 2);
  }

  lemma ChildStays(d: Diagram, e: Env, m: Machine, p: nat, k: nat, m1: Machine)
    requires Pre(d, m, p) && k < |d.phases[p].children| && Fits(d, m1)
    requires Update(d, e, m, Child(d, p, k)) == Step(m1, Returned(false))
    ensures UpdateChild(d, e, m, p, k) == Step(SetChildrenDone(d, m1, p, false), Returned(false))
  {
  }

  /** A mix phase updates its two children in turn; both stay as they are. */
  lemma PairIsUpdated(d: Diagram, e: Env, m: Machine, p: nat, m1: Machine, m2: Machine)
    requires Pre(d, m, p) && d.phases[p].kind.Mix? && |d.phases[p].children| == 2
    requires m.phases[p].execOrder == [0, 1] && m.phases[p].state == Run && IsOrder([0, 1], |d.phases[p].children|)
    requires Update(d, e, m, Child(d, p, 0)) == Step(m1, Returned(false)) && Fits(d, m1)
    requires Update(d, e, SetChildrenDone(d, m1, p, false), Child(d, p, 1)) == Step(m2, Returned(false)) && Fits(d, m2)
    ensures UpdateChildren(d, e, m, p, 0) == Step(SetChildrenDone(d, m2, p, false), Returned(true))
  {
    var m1', m3 := SetChildrenDone(d, m1, p, false), SetChildrenDone(d, m2, p, false);
    ChildStays(d, e, m, p, 0, m1);
    ChildStays(d, e, m1', p, 1, m2);
    assert m1'.phases[p].execOrder == m.phases[p].execOrder && m3.phases[p].execOrder == m1'.phases[p].execOrder;
    assert UpdateChildren(d, e, m3, p, 2) == Step(m3, Returned(true));
    assert UpdateChildren(d, e, m1', p, 1) == Step(m3, Returned(true));
  }

  lemma PairRunsOn(d: Diagram, e: Env, m: Machine, p: nat, m3: Machine)
    requires Pre(d, m, p) && d.phases[p].kind.Mix? && d.phases[p].systemActions == [] && d.phases[p].endCondition == None
    requires m.phases[p].state == Run && UpdateContent(d, e, m, p) == Step(m3, Returned(true))
    requires Pre(d, m3, p) && m3.phases[p].state == Run && !m3.phases[p].childrenDone && !m3.phases[p].initPending
    ensures Update(d, e, m, p) == Step(m3, Returned(false))
  {
    assert UpdateSystemActions(d, e, m3, p, 0) == Step(m3, Returned(true));
    assert Conclude(d, e, m3, p) == Step(m3, Returned(false));
    assert DoRunUpdate(d, e, m, p) == Step(m3, Returned(false));
    assert Advance(d, e, m, p) == Step(m3, Returned(false));
  }

  // ---------------------------------------------------------------- the start event

  /** The machine with these phases, after these effects. */
  function Reached(phases: seq<PhaseRt>, toDispatch: set<nat>, effects: seq<Effect>): Machine {
    Machine(phases, [Unspecified], toDispatch, {}, true, effects, [])
  }

  const DOINGS := [ApplyStart(1), InitializeActor(2), ApplyEnd(2), ApplyAction(0)]

  lemma ChildrenStart(d: Diagram, m: Machine)
    requires Follows(d) && m == Reached(Phases(Run, [0, 1], true, Idle, Idle), {}, [])
    ensures Pre(d, m, 0)
    ensures UpdateChildren(d, World(), m, 0, 0)
         == Step(Reached(Phases(Run, [0, 1], false, Start, Run), {2}, DOINGS), Returned(true))
  {
    var e, m1 := World(), Reached(Phases(Run, [0, 1], true, Start, Idle), {}, [ApplyStart(1)]);
    var m2 := Reached(Phases(Run, [0, 1], false, Start, Idle), {}, [ApplyStart(1)]);
    var m3 := Reached(Phases(Run, [0, 1], false, Start, Run), {2}, DOINGS);
    Fitting(d, m, Run, [0, 1], true, Idle, Idle);
    Fitting(d, m1, Run, [0, 1], true, Start, Idle);
    Fitting(d, m3, Run, [0, 1], false, Start, Run);
    FollowerStarts(d, m, m1, true, Idle);
    LeaderStarts(d, m2, m3, false, Start);
    NotDone(d, m1, m2, true);
    NotDone(d, m3, m3, false);
    PairIsUpdated(d, e, m, 0, m1, m3);
  }

  lemma NotDone(d: Diagram, m: Machine, m': Machine, done: bool)
    requires Follows(d) && Fits(d, m) && |m.phases| == 3 && m.phases[0] == PhaseRt(Run, 0, done, false, [0, 1])
    requires m' == m.(phases := [PhaseRt(Run, 0, false, false, [0, 1]), m.phases[1], m.phases[2]])
    ensures SetChildrenDone(d, m, 0, false) == m'
  {
    assert m.phases[0 := m.phases[0].(childrenDone := false)] == m'.phases;
  }

  lemma RootIsSorted(d: Diagram, m: Machine, m1: Machine)
    requires Follows(d) && Pre(d, m, 0) && m.phases == Phases(Run, [], false, Idle, Idle)
    requires m1 == m.(phases := Phases(Run, [0, 1], false, Idle, Idle))
    ensures SortIfNeeded(d, World(), m, 0) == Step(m1, Returned(true))
  {
    assert OrdersOK(d, 0, map[0 := [0, 1]]);
    assert SetExecOrders(d, m, 0, map[0 := [0, 1]]).phases == m1.phases;
  }

  lemma RootRuns(d: Diagram, m: Machine)
    requires Follows(d) && m == Reached(Phases(Run, [], false, Idle, Idle), {}, [])
    ensures Pre(d, m, 0)
    ensures Update(d, World(), m, 0) == Step(Reached(Phases(Run, [0, 1], false, Start, Run), {2}, DOINGS), Returned(false))
  {
    var m1 := Reached(Phases(Run, [0, 1], false, Idle, Idle), {}, []);
    var m2 := Reached(Phases(Run, [0, 1], true, Idle, Idle), {}, []);
    var m3 := Reached(Phases(Run, [0, 1], false, Start, Run), {2}, DOINGS);
    Fitting(d, m, Run, [], false, Idle, Idle);
    Fitting(d, m1, Run, [0, 1], false, Idle, Idle);
    Fitting(d, m3, Run, [0, 1], false, Start, Run);
    RootIsSorted(d, m, m1);
    assert m1.phases[0 := m1.phases[0].(childrenDone := true)] == m2.phases;
    ChildrenStart(d, m2);
    PairRunsOn(d, World(), m, 0, m3);
  }

  lemma StartPass(d: Diagram)
    requires Follows(d)
    ensures Initial(d) == Machine(Phases(Idle, [], false, Idle, Idle), [Unspecified], {}, {}, false, [], [])
    ensures Pre(d, Initial(d), 0)
    ensures Update(d, World(), Initial(d), 0)
         == Step(Reached(Phases(Run, [0, 1], false, Start, Run), {2}, DOINGS), Returned(false))
  {
    var e, m := World(), Initial(d);
    assert m.phases == Phases(Idle, [], false, Idle, Idle) && m.status == [Unspecified];
    var m1, m2 := Reached(Phases(Start, [], false, Idle, Idle), {}, []), Reached(Phases(Run, [], false, Idle, Idle), {}, []);
    Fitting(d, m, Idle, [], false, Idle, Idle);
    Fitting(d, m1, Start, [], false, Idle, Idle);
    assert m.phases[0 := m.phases[0].(state := Start)] == m1.phases;
    assert m1.phases[0 := m1.phases[0].(state := Run)] == m2.phases;
    assert Advance(d, e, m, 0) == Step(m1, Returned(true));
    assert Initials(d, 0) + Invariants(d, 0) + Finals(d, 0) == [];
    assert Advance(d, e, m1, 0) == Step(m2, Returned(true));
    RootRuns(d, m2);
    assert Update(d, e, m1, 0) == Update(d, e, m2, 0);
  }

  /** The leader's action is dispatched and met; the follower waits for it. */
  function Started(): Machine {
    Machine(Phases(Run, [0, 1], false, Start, Run), [Dispatched], {}, {2}, true, DOINGS, [ActionEvent(2, [0])])
  }

  lemma LeaderIsDispatched(d: Diagram, m: Machine)
    requires Follows(d) && m == Reached(Phases(Run, [0, 1], false, Start, Run), {2}, DOINGS)
    ensures Fits(d, m) && DispatchPhases(d, m, d.idOrder).(toDispatch := {}) == Started()
  {
    Fitting(d, m, Run, [0, 1], false, Start, Run);
    assert [0, 1, 2][1..] == [1, 2] && [1, 2][1..] == [2] && [2][1..] == [] && [0][1..] == [];
    ActionsNamed(d, 2);
    assert Unskipped(d, m, 2, [0]) == [0];
    var m1 := m.(trace := [ActionEvent(2, [0])], inProcess := {2});
    assert DispatchAll(d, m1, [0]) == m1.(status := [Dispatched]);
    assert DispatchPhase(d, m, 2) == m1.(status := [Dispatched]);
    assert DispatchPhases(d, m, [2]) == m1.(status := [Dispatched]);
    assert DispatchPhases(d, m, [1, 2]) == DispatchPhases(d, m, [2]);
  }

  lemma StartEvent(d: Diagram)
    requires Follows(d)
    ensures Execute(d, [EventRaised(World(), SimulationStart)]) == Step(Started(), Returned(true))
  {
    StartPass(d);
    LeaderIsDispatched(d, Update(d, World(), Initial(d), 0).m);
    var s := [EventRaised(World(), SimulationStart)];
    assert s[..0] == [];
    assert Initial(d).(transition := false) == Initial(d);
    assert Execute(d, s[..0]) == Step(Initial(d), Returned(true));
  }

  // ---------------------------------------------------------------- the update event

  /** The next pass completes the leader's action after the follower looked at it, and changes no state. */
  lemma SecondPass(d: Diagram, m: Machine)
    requires Follows(d) && m == Started().(transition := false)
    ensures Pre(d, m, 0) && Calm(Update(d, World(), m, 0))
  {
    var e, m1 := World(), m.(phases := Phases(Run, [0, 1], true, Start, Run));
    Fitting(d, m, Run, [0, 1], false, Start, Run);
    Fitting(d, m1, Run, [0, 1], true, Start, Run);
    var m2 := Complete(d, m, 0).m;
    assert m.phases[0 := m.phases[0].(childrenDone := true)] == m1.phases;
    assert m1.phases[0 := m1.phases[0].(childrenDone := false)] == m.phases;
    assert m2.phases[0 := m2.phases[0].(childrenDone := false)] == m2.phases;
    assert !HasCompleted(d, m1, 2) by {
      assert Finals(d, 2)[0] == 0;
    }
    assert Update(d, e, m1, 1) == Step(m1, Returned(false));
    LeaderCompletes(d, m, m2);
    PairIsUpdated(d, e, m1, 0, m1, m2);
    PairRunsOn(d, e, m, 0, m2);
  }

  lemma LeaderCompletes(d: Diagram, m: Machine, m': Machine)
    requires Follows(d) && Pre(d, m, 2) && m.phases[2].state == Run && !m.phases[2].initPending
    requires m.status == [Dispatched] && m' == Complete(d, m, 0).m
    ensures Update(d, World(), m, 2) == Step(m', Returned(false))
  {
    assert CompleteMet(d, World(), m, [0]) == Step(m', Returned(true)) by {
      assert [0][1..] == [];
    }
    LeafRunsOn(d, World(), m, 2, m');
  }

  lemma FollowerIsOvertaken(d: Diagram, m: Machine)
    requires Follows(d) && m == Started().(transition := false)
    ensures Overtaken(d, World(), m, 1, 2)
  {
    SubtreeBounds(d, 0);
    assert d.PhaseOK(0);
    assert Child(d, 0, 0) == 1 && Child(d, 0, 1) == 2;
    assert d.phases[0].children[0] == 1 && d.phases[0].children[1] == 2;
  }

  /** In every such scenario the run of one start event ends in a state from which the super step of
      the next update event ends too early. */
  lemma FollowerIsLeftBehind(d: Diagram)
    requires Follows(d)
    ensures var r := Execute(d, [EventRaised(World(), SimulationStart)]); r.out.Returned? && StillMoves(d, World(), r.m)
  {
    var m, m0 := Started(), Started().(transition := false);
    StartEvent(d);
    EveryRunKeepsInvariants(d, [EventRaised(World(), SimulationStart)]);
    SecondPass(d, m0);
    FollowerIsOvertaken(d, m0);
    assert LastInput(d, World(), m) == m0;
    CompletionConditionsBreakTheFixpoint(d, World(), m, 1, 2);
  }

  // ---------------------------------------------------------------- such a scenario

  function Model(): DiagramModel {
    DiagramModel(
      [PhaseModel(Mix, None, 3, [], [1, 2], None, None, [], [], [], [], []),
       PhaseModel(ActorAction("follower"), Some(0), 2, [], [], Some(ActionsComplete(2)), None, [], [], [], [], []),
       PhaseModel(ActorAction("leader"), Some(0), 3, [], [], None, Some(Leaf(0)), [0], [], [], [], [])],
      [ActionModel(LaneChange, 2, AtEnd)],
      [0, 1, 2])
  }

  lemma RootIsOK(d: DiagramModel)
    requires |d.phases| == 3 && d.phases[0].kind.Mix? && d.phases[0].last == 3 && d.phases[0].systemActions == []
    requires d.phases[0].children == [1, 2] && d.phases[0].actions == []
    requires d.phases[1].parent == d.phases[2].parent == Some(0) && d.phases[1].last == 2 && d.phases[2].last == 3
    ensures d.PhaseOK(0) && d.Nested(0)
  {
    assert d.KidOK(0, 1) && d.KidOK(0, 2);
  }

  lemma LeafIsOK(d: DiagramModel, p: nat)
    requires p < |d.phases| && d.phases[p].kind.ActorAction? && d.phases[p].last == p + 1
    requires d.phases[p].children == [] == d.phases[p].systemActions
    requires forall a :: a in d.phases[p].actions ==> d.ActionOK(p, a)
    requires |d.phases[p].actions| <= 1
    ensures d.PhaseOK(p) && d.Nested(p)
  {
  }

  lemma ThreePhases(d: DiagramModel)
    requires |d.phases| == 3 && d.phases[0].last == 3 && d.idOrder == [0, 1, 2]
    requires d.PhaseOK(0) && d.PhaseOK(1) && d.PhaseOK(2)
    requires d.Nested(0) && d.Nested(1) && d.Nested(2)
    ensures d.Valid()
  {
    assert 0 in d.idOrder && 1 in d.idOrder && 2 in d.idOrder by {
      assert d.idOrder[0] == 0 && d.idOrder[1] == 1 && d.idOrder[2] == 2;
    }
    forall p: nat | p < |d.phases| ensures p in d.idOrder && d.PhaseOK(p) {
      assert p == 0 || p == 1 || p == 2;
    }
    forall p: nat | p < |d.phases| ensures d.Nested(p) {
      assert p == 0 || p == 1 || p == 2;
    }
  }

  lemma ModelIsValid(d: DiagramModel)
    requires d == Model()
    ensures d.Valid()
  {
    assert d.phases[2].actions == [0] && d.ActionOK(2, 0);
    RootIsOK(d);
    LeafIsOK(d, 1);
    LeafIsOK(d, 2);
    ThreePhases(d);
  }

  lemma SelectOne(d: DiagramModel)
    requires |d.actions| == 1 && d.actions[0].interval == AtEnd
    ensures d.Select([], AtStart) == d.Select([], AtEnd) == d.Select([], Invariant) == []
    ensures d.Select([0], AtStart) == d.Select([0], Invariant) == [] && d.Select([0], AtEnd) == [0]
  {
    assert [0][1..] == [];
  }

  lemma ActionsOfModel(d: Diagram, p: nat)
    requires p < |d.phases| && d.phases[p].kind.ActorAction? && |d.actions| == 1 && d.actions[0].interval == AtEnd
    requires d.phases[p].actions == [] || d.phases[p].actions == [0]
    ensures Initials(d, p) == [] == Invariants(d, p) && Finals(d, p) == d.phases[p].actions
  {
    SelectOne(d);
  }

  lemma ModelFollows(d: Diagram)
    requires d == Model()
    ensures Follows(d)
  {
    ActionsOfModel(d, 1);
    ActionsOfModel(d, 2);
  }

  /** There is such a scenario. */
  lemma SomeScenarioFollows() returns (d: Diagram)
    ensures Follows(d)
  {
    ModelIsValid(Model());
    d := Model();
    ModelFollows(d);
  }
}
