/** A first pass in which a phase looks at its start condition before the actor it names was created: the phase that is to
    create the actor waits for a start condition of its own. */
module MissedRacer {
  import opened Wrappers
  import opened Scenario
  import opened PhaseSemantics
  import opened PhaseVisits
  import opened RaceTracks
  import opened PassOrder
  import opened ActorCreation
  import opened FollowerScenario
  import G = DependencyGraph

  /** A mix phase over a phase that creates actor "racer" and one that names it in its start condition. */
  ghost predicate Misses(d: Diagram) {
    && |d.phases| == 3 && d.idOrder == [0, 1, 2] && |d.actions| == 0
    && d.phases[0].kind.Mix? && d.phases[0].children == [1, 2] && d.phases[0].endCondition == None
    && d.phases[1].kind == ActorAction("racer") && d.phases[1].startCondition == Some(Leaf(0)) && d.phases[1].startDeps == []
    && d.phases[2].kind == ActorAction("member") && d.phases[2].startCondition == Some(Leaf(1)) && d.phases[2].startDeps == ["racer"]
    && (forall p :: 0 <= p < 3 ==> d.phases[p].systemActions == [] && d.phases[p].endDeps == [] == d.phases[p].endApplyDeps)
    && (forall p :: 1 <= p < 3 ==> d.phases[p].parent == Some(0) && d.phases[p].endCondition == None && d.phases[p].actionDeps == [])
  }

  const ORDERS: Orders := map[0 := [0, 1]]
  const RACERS: map<ActorId, nat> := map["racer" := 1]
  const DEPS: map<nat, seq<nat>> := map[1 := [], 2 := [1]]

  /** No leaf condition is met, nothing throws, and the race track puts the racer first. */
  function World(): Env {
    Env((_, _) => Unsatisfied, (_, _) => Satisfied, (_, _) => false, (_, _, _) => Some(ORDERS))
  }

  /** The actor of the member exists. */
  function Actors(): seq<Effect> -> set<ActorId> {
    _ => {"member"}
  }

  lemma Actives(d: Diagram)
    requires Misses(d)
    ensures forall q: nat :: Member(d, 0, q) <==> q == 1 || q == 2
    ensures d.phases[0].last == 3 && Child(d, 0, 0) == 1 && Child(d, 0, 1) == 2
    ensures forall q :: 0 <= q < |d.phases| && d.phases[q].kind.Mix? ==> q == 0
  {
    assert Active(d, 0, 0);
    assert d.phases[0].children[0] == 1 && d.phases[0].children[1] == 2;
    assert ActiveChildren(d, 0) == [1, 2];
    assert Active(d, 0, 1) && Active(d, 0, 2);
    SubtreeBounds(d, 0);
  }

  lemma VisitsRacerFirst(d: Diagram)
    requires Misses(d)
    ensures OrdersEverything(d, 0, ORDERS) && Before(Visit(d, ORDERS, 0), 1, 2)
  {
    Actives(d);
    assert IsOrder([0, 1], 2) by {
      assert [0, 1][0] == 0 && [0, 1][1] == 1;
    }
    assert [0, 1][1..] == [1] && [1][1..] == [];
    assert VisitChildren(d, ORDERS, 0, []) == [];
    assert VisitChildren(d, ORDERS, 0, [1]) == [2] + [];
    assert VisitChildren(d, ORDERS, 0, [0, 1]) == [1] + ([2] + []);
    assert Visit(d, ORDERS, 0) == [0, 1, 2];
  }

  lemma NeedsRacer(d: Diagram, pending: set<nat>, x: nat)
    requires Misses(d)
    ensures !Needs(d, pending, RACERS, 1, x) && (Needs(d, pending, RACERS, 2, x) <==> x == 1)
  {
    assert DependencyToRun(d, pending, 1) == [];
    assert DependencyToRun(d, pending, 2) == ["racer"];
    assert DependencyToRun(d, pending, 2)[0] == "racer" && "racer" in RACERS && RACERS["racer"] == 1;
  }

  lemma RaceTrackWorks(d: Diagram, pending: set<nat>)
    requires Misses(d)
    ensures Dependencies(d, 0, {"member"}, pending, RACERS, DEPS)
  {
    Actives(d);
    assert HasActorCreation(d, {"member"}, 1) == Some("racer") && HasActorCreation(d, {"member"}, 2) == None;
    assert RacersOK(d, 0, {"member"}, RACERS, DEPS.Keys);
    forall m, x | m in DEPS && m < |d.phases| ensures x in DEPS[m] <==> Needs(d, pending, RACERS, m, x) {
      NeedsRacer(d, pending, x);
    }
  }

  lemma RacesWell(d: Diagram, pending: set<nat>)
    requires Misses(d)
    ensures Raced(d, 0, {"member"}, pending, ORDERS, DEPS)
  {
    RaceTrackWorks(d, pending);
    VisitsRacerFirst(d);
  }

  lemma RacesAnywhere(d: Diagram, s: nat, phases: seq<PhaseRt>, effects: seq<Effect>)
    requires Misses(d) && s < |d.phases| == |phases| && d.phases[s].kind.Mix?
    ensures Raced(d, s, Actors()(effects), Pending(phases), World().sort(s, phases, effects).value, DEPS)
  {
    Actives(d);
    RacesWell(d, Pending(phases));
  }

  lemma RunsIt(d: Diagram)
    requires Misses(d)
    ensures RunsRaceTrack(d, World(), Actors())
  {
    forall s: nat, phases: seq<PhaseRt>, effects: seq<Effect> | s < |d.phases| == |phases| && d.phases[s].kind.Mix?
      ensures exists deps :: Raced(d, s, Actors()(effects), Pending(phases), World().sort(s, phases, effects).value, deps)
    {
      RacesAnywhere(d, s, phases, effects);
    }
  }

  // ---------------------------------------------------------------- the pass

  function Phases(order: seq<nat>, done: bool, x: PhaseState, y: PhaseState): seq<PhaseRt> {
    [PhaseRt(Run, 0, done, false, order), PhaseRt(x, 0, false, false, []), PhaseRt(y, 0, false, false, [])]
  }

  function Reached(order: seq<nat>, done: bool, x: PhaseState, y: PhaseState, effects: seq<Effect>): Machine {
    Machine(Phases(order, done, x, y), [], {}, {}, effects != [], effects, [])
  }

  lemma Fitting(d: Diagram, m: Machine, order: seq<nat>, done: bool, x: PhaseState, y: PhaseState)
    requires Misses(d) && m.phases == Phases(order, done, x, y) && m.status == [] && (order == [] || order == [0, 1])
    ensures Pre(d, m, 0) && Pre(d, m, 1) && Pre(d, m, 2) && IsOrder([0, 1], 2)
  {
    SubtreeBounds(d, 0);
    SubtreeBounds(d, 1);
    SubtreeBounds(d, 2);
    assert IsOrder([0, 1], 2) by {
      assert [0, 1][0] == 0 && [0, 1][1] == 1;
    }
    forall p: nat | p < 3 ensures OrderOK(d, m.phases, p) {
      assert p == 0 || p == 1 || p == 2;
    }
  }

  lemma RacerWaits(d: Diagram, m: Machine, m': Machine)
    requires Misses(d) && m == Reached([0, 1], true, Idle, Idle, []) && m' == Reached([0, 1], true, Start, Idle, [ApplyStart(1)])
    ensures Pre(d, m, 1) && Update(d, World(), m, 1) == Step(m', Returned(false))
  {
    Fitting(d, m, [0, 1], true, Idle, Idle);
    assert SetState(d, m, 1, Start).phases == m'.phases;
    StartsAndWaits(d, World(), m, 1, m');
  }

  lemma MemberWaits(d: Diagram, m: Machine, m': Machine)
    requires Misses(d) && m == Reached([0, 1], false, Start, Idle, [ApplyStart(1)])
    requires m' == Reached([0, 1], false, Start, Start, [ApplyStart(1), ApplyStart(2)])
    ensures Pre(d, m, 2) && Update(d, World(), m, 2) == Step(m', Returned(false))
  {
    Fitting(d, m, [0, 1], false, Start, Idle);
    assert SetState(d, m, 2, Start).phases == m'.phases;
    StartsAndWaits(d, World(), m, 2, m');
  }

  lemma BothWait(d: Diagram, m: Machine)
    requires Misses(d) && m == Reached([0, 1], true, Idle, Idle, [])
    ensures Pre(d, m, 0) && IsOrder([0, 1], 2)
    ensures UpdateChildren(d, World(), m, 0, 0) == Step(Reached([0, 1], false, Start, Start, [ApplyStart(1), ApplyStart(2)]), Returned(true))
  {
    var m1, m2 := Reached([0, 1], true, Start, Idle, [ApplyStart(1)]), Reached([0, 1], false, Start, Idle, [ApplyStart(1)]);
    var m3 := Reached([0, 1], false, Start, Start, [ApplyStart(1), ApplyStart(2)]);
    Actives(d);
    Fitting(d, m, [0, 1], true, Idle, Idle);
    Fitting(d, m1, [0, 1], true, Start, Idle);
    Fitting(d, m3, [0, 1], false, Start, Start);
    RacerWaits(d, m, m1);
    MemberWaits(d, m2, m3);
    assert SetChildrenDone(d, m1, 0, false).phases == m2.phases;
    assert SetChildrenDone(d, m3, 0, false).phases == m3.phases;
    PairIsUpdated(d, World(), m, 0, m1, m3);
  }

  lemma RootIsSorted(d: Diagram, m: Machine, m1: Machine)
    requires Misses(d) && m == Reached([], false, Idle, Idle, []) && m1 == Reached([0, 1], false, Idle, Idle, [])
    ensures Pre(d, m, 0) && SortIfNeeded(d, World(), m, 0) == Step(m1, Returned(true))
  {
    Fitting(d, m, [], false, Idle, Idle);
    VisitsRacerFirst(d);
    assert SetExecOrders(d, m, 0, ORDERS).phases == m1.phases;
  }

  lemma RootPass(d: Diagram, m: Machine)
    requires Misses(d) && m == Reached([], false, Idle, Idle, [])
    ensures Pre(d, m, 0) && Update(d, World(), m, 0).m.effects == [ApplyStart(1), ApplyStart(2)]
  {
    var m1, m2 := Reached([0, 1], false, Idle, Idle, []), Reached([0, 1], true, Idle, Idle, []);
    var m3 := Reached([0, 1], false, Start, Start, [ApplyStart(1), ApplyStart(2)]);
    RootIsSorted(d, m, m1);
    Fitting(d, m1, [0, 1], false, Idle, Idle);
    Fitting(d, m3, [0, 1], false, Start, Start);
    assert SetChildrenDone(d, m1, 0, true).phases == m2.phases;
    BothWait(d, m2);
    PairRunsOn(d, World(), m, 0, m3);
  }

  lemma FreshPass(d: Diagram, m: Machine)
    requires Misses(d) && m == Reached([], false, Idle, Idle, [])
    ensures FirstPass(d, World(), m, 0)
  {
    Actives(d);
    Fitting(d, m, [], false, Idle, Idle);
    forall q: nat | q < |d.phases| && q != 0 && Active(d, 0, q) ensures Untouched(m.phases, q) {
      assert Member(d, 0, q);
    }
  }

  lemma RacerIsFound(d: Diagram)
    requires Misses(d)
    ensures RacersFound(d, 0, {"member"}, RACERS)
  {
    Actives(d);
  }

  lemma MemberNeedsRacer(d: Diagram, m: Machine)
    requires Misses(d) && Pre(d, m, 0) && m.effects == [] && Deeds(d, World(), m, 0) == [ApplyStart(1), ApplyStart(2)]
    ensures NeedsActor(d, World(), m, 0, RACERS, 2, "racer", 1) && !CreatedBy([], Deeds(d, World(), m, 0), 1, 1)
  {
    Actives(d);
    assert d.phases[2].startDeps[0] == "racer";
    assert Deeds(d, World(), m, 0)[1] == ApplyStart(2);
  }

  /** In every such scenario the race track does its work, and yet the member's start condition is applied although
      the actor that it names was not created. */
  lemma RacerIsMissed(d: Diagram, m: Machine)
    requires Misses(d) && m == Reached([], false, Idle, Idle, [])
    ensures FirstPass(d, World(), m, 0) && RunsRaceTrack(d, World(), Actors()) && ApplyUsesLess(d)
    ensures RacersFound(d, 0, {"member"}, RACERS) && NeedsActor(d, World(), m, 0, RACERS, 2, "racer", 1)
    ensures !CreatedBy([], Deeds(d, World(), m, 0), 1, 1)
  {
    FreshPass(d, m);
    RunsIt(d);
    RootPass(d, m);
    RacerIsFound(d);
    MemberNeedsRacer(d, m);
  }

  // ---------------------------------------------------------------- such a scenario

  function Model(): DiagramModel {
    DiagramModel(
      [PhaseModel(Mix, None, 3, [], [1, 2], None, None, [], [], [], [], []),
       PhaseModel(ActorAction("racer"), Some(0), 2, [], [], Some(Leaf(0)), None, [], [], [], [], []),
       PhaseModel(ActorAction("member"), Some(0), 3, [], [], Some(Leaf(1)), None, [], ["racer"], [], [], [])],
      [],
      [0, 1, 2])
  }

  lemma ModelIsValid(d: DiagramModel)
    requires d == Model()
    ensures d.Valid()
  {
    RootIsOK(d);
    LeafIsOK(d, 1);
    LeafIsOK(d, 2);
    ThreePhases(d);
  }

  /** There is such a scenario. */
  lemma SomeScenarioMisses() returns (d: Diagram)
    ensures Misses(d)
  {
    ModelIsValid(Model());
    d := Model();
  }
}
