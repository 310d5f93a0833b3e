/** The data model of a scenario: the phase tree, its conditions and its actions.

  Phases are numbered in document preorder: a phase, then the subtrees of its
  system actions, then the subtrees of its children. The subtree of phase `p` is the
  interval `[p, last)`, and phase 0 is the root.
 */
module Scenario {
  import opened Wrappers

  type ActorId = string

  /** Run-time state of a phase. */
  datatype PhaseState = Idle | Start | Run | End

  function Rank(s: PhaseState): nat {
    match s
    case Idle => 0
    case Start => 1
    case Run => 2
    case End => 3
  }

  datatype Condition =
    | Leaf(id: nat)
    | PhaseStateIs(phase: nat, state: PhaseState)
    | ActionsComplete(phase: nat)
    | Or(operands: seq<Condition>)
    | And(operands: seq<Condition>)

  /** Whether a condition reads the completion of phase `q`. */
  predicate Reads(c: Condition, q: nat)
    decreases c, 0
  {
    match c
    case Leaf(_) => false
    case PhaseStateIs(_, _) => false
    case ActionsComplete(r) => r == q
    case Or(ops) => AnyReads(ops, q)
    case And(ops) => AnyReads(ops, q)
  }

  predicate AnyReads(ops: seq<Condition>, q: nat)
    decreases ops, 1
  {
    ops != [] && (Reads(ops[0], q) || AnyReads(ops[1..], q))
  }

  datatype Interval = AtStart | AtEnd | Invariant

  datatype ControlDimension = Longitudinal | Lateral

  datatype ActionKind =
    | LaneChange
    | LateralOffset
    | Path
    | Position
    | Speed(fromPath: bool, continuous: bool)
    | LongitudinalDistance(continuous: bool)
    | ChangeParameter(name: string)
    | UserDefined(instantaneous: bool)
    | ScenarioSuccess
    | ScenarioFailure
    | Wait
    | Emit
  {
    predicate IsSystem() {
      ScenarioSuccess? || ScenarioFailure? || Wait? || Emit?
    }

    /** The control dimensions an actor action claims. */
    function Dimensions(): set<ControlDimension> {
      match this
      case LaneChange => {Lateral}
      case LateralOffset => {Lateral}
      case Speed(_, _) => {Longitudinal}
      case LongitudinalDistance(_) => {Longitudinal}
      case _ => {}
    }

    /** Whether meeting the objective ends the action. */
    predicate HasRegularEnding() {
      match this
      case Speed(_, continuous) => !continuous
      case LongitudinalDistance(continuous) => !continuous
      case _ => true
    }

    /** Conflict between two actions of one actor. */
    predicate InConflictWith(other: ActionKind) {
      if ChangeParameter? then
        other.ChangeParameter? && name == other.name
      else
        Dimensions() * other.Dimensions() != {}
    }
  }

  datatype ActionModel = ActionModel(kind: ActionKind, owner: nat, interval: Interval)

  datatype PhaseKind = Mix | Serial | ActorAction(actor: ActorId) | SystemAction

  /** One phase of the data model.
      `startDeps`, `endDeps`, `endApplyDeps` and `actionDeps` are the actors named by the
      start condition, the end condition, the apply part of the end condition, and the actions. */
  datatype PhaseModel = PhaseModel(
    kind: PhaseKind,
    parent: Option<nat>,
    last: nat,
    systemActions: seq<nat>,
    children: seq<nat>,
    startCondition: Option<Condition>,
    endCondition: Option<Condition>,
    actions: seq<nat>,
    startDeps: seq<ActorId>,
    endDeps: seq<ActorId>,
    endApplyDeps: seq<ActorId>,
    actionDeps: seq<ActorId>)

  /** A scenario; `idOrder` lists the phases in ascending order of their id strings, the
      order in which the executor's `std::map`s are traversed. */
  datatype DiagramModel = DiagramModel(phases: seq<PhaseModel>, actions: seq<ActionModel>, idOrder: seq<nat>) {

    ghost predicate KidOK(p: nat, c: nat)
      requires p < |phases|
    {
      && p < c < |phases|
      && c < phases[c].last <= phases[p].last
      && phases[c].parent == Some(p)
    }

    ghost predicate PhaseOK(p: nat)
      requires p < |phases|
    {
      var ph := phases[p];
      && p < ph.last <= |phases|
      && (forall i :: 0 <= i < |ph.children| ==> KidOK(p, ph.children[i]))
      && (forall i :: 0 <= i < |ph.systemActions| ==> KidOK(p, ph.systemActions[i]))
      && (forall i, j :: 0 <= i < j < |ph.children| ==> phases[ph.children[i]].last <= ph.children[j])
      && (forall i, j :: 0 <= i < j < |ph.systemActions| ==>
            phases[ph.systemActions[i]].last <= ph.systemActions[j])
      && (forall i, j :: 0 <= i < |ph.systemActions| && 0 <= j < |ph.children| ==>
            phases[ph.systemActions[i]].last <= ph.children[j])
      && (ph.kind.Mix? || ph.kind.Serial? ==> |ph.children| > 0 && ph.actions == [])
      && (ph.kind.ActorAction? || ph.kind.SystemAction? ==> ph.children == [])
      && (forall a :: a in ph.actions ==> ActionOK(p, a))
      && (forall i, j :: 0 <= i < j < |ph.actions| ==> ph.actions[i] != ph.actions[j])
    }

    /** Parents of phases inside a subtree lie in that subtree. */
    ghost predicate Nested(p: nat)
      requires p < |phases| && PhaseOK(p)
    {
      forall x :: p < x < phases[p].last ==> phases[x].parent.Some? && p <= phases[x].parent.value
    }

    ghost predicate ActionOK(p: nat, a: nat)
      requires p < |phases|
    {
      && a < |actions|
      && actions[a].owner == p
      && (phases[p].kind.ActorAction? ==> !actions[a].kind.IsSystem())
      && (phases[p].kind.SystemAction? ==> actions[a].kind.IsSystem())
    }

    /** Every number of `acts` names an action. */
    predicate Named(acts: seq<nat>) {
      forall i :: 0 <= i < |acts| ==> acts[i] < |actions|
    }

    ghost predicate Valid() {
      && (phases != [] ==> phases[0].last == |phases|)
      && (forall p: nat :: p < |phases| ==> PhaseOK(p))
      && (forall p: nat :: p < |phases| ==> Nested(p))
      && (forall p: nat :: p < |phases| ==> p in idOrder)
      && (forall i :: 0 <= i < |idOrder| ==> idOrder[i] < |phases|)
      && (forall i, j :: 0 <= i < j < |idOrder| ==> idOrder[i] != idOrder[j])
    }

    /** Whether a condition of phase `p` reads the completion of phase `q`. */
    predicate Watches(p: nat, q: nat)
      requires p < |phases|
    {
      || (phases[p].startCondition.Some? && Reads(phases[p].startCondition.value, q))
      || (phases[p].endCondition.Some? && Reads(phases[p].endCondition.value, q))
    }

    /** Conditions read only the world, the time and phase states. */
    ghost predicate ConditionsReadStatesOnly() {
      forall p: nat, q: nat :: p < |phases| ==> !Watches(p, q)
    }

    /** The actions of `xs` with the given interval, in document order. */
    function Select(xs: seq<nat>, interval: Interval): (r: seq<nat>)
      requires Named(xs)
      ensures Named(r)
      ensures forall x :: x in r <==> x in xs && actions[x].interval == interval
    {
      if xs == [] then []
      else
        var rest := Select(xs[1..], interval);
        if actions[xs[0]].interval == interval then [xs[0]] + rest else rest
    }
  }

  /** A well-formed scenario. */
  type Diagram = d: DiagramModel | d.Valid() witness DiagramModel([], [], [])

  lemma SubtreeBounds(d: Diagram, p: nat)
    requires p < |d.phases|
    ensures p < d.phases[p].last <= |d.phases|
  {
    assert d.PhaseOK(p);
  }

  /** Child number `i` of phase `p`; its subtree lies inside that of `p`. */
  function Child(d: Diagram, p: nat, i: nat): (c: nat)
    requires p < |d.phases| && i < |d.phases[p].children|
    ensures c == d.phases[p].children[i] && d.KidOK(p, c)
  {
    assert d.PhaseOK(p);
    d.phases[p].children[i]
  }

  /** System action number `i` of phase `p`. */
  function Operation(d: Diagram, p: nat, i: nat): (c: nat)
    requires p < |d.phases| && i < |d.phases[p].systemActions|
    ensures c == d.phases[p].systemActions[i] && d.KidOK(p, c)
  {
    assert d.PhaseOK(p);
    d.phases[p].systemActions[i]
  }

  /** Subtrees of distinct children are disjoint. */
  lemma ChildrenApart(d: Diagram, p: nat, i: nat, j: nat)
    requires p < |d.phases| && i < |d.phases[p].children| && j < |d.phases[p].children| && i != j
    ensures d.phases[Child(d, p, i)].last <= Child(d, p, j) || d.phases[Child(d, p, j)].last <= Child(d, p, i)
  {
    assert d.PhaseOK(p);
  }

  /** System actions come before the children. */
  lemma OperationsFirst(d: Diagram, p: nat, i: nat, j: nat)
    requires p < |d.phases| && i < |d.phases[p].systemActions| && j < |d.phases[p].children|
    ensures d.phases[Operation(d, p, i)].last <= Child(d, p, j)
  {
    assert d.PhaseOK(p);
  }

  lemma CompositeHasChildren(d: Diagram, p: nat)
    requires p < |d.phases|
    ensures d.phases[p].kind.Mix? || d.phases[p].kind.Serial? ==> d.phases[p].children != []
    ensures d.phases[p].kind.ActorAction? || d.phases[p].kind.SystemAction? ==> d.phases[p].children == []
  {
    assert d.PhaseOK(p);
  }

  lemma ActionsNamed(d: Diagram, p: nat)
    requires p < |d.phases|
    ensures d.Named(d.phases[p].actions)
    ensures forall a :: a in d.phases[p].actions ==> d.ActionOK(p, a)
  {
    assert d.PhaseOK(p);
    forall i | 0 <= i < |d.phases[p].actions| ensures d.phases[p].actions[i] < |d.actions| {
      assert d.ActionOK(p, d.phases[p].actions[i]);
    }
  }

  /** Actions of an actor phase at its start. */
  function Initials(d: Diagram, p: nat): (r: seq<nat>)
    requires p < |d.phases|
    ensures d.Named(r)
  {
    ActionsNamed(d, p);
    if d.phases[p].kind.ActorAction? then d.Select(d.phases[p].actions, AtStart) else []
  }

  /** Actions of an actor phase that hold while it runs. */
  function Invariants(d: Diagram, p: nat): (r: seq<nat>)
    requires p < |d.phases|
    ensures d.Named(r)
  {
    ActionsNamed(d, p);
    if d.phases[p].kind.ActorAction? then d.Select(d.phases[p].actions, Invariant) else []
  }

  /** Final actions: those at the end interval of an actor phase, all of a system phase. */
  function Finals(d: Diagram, p: nat): (r: seq<nat>)
    requires p < |d.phases|
    ensures d.Named(r)
    ensures forall a :: a in r ==> a in d.phases[p].actions && d.ActionOK(p, a)
  {
    ActionsNamed(d, p);
    if d.phases[p].kind.ActorAction? then d.Select(d.phases[p].actions, AtEnd) else d.phases[p].actions
  }
}
