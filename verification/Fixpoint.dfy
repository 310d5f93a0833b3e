/** When exactly the super step has reached a state in which no phase can change any more. */
module Fixpoint {
  import opened Wrappers
  import opened Scenario
  import opened PhaseSemantics
  import opened PhaseTree
  import opened SuperStep

  // ---------------------------------------------------------------- waiting phases

  /** The condition that phase `x` waits for no longer holds it: it is satisfied, or throws. */
  predicate Triggered(d: Diagram, e: Env, m: Machine, x: nat)
    requires |m.phases| == |d.phases| && |m.status| == |d.actions| && x < |d.phases|
  {
    match m.phases[x].state
    case Start => StartDecision(d, e, m, x) != Unsatisfied
    case Run => d.phases[x].endCondition.Some? && Check(d, e, m, d.phases[x].endCondition.value) != Unsatisfied
    case _ => false
  }

  /** No phase that an update of `p` reaches is triggered. While the children of a mix phase are
      updated, its completion flag tells about those that come earlier in its execution order. */
  ghost predicate Waiting(d: Diagram, e: Env, m: Machine, p: nat)
    requires Fits(d, m) && p < |d.phases|
    decreases |d.phases| - p, 1
  {
    && !Triggered(d, e, m, p)
    && (m.phases[p].state == Run ==> ContentWaiting(d, e, m, p, 0) && OperationsWaiting(d, e, m, p, 0))
  }

  ghost predicate ContentWaiting(d: Diagram, e: Env, m: Machine, p: nat, from: nat)
    requires Fits(d, m) && p < |d.phases|
    decreases |d.phases| - p, 0
  {
    match d.phases[p].kind
    case Mix => forall i: nat :: from <= i < |m.phases[p].execOrder| ==> OrderWaiting(d, e, m, p, i)
    case Serial => m.phases[p].position < |d.phases[p].children| ==> Waiting(d, e, m, Child(d, p, m.phases[p].position))
    case _ => true
  }

  /** The child at position `i` of the execution order waits. */
  ghost predicate OrderWaiting(d: Diagram, e: Env, m: Machine, p: nat, i: nat)
    requires Fits(d, m) && p < |d.phases| && i < |m.phases[p].execOrder|
    decreases |d.phases| - p, 0, 0
  {
    m.phases[p].execOrder[i] < |d.phases[p].children| ==>
      Waiting(d, e, AtPosition(d, m, p, i), Child(d, p, m.phases[p].execOrder[i]))
  }

  /** The machine when a pass that changes nothing reaches position `i` of the execution order of `p`. */
  ghost function AtPosition(d: Diagram, m: Machine, p: nat, i: nat): (r: Machine)
    requires Fits(d, m) && p < |d.phases|
    ensures Frame(d, m, r, p, p + 1)
  {
    SetChildrenDone(d, m, p, OrderEnded(d, m.phases, p, m.phases[p].execOrder, i))
  }

  ghost predicate OperationsWaiting(d: Diagram, e: Env, m: Machine, p: nat, from: nat)
    requires Fits(d, m) && p < |d.phases|
    decreases |d.phases| - p, 0
  {
    forall i: nat :: from <= i < |d.phases[p].systemActions| ==> Waiting(d, e, m, Operation(d, p, i))
  }

  // ---------------------------------------------------------------- updates of poised phases

  /** Nothing is thrown, and no phase changes its state. */
  predicate Calm(r: Step) {
    r.out.Returned? && !r.m.transition
  }

  /** A step that leaves the machine as it is if phases wait, and otherwise throws or makes a transition. */
  predicate Decided(m: Machine, r: Step, value: bool, waits: bool) {
    && (waits ==> r == Step(m, Returned(value)))
    && (Calm(r) ==> waits)
  }

  /** Main result: an update of a poised subtree changes nothing if its phases wait, and otherwise
      throws or makes a transition. */
  lemma {:induction false} PoisedUpdate(d: Diagram, e: Env, m: Machine, p: nat)
    requires Pre(d, m, p) && AtRest(d, m.phases, p) && Poised(d, e, m, p) && !m.transition
    ensures Decided(m, Update(d, e, m, p), m.phases[p].state == End, Waiting(d, e, m, p))
    decreases |d.phases| - p, 5
  {
    PoisedAdvance(d, e, m, p);
    var r1 := Advance(d, e, m, p);
    if r1.out == Returned(true) {
      assert Update(d, e, r1.m, p).m.transition;
    }
  }

  lemma {:induction false} PoisedAdvance(d: Diagram, e: Env, m: Machine, p: nat)
    requires Pre(d, m, p) && AtRest(d, m.phases, p) && Poised(d, e, m, p) && !m.transition
    ensures Decided(m, Advance(d, e, m, p), false, Waiting(d, e, m, p))
    decreases |d.phases| - p, 4
  {
    if m.phases[p].state == Run {
      PoisedRun(d, e, m, p);
      var r1 := DoRunUpdate(d, e, m, p);
      assert TryEnd(d, e, m, p) == if r1.out == Returned(true) then Finish(d, r1.m, p) else r1;
    }
  }

  lemma {:induction false} PoisedRun(d: Diagram, e: Env, m: Machine, p: nat)
    requires Pre(d, m, p) && AtRest(d, m.phases, p) && Poised(d, e, m, p) && !m.transition && m.phases[p].state == Run
    ensures var r := DoRunUpdate(d, e, m, p);
            && (Waiting(d, e, m, p) ==> r == Step(m, Returned(false)))
            && (r.out == Returned(false) && !r.m.transition ==> Waiting(d, e, m, p))
    decreases |d.phases| - p, 3
  {
    PoisedContent(d, e, m, p);
    var r1 := UpdateContent(d, e, m, p);
    if Calm(r1) {
      PoisedOperations(d, e, m, p);
      PoisedDecision(d, e, m, p);
    } else if r1.out.Returned? {
      var r2 := UpdateSystemActions(d, e, r1.m, p, 0);
      assert r2.m.transition;
    }
  }

  lemma PoisedDecision(d: Diagram, e: Env, m: Machine, p: nat)
    requires Pre(d, m, p) && Poised(d, e, m, p) && m.phases[p].state == Run
    ensures var r := Conclude(d, e, m, p);
            r.m == m && (r.out == Returned(false) <==> !Triggered(d, e, m, p))
  {
    if !(d.phases[p].kind.Mix? || d.phases[p].kind.Serial?) {
      CompleteMetIsQuiet(d, e, m, Finals(d, p));
    }
  }

  lemma {:induction false} PoisedKid(d: Diagram, e: Env, m: Machine, p: nat, c: nat)
    requires Pre(d, m, p) && d.KidOK(p, c) && Inner(d, m.phases, p) && Poised(d, e, m, c) && !m.transition
    ensures Decided(m, UpdateKid(d, e, m, p, c), m.phases[c].state == End, Waiting(d, e, m, c))
    decreases |d.phases| - p, 0, 0
  {
    InnerBelow(d, m.phases, p, c);
    PoisedUpdate(d, e, m, c);
  }

  lemma {:induction false} PoisedContent(d: Diagram, e: Env, m: Machine, p: nat)
    requires Pre(d, m, p) && AtRest(d, m.phases, p) && ContentPoised(d, e, m, p) && !m.transition && m.phases[p].state == Run
    ensures Decided(m, UpdateContent(d, e, m, p), true, ContentWaiting(d, e, m, p, 0))
    decreases |d.phases| - p, 2
  {
    match d.phases[p].kind {
      case Mix =>
        PoisedMix(d, e, m, p);
      case Serial =>
        if m.phases[p].position < |d.phases[p].children| {
          var c := Child(d, p, m.phases[p].position);
          PoisedKid(d, e, m, p, c);
          CurrentChild(d, e, m, p, c);
        }
      case _ =>
    }
  }

  lemma InOrderStep(d: Diagram, e: Env, m: Machine, p: nat)
    requires Pre(d, m, p) && m.phases[p].state == Run && d.phases[p].kind.Serial?
    requires m.phases[p].position < |d.phases[p].children|
    ensures var r1, r := UpdateKid(d, e, m, p, Child(d, p, m.phases[p].position)), UpdateContent(d, e, m, p);
            && (Calm(r) ==> Calm(r1))
            && (r1.out == Returned(false) ==> r == Step(r1.m, Returned(true)))
  {
    var r1 := UpdateKid(d, e, m, p, Child(d, p, m.phases[p].position));
    assert UpdateContent(d, e, m, p) == if r1.out.Raised? then r1 else if !r1.out.value then Step(r1.m, Returned(true))
                                        else UpdateInOrder(d, e, PassChild(d, r1.m, p), p);
    if r1.out == Returned(true) {
      assert r1.m.transition ==> UpdateInOrder(d, e, PassChild(d, r1.m, p), p).m.transition;
    }
  }

  lemma CurrentChild(d: Diagram, e: Env, m: Machine, p: nat, c: nat)
    requires Pre(d, m, p) && m.phases[p].state == Run && d.phases[p].kind.Serial? && NodeOK(d, m.phases, p)
    requires m.phases[p].position < |d.phases[p].children| && c == Child(d, p, m.phases[p].position)
    requires Decided(m, UpdateKid(d, e, m, p, c), m.phases[c].state == End, Waiting(d, e, m, c))
    ensures Decided(m, UpdateContent(d, e, m, p), true, ContentWaiting(d, e, m, p, 0))
  {
    var r1 := UpdateKid(d, e, m, p, c);
    assert ContentWaiting(d, e, m, p, 0) <==> Waiting(d, e, m, c);
    assert m.phases[c].state != End;
    InOrderStep(d, e, m, p);
  }

  lemma {:induction false} PoisedMix(d: Diagram, e: Env, m: Machine, p: nat)
    requires Pre(d, m, p) && AtRest(d, m.phases, p) && ContentPoised(d, e, m, p) && !m.transition
    requires m.phases[p].state == Run && d.phases[p].kind.Mix?
    ensures Decided(m, UpdateContent(d, e, m, p), true, ContentWaiting(d, e, m, p, 0))
    decreases |d.phases| - p, 1, |d.phases[p].children| + 1
  {
    var order, r := m.phases[p].execOrder, UpdateContent(d, e, m, p);
    assert OrderOK(d, m.phases, p);
    assert r == UpdateChildren(d, e, AtPosition(d, m, p, 0), p, 0);
    if Calm(r) {
      CalmChildrenWait(d, e, m, p, 0);
    }
    if ContentWaiting(d, e, m, p, 0) {
      WaitingChildrenStay(d, e, m, p, 0);
      NoChildToUpdate(d, e, AtPosition(d, m, p, |order|), p);
      MixKeepsTree(d, e, m, p);
      SameCompletion(d, m, p, AtPosition(d, m, p, |order|).phases[p].childrenDone);
    }
  }

  /** A running mix phase with its children poised, about to be visited in its execution order. */
  ghost predicate Visitable(d: Diagram, e: Env, m: Machine, p: nat) {
    && Pre(d, m, p) && d.phases[p].kind.Mix? && IsOrder(m.phases[p].execOrder, |d.phases[p].children|)
    && m.phases[p].state == Run && Inner(d, m.phases, p) && ContentPoised(d, e, m, p) && !m.transition
  }

  /** The child at position `i` of the execution order, in a machine that the children before left as it was. */
  ghost predicate ChildDecided(d: Diagram, e: Env, m: Machine, p: nat, i: nat)
    requires Visitable(d, e, m, p) && i < |m.phases[p].execOrder|
  {
    var r := UpdateChild(d, e, AtPosition(d, m, p, i), p, m.phases[p].execOrder[i]);
    && (OrderWaiting(d, e, m, p, i) ==> r.out.Returned? && r.m == AtPosition(d, m, p, i + 1))
    && (Calm(r) ==> OrderWaiting(d, e, m, p, i))
  }

  /** What a pass that changed nothing so far does from position `i` on. */
  ghost function PassFrom(d: Diagram, e: Env, m: Machine, p: nat, i: nat): Step
    requires Visitable(d, e, m, p)
  {
    UpdateRest(d, e, AtPosition(d, m, p, i), p, m.phases[p].execOrder, i)
  }

  lemma PassOneChild(d: Diagram, e: Env, m: Machine, p: nat, i: nat)
    requires Visitable(d, e, m, p) && i < |m.phases[p].execOrder|
    ensures var r1 := UpdateChild(d, e, AtPosition(d, m, p, i), p, m.phases[p].execOrder[i]);
            && (Calm(PassFrom(d, e, m, p, i)) ==> Calm(r1))
            && (r1.out.Returned? && r1.m == AtPosition(d, m, p, i + 1) ==>
                  PassFrom(d, e, m, p, i) == PassFrom(d, e, m, p, i + 1))
  {
    var m1, order := AtPosition(d, m, p, i), m.phases[p].execOrder;
    var r1 := UpdateChild(d, e, m1, p, order[i]);
    UpdateFirstChild(d, e, m1, p, order, i);
    if r1.out.Returned? {
      assert r1.m.transition ==> UpdateChildren(d, e, r1.m, p, i + 1).m.transition;
    }
  }

  lemma {:induction false} WaitingChildStays(d: Diagram, e: Env, m: Machine, p: nat, i: nat)
    requires Visitable(d, e, m, p) && i < |m.phases[p].execOrder| && OrderWaiting(d, e, m, p, i)
    ensures PassFrom(d, e, m, p, i) == PassFrom(d, e, m, p, i + 1)
    decreases |d.phases| - p, 0, 2
  {
    PoisedChild(d, e, m, p, i);
    PassOneChild(d, e, m, p, i);
  }

  lemma {:induction false} CalmChildWaits(d: Diagram, e: Env, m: Machine, p: nat, i: nat)
    requires Visitable(d, e, m, p) && i < |m.phases[p].execOrder| && Calm(PassFrom(d, e, m, p, i))
    ensures OrderWaiting(d, e, m, p, i) && PassFrom(d, e, m, p, i) == PassFrom(d, e, m, p, i + 1)
    decreases |d.phases| - p, 0, 2
  {
    PoisedChild(d, e, m, p, i);
    PassOneChild(d, e, m, p, i);
  }

  lemma {:induction false} WaitingChildrenStay(d: Diagram, e: Env, m: Machine, p: nat, i: nat)
    requires Visitable(d, e, m, p) && i <= |m.phases[p].execOrder| && ContentWaiting(d, e, m, p, 0)
    ensures PassFrom(d, e, m, p, i) == PassFrom(d, e, m, p, |m.phases[p].execOrder|)
    decreases |d.phases| - p, 1, |m.phases[p].execOrder| - i
  {
    if i < |m.phases[p].execOrder| {
      WaitingChildStays(d, e, m, p, i);
      WaitingChildrenStay(d, e, m, p, i + 1);
    }
  }

  lemma {:induction false} CalmChildrenWait(d: Diagram, e: Env, m: Machine, p: nat, i: nat)
    requires Visitable(d, e, m, p) && i <= |m.phases[p].execOrder| && Calm(PassFrom(d, e, m, p, i))
    ensures ContentWaiting(d, e, m, p, i)
    decreases |d.phases| - p, 1, |m.phases[p].execOrder| - i
  {
    if i < |m.phases[p].execOrder| {
      CalmChildWaits(d, e, m, p, i);
      CalmChildrenWait(d, e, m, p, i + 1);
    }
  }

  lemma {:induction false} PoisedChild(d: Diagram, e: Env, m: Machine, p: nat, i: nat)
    requires Visitable(d, e, m, p) && i < |m.phases[p].execOrder|
    ensures ChildDecided(d, e, m, p, i)
    decreases |d.phases| - p, 0, 1
  {
    var m1, c := AtPosition(d, m, p, i), Child(d, p, m.phases[p].execOrder[i]);
    OwnFrame(d, m.phases, m1.phases, p);
    SettlingKeepsPoised(d, e, m, m1, c);
    PoisedKid(d, e, m1, p, c);
    NextPosition(d, m, p, i);
  }

  lemma NextPosition(d: Diagram, m: Machine, p: nat, i: nat)
    requires Fits(d, m) && p < |d.phases| && i < |m.phases[p].execOrder| && m.phases[p].execOrder[i] < |d.phases[p].children|
    ensures var m1, c := AtPosition(d, m, p, i), Child(d, p, m.phases[p].execOrder[i]);
            AtPosition(d, m, p, i + 1) == if m.phases[c].state == End then m1 else SetChildrenDone(d, m1, p, false)
  {
    var order := m.phases[p].execOrder;
    assert OrderEnded(d, m.phases, p, order, i + 1)
      <==> OrderEnded(d, m.phases, p, order, i) && ChildEnded(d, m.phases, p, order[i]);
    SetTwice(d, m, p, OrderEnded(d, m.phases, p, order, i), false);
  }

  lemma {:induction false} PoisedOperations(d: Diagram, e: Env, m: Machine, p: nat)
    requires Operable(d, e, m, p)
    ensures Decided(m, UpdateSystemActions(d, e, m, p, 0), true, OperationsWaiting(d, e, m, p, 0))
    decreases |d.phases| - p, 2
  {
    var n := |d.phases[p].systemActions|;
    if Calm(OperationsRest(d, e, m, p, 0)) {
      forall j: nat | j < n ensures Waiting(d, e, m, Operation(d, p, j)) {
        CalmOperationsStay(d, e, m, p, 0, j);
        OneOperationStays(d, e, m, p, j);
      }
    }
    if OperationsWaiting(d, e, m, p, 0) {
      WaitingOperationsStay(d, e, m, p, 0, n);
      assert OperationsRest(d, e, m, p, n) == Step(m, Returned(true));
    }
  }

  ghost predicate Operable(d: Diagram, e: Env, m: Machine, p: nat) {
    && Pre(d, m, p) && Inner(d, m.phases, p) && OperationsPoised(d, e, m, p, 0) && !m.transition && m.phases[p].state == Run
  }

  lemma {:induction false} WaitingOperationsStay(d: Diagram, e: Env, m: Machine, p: nat, i: nat, n: nat)
    requires Operable(d, e, m, p) && i <= n <= |d.phases[p].systemActions|
    requires forall j: nat :: i <= j < n ==> Waiting(d, e, m, Operation(d, p, j))
    ensures OperationsRest(d, e, m, p, i) == OperationsRest(d, e, m, p, n)
    decreases |d.phases| - p, 1, n - i
  {
    if i < n {
      OneOperationStays(d, e, m, p, i);
      WaitingOperationsStay(d, e, m, p, i + 1, n);
    }
  }

  lemma {:induction false} CalmOperationsStay(d: Diagram, e: Env, m: Machine, p: nat, i: nat, n: nat)
    requires Operable(d, e, m, p) && i <= n <= |d.phases[p].systemActions| && Calm(OperationsRest(d, e, m, p, i))
    ensures OperationsRest(d, e, m, p, i) == OperationsRest(d, e, m, p, n)
    decreases |d.phases| - p, 1, n - i
  {
    if i < n {
      OneOperationStays(d, e, m, p, i);
      CalmOperationsStay(d, e, m, p, i + 1, n);
    }
  }

  lemma {:induction false} OneOperationStays(d: Diagram, e: Env, m: Machine, p: nat, i: nat)
    requires Operable(d, e, m, p) && i < |d.phases[p].systemActions|
    ensures Calm(OperationsRest(d, e, m, p, i)) ==> Waiting(d, e, m, Operation(d, p, i))
    ensures Waiting(d, e, m, Operation(d, p, i)) ==> OperationsRest(d, e, m, p, i) == OperationsRest(d, e, m, p, i + 1)
    decreases |d.phases| - p, 0, 1
  {
    PoisedKid(d, e, m, p, Operation(d, p, i));
    PassOneOperation(d, e, m, p, i);
  }

  lemma PassOneOperation(d: Diagram, e: Env, m: Machine, p: nat, i: nat)
    requires Pre(d, m, p) && m.phases[p].state == Run && i < |d.phases[p].systemActions|
    ensures var r1 := UpdateKid(d, e, m, p, Operation(d, p, i));
            && (Calm(OperationsRest(d, e, m, p, i)) ==> Calm(r1))
            && (r1.out.Returned? && r1.m == m ==> OperationsRest(d, e, m, p, i) == OperationsRest(d, e, m, p, i + 1))
  {
    var r1 := UpdateKid(d, e, m, p, Operation(d, p, i));
    UpdateFirstOperation(d, e, m, p, i);
    if r1.out.Returned? {
      assert r1.m.transition ==> OperationsRest(d, e, r1.m, p, i + 1).m.transition;
    }
  }

  // ---------------------------------------------------------------- what a pass has seen

  ghost predicate Watched(d: Diagram, q: nat) {
    exists p: nat :: p < |d.phases| && d.Watches(p, q)
  }

  /** No phase with actions whose completion some condition reads has completed in between. */
  ghost predicate NoneCompleted(d: Diagram, m: Machine, m': Machine)
    requires |m.phases| == |m'.phases| == |d.phases| && |m.status| == |m'.status| == |d.actions|
  {
    forall q: nat ::
      q < |d.phases| && Watched(d, q) && !d.phases[q].kind.Mix? && !d.phases[q].kind.Serial? && HasCompleted(d, m', q) ==>
      HasCompleted(d, m, q)
  }

  lemma {:induction false} CheckAgrees(d: Diagram, e: Env, m: Machine, m': Machine, c: Condition)
    requires |m.phases| == |m'.phases| == |d.phases| && |m.status| == |m'.status| == |d.actions| && m'.effects == m.effects
    requires forall q :: 0 <= q < |m.phases| ==> m'.phases[q].state == m.phases[q].state
    requires forall q: nat :: q < |d.phases| && Reads(c, q) ==> HasCompleted(d, m', q) == HasCompleted(d, m, q)
    ensures Check(d, e, m', c) == Check(d, e, m, c)
    decreases c, 0
  {
    match c {
      case Or(ops) => CheckUntilAgrees(d, e, m, m', ops, Satisfied);
      case And(ops) => CheckUntilAgrees(d, e, m, m', ops, Unsatisfied);
      case _ =>
    }
  }

  lemma {:induction false} CheckUntilAgrees(d: Diagram, e: Env, m: Machine, m': Machine, ops: seq<Condition>, stop: Verdict)
    requires |m.phases| == |m'.phases| == |d.phases| && |m.status| == |m'.status| == |d.actions| && m'.effects == m.effects
    requires forall q :: 0 <= q < |m.phases| ==> m'.phases[q].state == m.phases[q].state
    requires forall q: nat :: q < |d.phases| && AnyReads(ops, q) ==> HasCompleted(d, m', q) == HasCompleted(d, m, q)
    ensures CheckUntil(d, e, m', ops, stop) == CheckUntil(d, e, m, ops, stop)
    decreases ops, 1
  {
    if ops != [] {
      CheckAgrees(d, e, m, m', ops[0]);
      CheckUntilAgrees(d, e, m, m', ops[1..], stop);
    }
  }

  lemma TriggeredAgrees(d: Diagram, e: Env, m: Machine, m': Machine, x: nat)
    requires |m.phases| == |m'.phases| == |d.phases| && |m.status| == |m'.status| == |d.actions| && m'.effects == m.effects
    requires forall q :: 0 <= q < |m.phases| ==> m'.phases[q].state == m.phases[q].state
    requires x < |d.phases|
    requires forall q: nat :: q < |d.phases| && d.Watches(x, q) ==> HasCompleted(d, m', q) == HasCompleted(d, m, q)
    ensures Triggered(d, e, m', x) == Triggered(d, e, m, x)
  {
    if d.phases[x].startCondition.Some? {
      CheckAgrees(d, e, m, m', d.phases[x].startCondition.value);
    }
    if d.phases[x].endCondition.Some? {
      CheckAgrees(d, e, m, m', d.phases[x].endCondition.value);
    }
  }

  lemma CompletionAgrees(d: Diagram, e: Env, m: Machine, n: Machine, q: nat)
    requires |m.phases| == |d.phases| && |m.status| == |d.actions| && q < |d.phases|
    requires Settles(d, e, m, n) && n.phases == m.phases && NoneCompleted(d, m, n) && Watched(d, q)
    ensures HasCompleted(d, n, q) == HasCompleted(d, m, q)
  {
    if HasCompleted(d, m, q) && !d.phases[q].kind.Mix? && !d.phases[q].kind.Serial? {
      forall i | 0 <= i < |Finals(d, q)| ensures Terminal(n.status[Finals(d, q)[i]]) {
        assert Terminal(m.status[Finals(d, q)[i]]);
      }
    }
  }

  lemma NoneCompletedSince(d: Diagram, e: Env, m: Machine, m': Machine, n: Machine)
    requires |m.phases| == |m'.phases| == |n.phases| == |d.phases| && |m.status| == |d.actions| && Settles(d, e, m, m')
    requires |n.status| == |d.actions| && NoneCompleted(d, m, n)
    ensures NoneCompleted(d, m', n)
  {
    forall q: nat | q < |d.phases| && Watched(d, q) && !d.phases[q].kind.Mix? && !d.phases[q].kind.Serial? && HasCompleted(d, n, q)
      ensures HasCompleted(d, m', q)
    {
      forall i | 0 <= i < |Finals(d, q)| ensures Terminal(m'.status[Finals(d, q)[i]]) {
        assert Terminal(m.status[Finals(d, q)[i]]);
      }
    }
  }

  /** `n` comes after a calm step from `m`, with the same phases, and nothing that is watched has completed. */
  ghost predicate Afterwards(d: Diagram, e: Env, m: Machine, r: Step, n: Machine) {
    && Calm(r) && |n.phases| == |d.phases| && n.phases == m.phases
    && |m.status| == |d.actions| && Settles(d, e, r.m, n) && Settles(d, e, m, n) && NoneCompleted(d, m, n)
  }

  lemma HasWaited(d: Diagram, e: Env, m: Machine, n: Machine, p: nat)
    requires |m.phases| == |d.phases| && |m.status| == |d.actions| && p < |d.phases|
    requires Settles(d, e, m, n) && n.phases == m.phases && NoneCompleted(d, m, n) && !Triggered(d, e, m, p)
    ensures !Triggered(d, e, n, p)
  {
    forall q: nat | q < |d.phases| && d.Watches(p, q) ensures HasCompleted(d, n, q) == HasCompleted(d, m, q) {
      assert Watched(d, q);
      CompletionAgrees(d, e, m, n, q);
    }
    TriggeredAgrees(d, e, m, n, p);
  }

  /** A calm update has found no condition satisfied, so none is afterwards. */
  lemma {:induction false} UpdateHasWaited(d: Diagram, e: Env, m: Machine, n: Machine, p: nat)
    requires Pre(d, m, p) && AtRest(d, m.phases, p) && Fits(d, n)
    requires Afterwards(d, e, m, Update(d, e, m, p), n)
    ensures Waiting(d, e, n, p)
    decreases |d.phases| - p, 5
  {
    var r := Advance(d, e, m, p);
    if m.phases[p].state == Run {
      assert r == TryEnd(d, e, m, p) == DoRunUpdate(d, e, m, p);
      RunHasWaited(d, e, m, n, p);
    } else {
      HasWaited(d, e, m, n, p);
    }
  }

  lemma {:induction false} RunHasWaited(d: Diagram, e: Env, m: Machine, n: Machine, p: nat)
    requires Pre(d, m, p) && AtRest(d, m.phases, p) && Fits(d, n) && m.phases[p].state == Run
    requires Afterwards(d, e, m, DoRunUpdate(d, e, m, p), n) && !DoRunUpdate(d, e, m, p).out.value
    ensures Waiting(d, e, n, p)
    decreases |d.phases| - p, 3
  {
    var r1 := UpdateContent(d, e, m, p);
    var r2 := UpdateSystemActions(d, e, r1.m, p, 0);
    QuietContentIsPoised(d, e, m, p);
    QuietOperationsArePoised(d, e, r1.m, p, 0, r2);
    assert DoRunUpdate(d, e, m, p) == Conclude(d, e, r2.m, p);
    SettlesChain(d, e, m, r1.m, r2.m);
    NoneCompletedSince(d, e, m, r1.m, n);
    NoneCompletedSince(d, e, m, r2.m, n);
    DecisionHasWaited(d, e, r2.m, n, p);
    SettlesChain(d, e, r1.m, r2.m, n);
    ContentHasWaited(d, e, m, n, p);
    forall j: nat | j < |d.phases[p].systemActions| ensures Waiting(d, e, n, Operation(d, p, j)) {
      OperationHasWaited(d, e, r1.m, n, p, 0, j);
    }
  }

  lemma DecisionHasWaited(d: Diagram, e: Env, m: Machine, n: Machine, p: nat)
    requires Pre(d, m, p) && m.phases[p].state == Run && !m.phases[p].initPending && Conclude(d, e, m, p).out == Returned(false)
    requires Settles(d, e, Conclude(d, e, m, p).m, n) && n.phases == m.phases && NoneCompleted(d, m, n)
    ensures Settles(d, e, m, n) && !Triggered(d, e, n, p)
  {
    var m1 := Conclude(d, e, m, p).m;
    QuietDecision(d, e, m, p);
    NoneCompletedSince(d, e, m, m1, n);
    SettlesChain(d, e, m, m1, n);
    HasWaited(d, e, m1, n, p);
  }

  ghost predicate KidCalm(d: Diagram, e: Env, m: Machine, n: Machine, p: nat, c: nat) {
    && Pre(d, m, p) && d.KidOK(p, c) && Inner(d, m.phases, p) && Fits(d, n)
    && Afterwards(d, e, m, UpdateKid(d, e, m, p, c), n)
  }

  lemma {:induction false} KidHasWaited(d: Diagram, e: Env, m: Machine, n: Machine, p: nat, c: nat)
    requires KidCalm(d, e, m, n, p, c)
    ensures Waiting(d, e, n, c)
    decreases |d.phases| - p, 0, 0
  {
    InnerBelow(d, m.phases, p, c);
    UpdateHasWaited(d, e, m, n, c);
  }

  lemma {:induction false} ContentHasWaited(d: Diagram, e: Env, m: Machine, n: Machine, p: nat)
    requires Pre(d, m, p) && AtRest(d, m.phases, p) && Fits(d, n) && m.phases[p].state == Run
    requires Afterwards(d, e, m, UpdateContent(d, e, m, p), n)
    ensures ContentWaiting(d, e, n, p, 0)
    decreases |d.phases| - p, 2
  {
    match d.phases[p].kind {
      case Mix =>
        var m1 := AtPosition(d, m, p, 0);
        assert OrderOK(d, m.phases, p);
        assert UpdateContent(d, e, m, p) == UpdateChildren(d, e, m1, p, 0);
        OwnFrame(d, m.phases, m1.phases, p);
        ChildrenHaveWaited(d, e, m1, n, p, 0);
      case Serial =>
        if m.phases[p].position < |d.phases[p].children| {
          CalmInOrder(d, e, m, p);
          KidHasWaited(d, e, m, n, p, Child(d, p, m.phases[p].position));
        }
      case _ =>
    }
  }

  lemma CalmInOrder(d: Diagram, e: Env, m: Machine, p: nat)
    requires Pre(d, m, p) && AtRest(d, m.phases, p) && m.phases[p].state == Run && d.phases[p].kind.Serial?
    requires m.phases[p].position < |d.phases[p].children| && Calm(UpdateContent(d, e, m, p))
    ensures UpdateKid(d, e, m, p, Child(d, p, m.phases[p].position)) == Step(UpdateContent(d, e, m, p).m, Returned(false))
  {
    var c := Child(d, p, m.phases[p].position);
    var r1 := UpdateKid(d, e, m, p, c);
    QuietKidIsPoised(d, e, m, p, c);
    assert m.phases[c].state != End;
    InOrderStep(d, e, m, p);
  }

  ghost predicate ChildrenCalm(d: Diagram, e: Env, m: Machine, n: Machine, p: nat, i: nat) {
    && Pre(d, m, p) && Inner(d, m.phases, p) && Fits(d, n) && m.phases[p].state == Run && d.phases[p].kind.Mix?
    && IsOrder(m.phases[p].execOrder, |d.phases[p].children|) && i <= |m.phases[p].execOrder|
    && m.phases == AtPosition(d, n, p, i).phases
    && Afterwards(d, e, m, UpdateChildren(d, e, m, p, i), n.(phases := m.phases))
  }

  lemma {:induction false} ChildrenHaveWaited(d: Diagram, e: Env, m: Machine, n: Machine, p: nat, i: nat)
    requires ChildrenCalm(d, e, m, n, p, i)
    ensures ContentWaiting(d, e, n, p, i)
    decreases |d.phases| - p, 1, |m.phases[p].execOrder| - i
  {
    if i < |m.phases[p].execOrder| {
      NextChild(d, e, m, n, p, i);
      KidHasWaited(d, e, m, n.(phases := m.phases), p, Child(d, p, m.phases[p].execOrder[i]));
      ChildrenHaveWaited(d, e, UpdateChild(d, e, m, p, m.phases[p].execOrder[i]).m, n, p, i + 1);
      assert AtPosition(d, n, p, i) == n.(phases := m.phases);
      assert OrderWaiting(d, e, n, p, i) && ContentWaiting(d, e, n, p, i + 1);
    }
  }

  /** A calm pass over the children from position `i` on starts with a calm update of one child. */
  lemma NextChild(d: Diagram, e: Env, m: Machine, n: Machine, p: nat, i: nat)
    requires ChildrenCalm(d, e, m, n, p, i) && i < |m.phases[p].execOrder|
    ensures KidCalm(d, e, m, n.(phases := m.phases), p, Child(d, p, m.phases[p].execOrder[i]))
    ensures ChildrenCalm(d, e, UpdateChild(d, e, m, p, m.phases[p].execOrder[i]).m, n, p, i + 1)
  {
    var order := m.phases[p].execOrder;
    var r0, r1 := UpdateKid(d, e, m, p, Child(d, p, order[i])), UpdateChild(d, e, m, p, order[i]);
    var r := UpdateChildren(d, e, m, p, i);
    CalmChild(d, e, m, p, i);
    NextPosition(d, n, p, i);
    AfterwardsSplits(d, e, m, r1, r, n.(phases := m.phases));
    AfterwardsSplits(d, e, m, r0, r, n.(phases := m.phases));
  }

  lemma CalmChild(d: Diagram, e: Env, m: Machine, p: nat, i: nat)
    requires Pre(d, m, p) && Inner(d, m.phases, p) && m.phases[p].state == Run && d.phases[p].kind.Mix?
    requires IsOrder(m.phases[p].execOrder, |d.phases[p].children|) && i < |m.phases[p].execOrder|
    requires Calm(UpdateChildren(d, e, m, p, i))
    ensures var c, k := Child(d, p, m.phases[p].execOrder[i]), m.phases[p].execOrder[i];
            var r0, r1, r := UpdateKid(d, e, m, p, c), UpdateChild(d, e, m, p, k), UpdateChildren(d, e, m, p, i);
            && r == UpdateChildren(d, e, r1.m, p, i + 1)
            && Calm(r0) && Quiet(d, e, m, r0.m) && Settles(d, e, r0.m, r.m)
            && Calm(r1) && Settles(d, e, m, r1.m) && Settles(d, e, r1.m, r.m) && Inner(d, r1.m.phases, p)
            && r1.m.phases == if m.phases[c].state == End then m.phases else SetChildrenDone(d, m, p, false).phases
  {
    var order := m.phases[p].execOrder;
    var r1 := UpdateChild(d, e, m, p, order[i]);
    UpdateFirstChild(d, e, m, p, order, i);
    QuietChildIsPoised(d, e, m, p, order[i]);
    QuietKidIsPoised(d, e, m, p, Child(d, p, order[i]));
    if Calm(r1) {
      QuietChildrenArePoised(d, e, r1.m, p, order, i + 1);
    }
  }

  lemma AfterwardsSplits(d: Diagram, e: Env, m: Machine, r1: Step, r: Step, n: Machine)
    requires |m.phases| == |r1.m.phases| == |d.phases| && Calm(r1)
    requires Settles(d, e, m, r1.m) && Settles(d, e, r1.m, r.m) && Afterwards(d, e, m, r, n)
    ensures Afterwards(d, e, m, r1, n) && Afterwards(d, e, r1.m, r, n.(phases := r1.m.phases))
  {
    SettlesChain(d, e, r1.m, r.m, n);
    NoneCompletedSince(d, e, m, r1.m, n);
  }

  ghost predicate OperationsCalm(d: Diagram, e: Env, m: Machine, n: Machine, p: nat, i: nat) {
    && Pre(d, m, p) && Inner(d, m.phases, p) && Fits(d, n) && m.phases[p].state == Run
    && Afterwards(d, e, m, OperationsRest(d, e, m, p, i), n)
  }

  lemma {:induction false} OperationHasWaited(d: Diagram, e: Env, m: Machine, n: Machine, p: nat, i: nat, j: nat)
    requires OperationsCalm(d, e, m, n, p, i) && i <= j < |d.phases[p].systemActions|
    ensures Waiting(d, e, n, Operation(d, p, j))
    decreases |d.phases| - p, 1, |d.phases[p].systemActions| - i
  {
    NextOperation(d, e, m, n, p, i);
    if i == j {
      KidHasWaited(d, e, m, n, p, Operation(d, p, i));
    } else {
      OperationHasWaited(d, e, UpdateKid(d, e, m, p, Operation(d, p, i)).m, n, p, i + 1, j);
    }
  }

  lemma NextOperation(d: Diagram, e: Env, m: Machine, n: Machine, p: nat, i: nat)
    requires OperationsCalm(d, e, m, n, p, i) && i < |d.phases[p].systemActions|
    ensures var c := Operation(d, p, i);
            KidCalm(d, e, m, n, p, c) && OperationsCalm(d, e, UpdateKid(d, e, m, p, c).m, n, p, i + 1)
  {
    var c, r := Operation(d, p, i), OperationsRest(d, e, m, p, i);
    var r1 := UpdateKid(d, e, m, p, c);
    UpdateFirstOperation(d, e, m, p, i);
    QuietKidIsPoised(d, e, m, p, c);
    if Calm(r1) {
      QuietOperationsArePoised(d, e, r1.m, p, i + 1, r);
      AfterwardsSplits(d, e, m, r1, r, n);
    }
  }

  // ---------------------------------------------------------------- phase by phase

  /** All phases above `x` are running. */
  ghost predicate Awake(d: Diagram, m: Machine, x: nat)
    requires |m.phases| == |d.phases| && x < |d.phases|
    decreases x
  {
    || x == 0
    || (d.phases[x].parent.Some? && d.phases[x].parent.value < x && m.phases[d.phases[x].parent.value].state == Run
        && (x in d.phases[d.phases[x].parent.value].children || x in d.phases[d.phases[x].parent.value].systemActions)
        && Awake(d, m, d.phases[x].parent.value))
  }

  /** The children of `q` that are updated before `c` have all ended. */
  ghost predicate EarlierEnded(d: Diagram, m: Machine, q: nat, c: nat)
    requires |m.phases| == |d.phases| && q < |d.phases|
  {
    forall i :: 0 <= i < |m.phases[q].execOrder| && IsChild(d, q, m.phases[q].execOrder[i], c) ==>
      OrderEnded(d, m.phases, q, m.phases[q].execOrder, i)
  }

  predicate IsChild(d: Diagram, q: nat, k: nat, c: nat)
    requires q < |d.phases|
  {
    k < |d.phases[q].children| && d.phases[q].children[k] == c
  }

  predicate Encloses(d: Diagram, q: nat, x: nat)
    requires q < |d.phases| && x < |d.phases|
  {
    q < x && d.phases[x].last <= d.phases[q].last
  }

  /** What phase `x` sees in a pass that changes nothing: the completion flag of a mix phase above it,
      which is being recomputed, tells only about the children updated before. */
  ghost function Seen(d: Diagram, m: Machine, x: nat): (r: Machine)
    requires Fits(d, m) && x < |d.phases|
    ensures Fits(d, r) && r == m.(phases := r.phases) && |r.phases| == |m.phases|
    ensures forall q :: 0 <= q < |m.phases| ==> r.phases[q] == m.phases[q].(childrenDone := r.phases[q].childrenDone)
    ensures forall q :: 0 <= q < |m.phases| && !(Encloses(d, q, x) && d.phases[q].kind.Mix?) ==> r.phases[q] == m.phases[q]
    decreases x
  {
    match d.phases[x].parent
    case Some(q) =>
      if q < x && x in d.phases[q].children then
        var s := Seen(d, m, q);
        assert d.PhaseOK(q);
        if d.phases[q].kind.Mix? then SetChildrenDone(d, s, q, EarlierEnded(d, m, q, x)) else s
      else if q < x && x in d.phases[q].systemActions then assert d.PhaseOK(q); Seen(d, m, q)
      else m
    case None => m
  }

  lemma PositionOfChild(d: Diagram, m: Machine, q: nat, i: nat)
    requires Fits(d, m) && q < |d.phases| && IsOrder(m.phases[q].execOrder, |d.phases[q].children|)
    requires i < |m.phases[q].execOrder|
    ensures var c := Child(d, q, m.phases[q].execOrder[i]);
            EarlierEnded(d, m, q, c) <==> OrderEnded(d, m.phases, q, m.phases[q].execOrder, i)
  {
    var order, c := m.phases[q].execOrder, Child(d, q, m.phases[q].execOrder[i]);
    forall j | 0 <= j < |order| && IsChild(d, q, order[j], c) ensures j == i {
      if order[j] != order[i] {
        ChildrenApart(d, q, order[j], order[i]);
      }
    }
    assert IsChild(d, q, order[i], c);
  }

  /** The machine that child number `order[i]` of a mix phase sees is the one at its position. */
  lemma SeenAtPosition(d: Diagram, m: Machine, q: nat, i: nat)
    requires Fits(d, m) && q < |d.phases| && d.phases[q].kind.Mix?
    requires IsOrder(m.phases[q].execOrder, |d.phases[q].children|) && i < |m.phases[q].execOrder|
    ensures Seen(d, m, Child(d, q, m.phases[q].execOrder[i])) == AtPosition(d, Seen(d, m, q), q, i)
  {
    var s, order := Seen(d, m, q), m.phases[q].execOrder;
    PositionOfChild(d, m, q, i);
    assert s.phases[q].execOrder == order;
    assert forall k: nat :: ChildEnded(d, s.phases, q, k) <==> ChildEnded(d, m.phases, q, k);
    assert OrderEnded(d, s.phases, q, order, i) <==> OrderEnded(d, m.phases, q, order, i);
  }

  /** No phase whose ancestors all run is triggered by what it sees. */
  ghost predicate NoneTriggered(d: Diagram, e: Env, m: Machine)
    requires Fits(d, m)
  {
    forall x: nat :: x < |d.phases| && Awake(d, m, x) ==> !Triggered(d, e, Seen(d, m, x), x)
  }

  lemma {:induction false} NoneTriggeredWaits(d: Diagram, e: Env, m: Machine, p: nat)
    requires Fits(d, m) && NoneTriggered(d, e, m) && p < |d.phases| && Awake(d, m, p)
    ensures Waiting(d, e, Seen(d, m, p), p)
    decreases |d.phases| - p
  {
    var s := Seen(d, m, p);
    if m.phases[p].state == Run {
      forall i: nat | i < |d.phases[p].systemActions| ensures Waiting(d, e, s, Operation(d, p, i)) {
        OperationIsNoChild(d, p, i);
        NoneTriggeredWaits(d, e, m, Operation(d, p, i));
      }
      match d.phases[p].kind {
        case Mix =>
          assert OrderOK(d, m.phases, p);
          forall i: nat | i < |s.phases[p].execOrder| ensures OrderWaiting(d, e, s, p, i) {
            SeenAtPosition(d, m, p, i);
            NoneTriggeredWaits(d, e, m, Child(d, p, m.phases[p].execOrder[i]));
          }
        case Serial =>
          if m.phases[p].position < |d.phases[p].children| {
            NoneTriggeredWaits(d, e, m, Child(d, p, m.phases[p].position));
          }
        case _ =>
      }
    }
  }

  lemma OperationIsNoChild(d: Diagram, p: nat, i: nat)
    requires p < |d.phases| && i < |d.phases[p].systemActions|
    ensures Operation(d, p, i) !in d.phases[p].children
  {
    forall k | 0 <= k < |d.phases[p].children| ensures d.phases[p].children[k] != Operation(d, p, i) {
      OperationsFirst(d, p, i, k);
    }
  }

  lemma {:induction false} WaitingReaches(d: Diagram, e: Env, m: Machine, x: nat)
    requires Fits(d, m) && x < |d.phases| && AtRest(d, m.phases, 0) && Waiting(d, e, m, 0) && Awake(d, m, x)
    ensures Waiting(d, e, Seen(d, m, x), x)
    decreases x
  {
    if x != 0 {
      var q := d.phases[x].parent.value;
      WaitingReaches(d, e, m, q);
      if x in d.phases[q].children {
        ChildWaits(d, e, m, q, x);
      } else {
        var i: nat :| i < |d.phases[q].systemActions| && d.phases[q].systemActions[i] == x;
        assert Operation(d, q, i) == x;
      }
    }
  }

  lemma ChildWaits(d: Diagram, e: Env, m: Machine, q: nat, x: nat)
    requires Fits(d, m) && q < |d.phases| && AtRest(d, m.phases, 0) && m.phases[q].state == Run
    requires x < |d.phases| && x in d.phases[q].children && Waiting(d, e, Seen(d, m, q), q)
    ensures Waiting(d, e, Seen(d, m, x), x)
  {
    CompositeHasChildren(d, q);
    var k: nat :| k < |d.phases[q].children| && d.phases[q].children[k] == x;
    assert Child(d, q, k) == x;
    SubtreeBounds(d, 0);
    assert NodeOK(d, m.phases, q) && Settled(d, m.phases, q);
    if d.phases[q].kind.Mix? {
      assert OrderOK(d, m.phases, q);
      assert k in m.phases[q].execOrder;
      var i: nat :| i < |m.phases[q].execOrder| && m.phases[q].execOrder[i] == k;
      SeenAtPosition(d, m, q, i);
      assert OrderWaiting(d, e, Seen(d, m, q), q, i);
    } else {
      OthersDoNotRun(d, m.phases, q, k);
    }
  }

  /** Only the current child of a running serial phase starts or runs. */
  lemma OthersDoNotRun(d: Diagram, phases: seq<PhaseRt>, q: nat, k: nat)
    requires q < |d.phases| == |phases| && NodeOK(d, phases, q) && phases[q].state == Run && d.phases[q].kind.Serial?
    requires k < |d.phases[q].children|
    ensures var x := Child(d, q, k);
            phases[x].state == Start || phases[x].state == Run ==> k == phases[q].position
  {
    var kids, n := d.phases[q].children, phases[q].position;
    if k < n {
      assert kids[..n][k] == kids[k];
    } else if k > n {
      assert kids[n + 1..][k - n - 1] == kids[k];
    }
  }

  lemma NoneTriggeredExactly(d: Diagram, e: Env, m: Machine)
    requires Fits(d, m) && d.phases != [] && AtRest(d, m.phases, 0)
    ensures NoneTriggered(d, e, m) <==> Waiting(d, e, m, 0)
  {
    if NoneTriggered(d, e, m) {
      NoneTriggeredWaits(d, e, m, 0);
    }
    if Waiting(d, e, m, 0) {
      forall x: nat | x < |d.phases| && Awake(d, m, x) ensures !Triggered(d, e, Seen(d, m, x), x) {
        WaitingReaches(d, e, m, x);
      }
    }
  }

  // ---------------------------------------------------------------- the fixpoint

  /** The machine from which the last pass of an update event starts. */
  function LastInput(d: Diagram, e: Env, m: Machine): (r: Machine)
    requires Pre(d, m, 0)
    ensures Pre(d, r, 0) && !r.transition && Update(d, e, r, 0) == RunPasses(d, e, m, true).step
    decreases 3 * |d.phases| - RankSum(m.phases)
  {
    var m0 := m.(transition := false);
    var r := Update(d, e, m0, 0);
    RankSumBounded(m.phases);
    RankSumBounded(r.m.phases);
    if r.out.Raised? || !r.m.transition then m0 else LastInput(d, e, r.m)
  }

  lemma {:induction false} LastInputIsAtRest(d: Diagram, e: Env, m: Machine)
    requires Pre(d, m, 0) && AtRest(d, m.phases, 0)
    ensures AtRest(d, LastInput(d, e, m).phases, 0)
    decreases 3 * |d.phases| - RankSum(m.phases)
  {
    var m0 := m.(transition := false);
    var r := Update(d, e, m0, 0);
    RankSumBounded(r.m.phases);
    if r.out.Returned? && r.m.transition {
      UpdateKeepsTree(d, e, m0, 0);
      LastInputIsAtRest(d, e, r.m);
    }
  }

  /** The passes of an update event end with a calm one. */
  lemma LastPass(d: Diagram, e: Env, m: Machine)
    requires Pre(d, m, 0) && AtRest(d, m.phases, 0)
    ensures var r := RunPasses(d, e, m, true).step;
            r.out.Returned? ==>
              && AtRest(d, r.m.phases, 0) && Calm(r) && Poised(d, e, r.m, 0) && Quiet(d, e, LastInput(d, e, m), r.m)
              && r == Step(r.m, Returned(r.m.phases[0].state == End))
  {
    LastInputIsAtRest(d, e, m);
    QuietUpdateIsPoised(d, e, LastInput(d, e, m), 0);
  }

  /** Main result: when the passes of an update event end normally, one more pass in the same world changes
      nothing exactly if no phase a pass reaches is triggered by what it then sees; otherwise it
      throws or makes a transition. */
  lemma FixpointExactly(d: Diagram, e: Env, m: Machine)
    requires Pre(d, m, 0) && AtRest(d, m.phases, 0)
    ensures var r := RunPasses(d, e, m, true).step;
            r.out.Returned? ==>
              && (Update(d, e, r.m, 0) == r <==> NoneTriggered(d, e, r.m))
              && (Update(d, e, r.m, 0) == r || !Calm(Update(d, e, r.m, 0)))
  {
    var r := RunPasses(d, e, m, true).step;
    LastPass(d, e, m);
    if r.out.Returned? {
      PoisedUpdate(d, e, r.m, 0);
      NoneTriggeredExactly(d, e, r.m);
    }
  }

  /** A caller's guard: it changes nothing if no phase whose completion some condition reads completed
      its actions in the last pass. */
  lemma FixpointUnlessCompleted(d: Diagram, e: Env, m: Machine)
    requires Pre(d, m, 0) && AtRest(d, m.phases, 0)
    ensures var r := RunPasses(d, e, m, true).step;
            r.out.Returned? && NoneCompleted(d, LastInput(d, e, m), r.m) ==> Update(d, e, r.m, 0) == r
  {
    var m0, r := LastInput(d, e, m), RunPasses(d, e, m, true).step;
    LastPass(d, e, m);
    if r.out.Returned? && NoneCompleted(d, m0, r.m) {
      LastInputIsAtRest(d, e, m);
      UpdateHasWaited(d, e, m0, r.m, 0);
      PoisedUpdate(d, e, r.m, 0);
    }
  }

  /** In particular if conditions read only the world, the time and phase states. */
  lemma SuperStepFixpoint(d: Diagram, e: Env, m: Machine)
    requires Pre(d, m, 0) && AtRest(d, m.phases, 0) && d.ConditionsReadStatesOnly()
    ensures var r := RunPasses(d, e, m, true).step;
            r.out.Returned? ==> Update(d, e, r.m, 0) == r
  {
    LastPass(d, e, m);
    FixpointUnlessCompleted(d, e, m);
  }

  /** No condition reads the completion of a mix phase above its own. */
  ghost predicate ReadsElsewhere(d: Diagram) {
    forall x: nat, q: nat :: x < |d.phases| && q < |d.phases| && Encloses(d, q, x) && d.phases[q].kind.Mix? ==> !d.Watches(x, q)
  }

  lemma SeenElsewhere(d: Diagram, e: Env, m: Machine, x: nat)
    requires Fits(d, m) && x < |d.phases| && ReadsElsewhere(d)
    ensures Triggered(d, e, Seen(d, m, x), x) == Triggered(d, e, m, x)
  {
    TriggeredAgrees(d, e, m, Seen(d, m, x), x);
  }

  /** Then a phase is triggered by the machine as the last pass leaves it. */
  lemma FixpointElsewhere(d: Diagram, e: Env, m: Machine)
    requires Pre(d, m, 0) && AtRest(d, m.phases, 0) && ReadsElsewhere(d)
    ensures var r := RunPasses(d, e, m, true).step;
            r.out.Returned? ==>
              (Update(d, e, r.m, 0) == r <==> forall x: nat :: x < |d.phases| && Awake(d, r.m, x) ==> !Triggered(d, e, r.m, x))
  {
    var r := RunPasses(d, e, m, true).step;
    FixpointExactly(d, e, m);
    forall x: nat | x < |d.phases| ensures Triggered(d, e, Seen(d, r.m, x), x) == Triggered(d, e, r.m, x) {
      SeenElsewhere(d, e, r.m, x);
    }
  }
}
