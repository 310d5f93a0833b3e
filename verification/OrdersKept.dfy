/** Execution orders, once installed, stay as they are while the phases below run. */
module OrdersKept {
  import opened Wrappers
  import opened Scenario
  import opened PhaseSemantics
  import opened PhaseTree
  import opened PhaseVisits

  /** No mix phase loses its execution order, and that of `g` stays the same. */
  ghost predicate Kept(m: Machine, m': Machine, g: nat) {
    && g < |m.phases| == |m'.phases| && m'.phases[g].execOrder == m.phases[g].execOrder
    && forall x :: 0 <= x < |m.phases| && m.phases[x].execOrder != [] ==> m'.phases[x].execOrder != []
  }

  /** No phase below `p` that still has to be sorted has `g` below it. */
  ghost predicate Covered(d: Diagram, m: Machine, p: nat, g: nat)
    requires |m.phases| == |d.phases| && p < |d.phases|
  {
    forall x: nat ::
      InSubtree(d, p, x) && x < |d.phases| && d.phases[x].kind.Mix? && m.phases[x].execOrder == [] ==> !InSubtree(d, x, g)
  }

  lemma KeptChain(m1: Machine, m2: Machine, m3: Machine, g: nat)
    requires Kept(m1, m2, g) && Kept(m2, m3, g)
    ensures Kept(m1, m3, g)
  {
  }

  lemma StaysCovered(d: Diagram, m: Machine, m': Machine, p: nat, g: nat)
    requires |m.phases| == |d.phases| && p < |d.phases| && Covered(d, m, p, g) && Kept(m, m', g)
    ensures Covered(d, m', p, g)
  {
    forall x: nat | InSubtree(d, p, x) && x < |d.phases| && d.phases[x].kind.Mix? && m'.phases[x].execOrder == []
      ensures !InSubtree(d, x, g)
    {
      assert m.phases[x].execOrder == [];
    }
  }

  lemma {:induction false} OnEndKeeps(d: Diagram, m: Machine, p: nat, g: nat)
    requires Pre(d, m, p) && g < |d.phases|
    ensures Kept(m, OnEnd(d, m, p), g)
    decreases |d.phases| - p, 1, 0
  {
    if d.phases[p].kind.Mix? {
      EndChildrenKeeps(d, m, p, 0, g);
    } else if d.phases[p].kind.Serial? {
      EndChildrenKeeps(d, m, p, m.phases[p].position, g);
    }
  }

  lemma {:induction false} EndChildrenKeeps(d: Diagram, m: Machine, p: nat, i: nat, g: nat)
    requires Pre(d, m, p) && g < |d.phases|
    ensures Kept(m, EndRest(d, m, p, i), g)
    decreases |d.phases| - p, 0, |d.phases[p].children| - i
  {
    EndFirstChild(d, m, p, i);
    if i < |d.phases[p].children| {
      var c := Child(d, p, i);
      var m1 := OnEnd(d, m, c);
      OnEndKeeps(d, m, c, g);
      EndChildrenKeeps(d, m1, p, i + 1, g);
      KeptChain(m, m1, EndRest(d, m1, p, i + 1), g);
    }
  }

  /** Main result: an update below which `g` is covered keeps the execution order of `g`. */
  lemma {:induction false} UpdateKeepsOrder(d: Diagram, e: Env, m: Machine, p: nat, g: nat)
    requires Pre(d, m, p) && g < |d.phases| && Covered(d, m, p, g)
    ensures Kept(m, Update(d, e, m, p).m, g)
    decreases |d.phases| - p, 3 - Rank(m.phases[p].state), 5, 0
  {
    AdvanceKeepsOrder(d, e, m, p, g);
    var r := Advance(d, e, m, p);
    if r.out == Returned(true) {
      StaysCovered(d, m, r.m, p, g);
      UpdateKeepsOrder(d, e, r.m, p, g);
      KeptChain(m, r.m, Update(d, e, r.m, p).m, g);
    }
  }

  lemma {:induction false} AdvanceKeepsOrder(d: Diagram, e: Env, m: Machine, p: nat, g: nat)
    requires Pre(d, m, p) && g < |d.phases| && Covered(d, m, p, g)
    ensures Kept(m, Advance(d, e, m, p).m, g)
    decreases |d.phases| - p, 3 - Rank(m.phases[p].state), 4, 0
  {
    if m.phases[p].state == Start {
      if StartDecision(d, e, m, p) == Satisfied {
        OnRunKeepsOrder(d, e, m, p, g);
      }
    } else if m.phases[p].state == Run {
      RunKeepsOrder(d, e, m, p, g);
      var r1 := DoRunUpdate(d, e, m, p);
      if r1.out == Returned(true) {
        OnEndKeeps(d, r1.m, p, g);
        KeptChain(m, r1.m, OnEnd(d, r1.m, p), g);
      }
    }
  }

  lemma OnRunKeepsOrder(d: Diagram, e: Env, m: Machine, p: nat, g: nat)
    requires Pre(d, m, p) && g < |d.phases| && m.phases[p].state == Start
    ensures Kept(m, OnRun(d, e, m, p).m, g)
  {
    var r1 := if d.phases[p].kind.ActorAction? then Apply(d, e, m, InitializeActor(p)) else Step(m, Returned(true));
    assert r1.m.phases == m.phases;
    if r1.out.Returned? {
      var m2 := SetState(d, BeforeRun(d, r1.m, p), p, Run);
      assert AfterRun(d, e, m2, p).m.phases == m2.phases;
    }
  }

  lemma {:induction false} RunKeepsOrder(d: Diagram, e: Env, m: Machine, p: nat, g: nat)
    requires Pre(d, m, p) && g < |d.phases| && m.phases[p].state == Run && Covered(d, m, p, g)
    ensures Kept(m, DoRunUpdate(d, e, m, p).m, g)
    decreases |d.phases| - p, 0, 3, 0
  {
    var r1 := UpdateContent(d, e, m, p);
    ContentKeepsOrder(d, e, m, p, g);
    if r1.out.Returned? {
      var r2 := UpdateSystemActions(d, e, r1.m, p, 0);
      StaysCovered(d, m, r1.m, p, g);
      OperationsKeepOrder(d, e, r1.m, p, 0, g);
      KeptChain(m, r1.m, r2.m, g);
      if r2.out.Returned? {
        ConcludeKeepsOrder(d, e, r2.m, p, g);
        KeptChain(m, r2.m, Conclude(d, e, r2.m, p).m, g);
      }
    }
  }

  lemma ConcludeKeepsOrder(d: Diagram, e: Env, m: Machine, p: nat, g: nat)
    requires Pre(d, m, p) && g < |d.phases|
    ensures Kept(m, Conclude(d, e, m, p).m, g)
  {
  }

  lemma {:induction false} ContentKeepsOrder(d: Diagram, e: Env, m: Machine, p: nat, g: nat)
    requires Pre(d, m, p) && g < |d.phases| && m.phases[p].state == Run && Covered(d, m, p, g)
    ensures Kept(m, UpdateContent(d, e, m, p).m, g)
    decreases |d.phases| - p, 0, 2, 0
  {
    if d.phases[p].kind.Mix? {
      var r1 := SortIfNeeded(d, e, m, p);
      SortingKeepsOrder(d, e, m, p, g);
      if r1.out.Returned? {
        var m2 := SetChildrenDone(d, r1.m, p, true);
        KeptChain(m, r1.m, m2, g);
        StaysCovered(d, m, m2, p, g);
        ChildrenKeepOrder(d, e, m2, p, m2.phases[p].execOrder, 0, g);
        KeptChain(m, m2, UpdateChildren(d, e, m2, p, 0).m, g);
      }
    } else if d.phases[p].kind.Serial? {
      InOrderKeepsOrder(d, e, m, p, g);
    }
  }

  lemma SortingKeepsOrder(d: Diagram, e: Env, m: Machine, p: nat, g: nat)
    requires Pre(d, m, p) && g < |d.phases| && d.phases[p].kind.Mix? && Covered(d, m, p, g)
    ensures Kept(m, SortIfNeeded(d, e, m, p).m, g)
  {
    if m.phases[p].execOrder == [] {
      assert InSubtree(d, p, p);
    }
  }

  lemma {:induction false} KidKeepsOrder(d: Diagram, e: Env, m: Machine, p: nat, c: nat, g: nat)
    requires Pre(d, m, p) && d.KidOK(p, c) && g < |d.phases| && Covered(d, m, p, g)
    ensures Kept(m, UpdateKid(d, e, m, p, c).m, g) && Covered(d, UpdateKid(d, e, m, p, c).m, p, g)
    decreases |d.phases| - p, 0, 0, 0
  {
    assert Covered(d, m, c, g);
    UpdateKeepsOrder(d, e, m, c, g);
    StaysCovered(d, m, UpdateKid(d, e, m, p, c).m, p, g);
  }

  lemma {:induction false} ChildrenKeepOrder(d: Diagram, e: Env, m: Machine, p: nat, order: seq<nat>, i: nat, g: nat)
    requires Pre(d, m, p) && g < |d.phases| && m.phases[p].state == Run && d.phases[p].kind.Mix? && Covered(d, m, p, g)
    requires IsOrder(order, |d.phases[p].children|) && m.phases[p].execOrder == order && i <= |order|
    ensures Kept(m, UpdateRest(d, e, m, p, order, i).m, g)
    decreases |d.phases| - p, 0, 1, |order| - i
  {
    if i < |order| {
      var r1 := UpdateChild(d, e, m, p, order[i]);
      ChildKeepsOrder(d, e, m, p, order[i], g);
      UpdateFirstChild(d, e, m, p, order, i);
      if r1.out.Returned? {
        ChildrenKeepOrder(d, e, r1.m, p, order, i + 1, g);
        KeptChain(m, r1.m, UpdateRest(d, e, r1.m, p, order, i + 1).m, g);
      }
    }
  }

  lemma {:induction false} ChildKeepsOrder(d: Diagram, e: Env, m: Machine, p: nat, k: nat, g: nat)
    requires Pre(d, m, p) && k < |d.phases[p].children| && g < |d.phases| && Covered(d, m, p, g)
    ensures Kept(m, UpdateChild(d, e, m, p, k).m, g) && Covered(d, UpdateChild(d, e, m, p, k).m, p, g)
    decreases |d.phases| - p, 0, 0, 1
  {
    KidKeepsOrder(d, e, m, p, Child(d, p, k), g);
    StaysCovered(d, m, UpdateChild(d, e, m, p, k).m, p, g);
  }

  lemma {:induction false} InOrderKeepsOrder(d: Diagram, e: Env, m: Machine, p: nat, g: nat)
    requires Pre(d, m, p) && g < |d.phases| && m.phases[p].state == Run && d.phases[p].kind.Serial? && Covered(d, m, p, g)
    ensures Kept(m, UpdateInOrder(d, e, m, p).m, g)
    decreases |d.phases| - p, 0, 1, |d.phases[p].children| - m.phases[p].position
  {
    if m.phases[p].position < |d.phases[p].children| {
      var c := Child(d, p, m.phases[p].position);
      var r1 := UpdateKid(d, e, m, p, c);
      KidKeepsOrder(d, e, m, p, c, g);
      if r1.out == Returned(true) {
        var m2 := PassChild(d, r1.m, p);
        StaysCovered(d, r1.m, m2, p, g);
        InOrderKeepsOrder(d, e, m2, p, g);
        KeptChain(m, m2, UpdateInOrder(d, e, m2, p).m, g);
      }
    }
  }

  lemma {:induction false} OperationsKeepOrder(d: Diagram, e: Env, m: Machine, p: nat, i: nat, g: nat)
    requires Pre(d, m, p) && g < |d.phases| && m.phases[p].state == Run && Covered(d, m, p, g)
    ensures Kept(m, OperationsRest(d, e, m, p, i).m, g)
    decreases |d.phases| - p, 0, 1, |d.phases[p].systemActions| - i
  {
    if i < |d.phases[p].systemActions| {
      var c := Operation(d, p, i);
      var r1 := UpdateKid(d, e, m, p, c);
      KidKeepsOrder(d, e, m, p, c, g);
      UpdateFirstOperation(d, e, m, p, i);
      if r1.out.Returned? {
        OperationsKeepOrder(d, e, r1.m, p, i + 1, g);
        KeptChain(m, r1.m, OperationsRest(d, e, r1.m, p, i + 1).m, g);
      }
    }
  }

  // ---------------------------------------------------------------- a sorted subtree

  /** A phase between `s` and a phase active below it is active too. */
  lemma {:induction false} ActiveBetween(d: Diagram, s: nat, x: nat, g: nat)
    requires s < |d.phases| && x < |d.phases| && g < |d.phases| && Active(d, s, g) && s <= x && InSubtree(d, x, g)
    ensures Active(d, s, x)
    decreases g
  {
    if g != x {
      assert d.PhaseOK(x) && d.Nested(x);
      ActiveBetween(d, s, x, d.phases[g].parent.value);
    }
  }

  /** Once the subtree of `s` is sorted, its active mix phases are covered. */
  lemma SortedAreCovered(d: Diagram, m: Machine, s: nat, orders: Orders, g: nat)
    requires |m.phases| == |d.phases| && s < |d.phases| && OrdersEverything(d, s, orders)
    requires forall q :: q in orders && q < |d.phases| ==> m.phases[q].execOrder != []
    requires g < |d.phases| && Active(d, s, g)
    ensures Covered(d, m, s, g)
  {
    forall x: nat | InSubtree(d, s, x) && x < |d.phases| && d.phases[x].kind.Mix? && m.phases[x].execOrder == []
      ensures !InSubtree(d, x, g)
    {
      if InSubtree(d, x, g) {
        ActiveBetween(d, s, x, g);
      }
    }
  }
}
