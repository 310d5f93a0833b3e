/** What the race track is for: in the first pass of a mix phase, an actor that a phase names has been
    created when the phase uses it, unless a start condition kept back the phase that creates it. */
module ActorCreation {
  import opened Wrappers
  import opened Scenario
  import opened PhaseSemantics
  import opened PhaseTree
  import opened PhaseCompletion
  import opened PhaseVisits
  import opened OrdersKept
  import opened EffectOrder
  import opened PhaseEffects
  import opened SortingGroups
  import opened RaceTracks
  import opened PassOrder

  // ---------------------------------------------------------------- phases about to start

  /** `p` has not started, and no serial phase has passed a child. */
  ghost predicate Untouched(phases: seq<PhaseRt>, p: nat) {
    p < |phases| && phases[p].state == Idle && phases[p].position == 0
  }

  /** No phase active below `x` has started. */
  ghost predicate FreshBelow(d: Diagram, phases: seq<PhaseRt>, x: nat)
    requires x < |d.phases|
  {
    forall q: nat :: q < |d.phases| && q != x && Active(d, x, q) ==> Untouched(phases, q)
  }

  ghost predicate Fresh(d: Diagram, phases: seq<PhaseRt>, x: nat)
    requires x < |d.phases|
  {
    FreshBelow(d, phases, x) && Untouched(phases, x)
  }

  /** The subtree of `x` has these execution orders. */
  ghost predicate Installed(d: Diagram, phases: seq<PhaseRt>, orders: Orders, x: nat)
    requires x < |d.phases|
  {
    forall q :: q in orders && q < |phases| && InSubtree(d, x, q) ==> phases[q].execOrder == orders[q]
  }

  /** Below a phase that has not run yet nothing has started. */
  lemma {:induction false} IdleBelow(d: Diagram, phases: seq<PhaseRt>, s: nat, q: nat)
    requires s < |d.phases| == |phases| && Whole(d, phases, s) && (phases[s].state == Idle || phases[s].state == Start)
    requires q < |d.phases| && q != s && Active(d, s, q)
    ensures Untouched(phases, q)
    decreases q
  {
    var p := d.phases[q].parent.value;
    ActiveIsBelow(d, s, q);
    ActiveIsBelow(d, s, p);
    if p != s {
      IdleBelow(d, phases, s, p);
    }
    var i :| 0 <= i < |d.phases[p].children| && d.phases[p].children[i] == q;
    assert NodeOK(d, phases, p) && NodeOK(d, phases, q);
  }

  lemma ChildIsActive(d: Diagram, x: nat, c: nat)
    requires x < |d.phases| && c in ActiveChildren(d, x)
    ensures c < |d.phases| && d.KidOK(x, c) && Active(d, x, c)
  {
    assert Active(d, x, x);
  }

  /** A child of a fresh phase is fresh. */
  lemma FreshChild(d: Diagram, a: seq<PhaseRt>, x: nat, c: nat)
    requires x < |d.phases| == |a| && c < |d.phases| && c in ActiveChildren(d, x) && FreshBelow(d, a, x)
    ensures Fresh(d, a, c)
  {
    ChildIsActive(d, x, c);
    forall q: nat | q < |d.phases| && Active(d, c, q) ensures Untouched(a, q) {
      ActiveIsTransitive(d, x, c, q);
      ActiveIsBelow(d, c, q);
    }
    assert Active(d, c, c);
  }

  /** Updating one child leaves another one fresh. */
  lemma StillFresh(d: Diagram, e: Env, m: Machine, x: nat, k: nat, k': nat)
    requires Pre(d, m, x) && k < |d.phases[x].children| && k' < |d.phases[x].children| && k != k'
    requires Fresh(d, m.phases, Child(d, x, k'))
    ensures var c, m' := Child(d, x, k'), UpdateChild(d, e, m, x, k).m;
            Fresh(d, m'.phases, c) && forall q :: 0 <= q < |m.phases| && InSubtree(d, c, q) ==> m'.phases[q] == m.phases[q]
  {
    var c, m' := Child(d, x, k'), UpdateChild(d, e, m, x, k).m;
    ChildrenApart(d, x, k, k');
    SubtreeBounds(d, c);
    assert forall q :: 0 <= q < |m.phases| && InSubtree(d, c, q) ==> m'.phases[q] == m.phases[q];
    forall q: nat | q < |d.phases| && Active(d, c, q) ensures Untouched(m'.phases, q) {
      ActiveIsBelow(d, c, q);
      assert Untouched(m.phases, q);
    }
    assert Active(d, c, c);
  }

  /** Changes of `x` itself, of execution orders and of completion flags leave everything below it fresh. */
  lemma StaysFreshBelow(d: Diagram, a: seq<PhaseRt>, b: seq<PhaseRt>, x: nat)
    requires x < |d.phases| == |a| == |b| && FreshBelow(d, a, x)
    requires forall q :: 0 <= q < |a| && q != x ==> b[q].state == a[q].state && b[q].position == a[q].position
    ensures FreshBelow(d, b, x)
  {
    forall q: nat | q < |d.phases| && q != x && Active(d, x, q) ensures Untouched(b, q) {
      assert Untouched(a, q);
    }
  }

  // ---------------------------------------------------------------- from idle to running

  /** The start condition of `y` is satisfied, whatever the scenario has done. */
  ghost predicate Open(d: Diagram, e: Env, y: nat)
    requires y < |d.phases|
  {
    d.phases[y].startCondition.Some? ==> AlwaysMet(d, e, d.phases[y].startCondition.value)
  }

  /** It is never satisfied, whatever the scenario has done. */
  ghost predicate Shut(d: Diagram, e: Env, y: nat)
    requires y < |d.phases|
  {
    d.phases[y].startCondition.Some? && NeverMet(d, e, d.phases[y].startCondition.value)
  }

  ghost predicate AlwaysMet(d: Diagram, e: Env, c: Condition) {
    forall m: Machine {:trigger Check(d, e, m, c)} :: |m.phases| == |d.phases| && |m.status| == |d.actions| ==> Check(d, e, m, c) == Satisfied
  }

  ghost predicate NeverMet(d: Diagram, e: Env, c: Condition) {
    forall m: Machine {:trigger Check(d, e, m, c)} :: |m.phases| == |d.phases| && |m.status| == |d.actions| ==> Check(d, e, m, c) != Satisfied
  }

  /** The actor of the racer is not created. */
  ghost predicate Without(a: seq<Effect>, b: seq<Effect>, racer: nat) {
    a <= b && forall i :: |a| <= i < |b| ==> b[i] != InitializeActor(racer)
  }

  lemma AvoidsWithout(d: Diagram, a: seq<Effect>, b: seq<Effect>, racer: nat)
    requires racer < |d.phases| && EffectsAvoid(d, a, b, racer)
    ensures Without(a, b, racer)
  {
    SubtreeBounds(d, racer);
  }

  lemma CreatedStays(a: seq<Effect>, b: seq<Effect>, c: seq<Effect>, c': seq<Effect>, racer: nat)
    requires a <= b <= c <= c' && !Without(b, c, racer)
    ensures !Without(a, c', racer)
  {
    var i :| |b| <= i < |c| && c[i] == InitializeActor(racer);
    assert c'[i] == c[i];
  }

  lemma WithoutChain(a: seq<Effect>, b: seq<Effect>, c: seq<Effect>, racer: nat)
    requires Without(a, b, racer) && Without(b, c, racer)
    ensures Without(a, c, racer)
  {
    forall i | |a| <= i < |c| ensures c[i] != InitializeActor(racer) {
      assert i < |b| ==> c[i] == b[i];
    }
  }

  /** `m2` is what starting and running phase `x` leads to: its actor was created and its end condition applied. */
  ghost predicate GetsToRun(d: Diagram, m: Machine, x: nat, m2: Machine)
    requires Pre(d, m, x)
  {
    && Pre(d, m2, x) && m2.phases == m.phases[x := m.phases[x].(state := Run)]
    && Adds(d, m.effects, m2.effects, x, x + 1)
    && (d.phases[x].kind.ActorAction? ==> !Without(m.effects, m2.effects, x))
    && (d.phases[x].endCondition.Some? ==> EndApplied(m.effects, m2.effects, x))
  }

  /** The end condition of `x` was applied. */
  ghost predicate EndApplied(a: seq<Effect>, b: seq<Effect>, x: nat) {
    exists i :: |a| <= i < |b| && b[i] == ApplyEnd(x)
  }

  lemma OnRunApplies(d: Diagram, e: Env, m: Machine, x: nat)
    requires Pre(d, m, x) && m.phases[x].state == Start && d.phases[x].endCondition.Some? && OnRun(d, e, m, x).out.Returned?
    ensures EndApplied(m.effects, OnRun(d, e, m, x).m.effects, x)
  {
    RunTries(d, e, m, x);
    var i := |m.effects| + if d.phases[x].kind.ActorAction? then 1 else 0;
    assert OnRun(d, e, m, x).m.effects[i] == ApplyEnd(x);
  }

  lemma OnRunCreates(d: Diagram, e: Env, m: Machine, x: nat)
    requires Pre(d, m, x) && m.phases[x].state == Start && d.phases[x].kind.ActorAction? && OnRun(d, e, m, x).out.Returned?
    ensures !Without(m.effects, OnRun(d, e, m, x).m.effects, x)
  {
    var r1 := Apply(d, e, m, InitializeActor(x));
    var m2 := SetState(d, BeforeRun(d, r1.m, x), x, Run);
    AfterRunAdds(d, e, m2, x);
    assert OnRun(d, e, m, x).m.effects[|m.effects|] == r1.m.effects[|m.effects|] == InitializeActor(x);
  }

  lemma StartingRuns(d: Diagram, e: Env, m: Machine, x: nat) returns (runs: bool, m2: Machine)
    requires Pre(d, m, x) && m.phases[x].state == Start
    ensures runs ==> GetsToRun(d, m, x, m2) && Update(d, e, m, x) == Update(d, e, m2, x)
    ensures !runs ==> Adds(d, m.effects, Update(d, e, m, x).m.effects, x, x + 1)
                      && (d.phases[x].startCondition.None? || Open(d, e, x) ==> Update(d, e, m, x).out.Raised?)
                      && (Shut(d, e, x) ==> Update(d, e, m, x).m.effects == m.effects)
    ensures Shut(d, e, x) ==> !runs
  {
    m2 := OnRun(d, e, m, x).m.(transition := true);
    var r := Advance(d, e, m, x);
    runs := r.out == Returned(true);
    if StartDecision(d, e, m, x) == Satisfied {
      OnRunAdds(d, e, m, x);
      if runs {
        assert m2.phases == m.phases[x := m.phases[x].(state := Run)];
        if d.phases[x].kind.ActorAction? {
          OnRunCreates(d, e, m, x);
        }
        if d.phases[x].endCondition.Some? {
          OnRunApplies(d, e, m, x);
        }
      }
    }
  }

  /** `m1` is what starting phase `x` leads to. */
  ghost predicate Starts(d: Diagram, m: Machine, m1: Machine, x: nat)
    requires Pre(d, m, x)
  {
    && Pre(d, m1, x) && m1.phases == m.phases[x := m.phases[x].(state := Start)]
    && m1.effects == m.effects + (if d.phases[x].startCondition.Some? then [ApplyStart(x)] else [])
  }

  lemma IdleStarts(d: Diagram, e: Env, m: Machine, x: nat)
    requires Pre(d, m, x) && m.phases[x].state == Idle
    ensures var r := OnStart(d, e, m, x); var m1 := r.m.(transition := true);
            && Starts(d, m, r.m, x)
            && Update(d, e, m, x) == if r.out.Raised? then r else Update(d, e, m1, x)
  {
    var r := OnStart(d, e, m, x);
    if r.out.Returned? {
      assert Advance(d, e, m, x) == Step(r.m.(transition := true), Returned(true));
    } else {
      assert Advance(d, e, m, x) == r;
    }
  }

  lemma StartedGetsToRun(d: Diagram, m: Machine, m1: Machine, x: nat, m2: Machine)
    requires Pre(d, m, x) && Starts(d, m, m1, x) && GetsToRun(d, m1, x, m2)
    ensures GetsToRun(d, m, x, m2)
  {
    AddsChain(d, m.effects, m1.effects, m2.effects, x, x + 1);
    assert m2.phases == m.phases[x := m.phases[x].(state := Run)];
  }

  /** An idle phase gets to run, or its update does no more than start it; the latter only if its start
      condition is not always satisfied or something throws, and always if it is never satisfied. */
  lemma IdleRuns(d: Diagram, e: Env, m: Machine, x: nat) returns (runs: bool, m2: Machine)
    requires Pre(d, m, x) && m.phases[x].state == Idle
    ensures runs ==> GetsToRun(d, m, x, m2) && Update(d, e, m, x) == Update(d, e, m2, x)
    ensures !runs ==> Adds(d, m.effects, Update(d, e, m, x).m.effects, x, x + 1)
                      && (Open(d, e, x) ==> Update(d, e, m, x).out.Raised?)
    ensures Shut(d, e, x) ==> !runs && Update(d, e, m, x).m.effects == m.effects + [ApplyStart(x)]
  {
    var m1 := OnStart(d, e, m, x).m.(transition := true);
    IdleStarts(d, e, m, x);
    runs, m2 := false, m1;
    if OnStart(d, e, m, x).out.Returned? {
      runs, m2 := StartingRuns(d, e, m1, x);
      if runs {
        StartedGetsToRun(d, m, m1, x, m2);
      } else {
        AddsChain(d, m.effects, m1.effects, Update(d, e, m1, x).m.effects, x, x + 1);
      }
    }
  }

  // ---------------------------------------------------------------- the racer before its member

  /** A racer that is reached before a member, under these orders. */
  ghost predicate Races(d: Diagram, s: nat, orders: Orders, racer: nat, member: nat) {
    && s < |d.phases| && OrdersEverything(d, s, orders)
    && racer < |d.phases| && member < |d.phases| && racer != member
    && Active(d, s, racer) && Active(d, s, member)
    && d.phases[racer].kind.ActorAction? && Before(Visit(d, orders, s), racer, member)
  }

  /** `x` lies on the way to the racer, and the member below `x` or elsewhere. */
  ghost predicate OnTheWay(d: Diagram, s: nat, x: nat, racer: nat, member: nat)
    requires s < |d.phases| && racer < |d.phases| && member < |d.phases|
  {
    x < |d.phases| && Active(d, s, x) && Active(d, x, racer) && (Active(d, x, member) || !InSubtree(d, x, member))
  }

  /** No start condition between `x` and the racer keeps a phase back. */
  ghost predicate OpenPath(d: Diagram, e: Env, x: nat, racer: nat)
    requires x < |d.phases| && racer < |d.phases|
  {
    forall y: nat :: y < |d.phases| && y != x && Active(d, x, y) && Active(d, y, racer) ==> Open(d, e, y)
  }

  /** Nothing is done for phase `p`. */
  ghost predicate Spares(d: Diagram, a: seq<Effect>, b: seq<Effect>, p: nat) {
    a <= b && forall i :: |a| <= i < |b| ==> Owner(d, b[i]) != p
  }

  /** An update creates the actor of the racer, or it throws and has done nothing for the member. */
  ghost predicate Creates(d: Diagram, a: seq<Effect>, r: Step, racer: nat, member: nat) {
    && a <= r.m.effects
    && (!Without(a, r.m.effects, racer) || (r.out.Raised? && Spares(d, a, r.m.effects, member)))
  }

  /** What is done before, and not for the member, makes no difference. */
  lemma SparesThenCreates(d: Diagram, a: seq<Effect>, b: seq<Effect>, r: Step, racer: nat, member: nat)
    requires Spares(d, a, b, member) && Creates(d, b, r, racer, member)
    ensures Creates(d, a, r, racer, member)
  {
    var c := r.m.effects;
    if Without(b, c, racer) {
      forall i | |a| <= i < |c| ensures Owner(d, c[i]) != member {
        assert i < |b| ==> c[i] == b[i];
      }
    } else {
      CreatedStays(a, b, c, c, racer);
    }
  }

  /** Once an update returns, what follows it makes no difference. */
  lemma CreatesThenGrows(d: Diagram, a: seq<Effect>, r1: Step, r: Step, racer: nat, member: nat)
    requires Creates(d, a, r1, racer, member) && (r1.out.Raised? ==> r == r1) && r1.m.effects <= r.m.effects
    ensures Creates(d, a, r, racer, member)
  {
    if !Without(a, r1.m.effects, racer) {
      CreatedStays(a, a, r1.m.effects, r.m.effects, racer);
    }
  }

  lemma NotTheMember(d: Diagram, s: nat, orders: Orders, x: nat, racer: nat, member: nat)
    requires Races(d, s, orders, racer, member) && OnTheWay(d, s, x, racer, member)
    ensures x != member
  {
    if x == member {
      NeverBelow(d, s, orders, member, racer);
    }
  }

  /** The way leads on to a child. */
  lemma NextOnTheWay(d: Diagram, s: nat, orders: Orders, x: nat, racer: nat, member: nat) returns (c: nat)
    requires Races(d, s, orders, racer, member) && OnTheWay(d, s, x, racer, member) && x != racer
    ensures c < |d.phases| && c in ActiveChildren(d, x) && OnTheWay(d, s, c, racer, member) && d.KidOK(x, c)
  {
    c := ChildTowards(d, x, racer);
    ChildIsActive(d, x, c);
    ActiveIsTransitive(d, s, x, c);
    if Active(d, x, member) && member != x && InSubtree(d, c, member) {
      var c2 := ChildTowards(d, x, member);
      ActiveIsBelow(d, c2, member);
      if c2 != c {
        var i :| 0 <= i < |ActiveChildren(d, x)| && ActiveChildren(d, x)[i] == c;
        var j :| 0 <= j < |ActiveChildren(d, x)| && ActiveChildren(d, x)[j] == c2;
        ChildrenApart(d, x, i, j);
      }
    } else if InSubtree(d, c, member) && member != x {
      ActiveIsBelow(d, x, c);
    }
  }

  /** Everything that has to hold before `x` is updated on the way to the racer. */
  ghost predicate Ready(d: Diagram, e: Env, m: Machine, s: nat, orders: Orders, x: nat, racer: nat, member: nat) {
    && Pre(d, m, x) && Races(d, s, orders, racer, member) && OnTheWay(d, s, x, racer, member)
    && FreshBelow(d, m.phases, x) && Installed(d, m.phases, orders, x) && OpenPath(d, e, x, racer)
    && (d.phases[x].kind.Serial? ==> m.phases[x].position == 0)
  }

  lemma {:induction false} UpdateCreates(d: Diagram, e: Env, m: Machine, s: nat, orders: Orders, x: nat, racer: nat, member: nat)
    requires Ready(d, e, m, s, orders, x, racer, member) && m.phases[x].state == Idle && Open(d, e, x)
    ensures Creates(d, m.effects, Update(d, e, m, x), racer, member)
    decreases |d.phases| - x, 4
  {
    var runs, m2 := IdleRuns(d, e, m, x);
    NotTheMember(d, s, orders, x, racer, member);
    if runs {
      if x == racer {
        UpdateAdds(d, e, m2, x);
        CreatedStays(m.effects, m.effects, m2.effects, Update(d, e, m2, x).m.effects, racer);
      } else {
        ReadyToRun(d, e, m, m2, s, orders, x, racer, member);
        RunningCreates(d, e, m2, s, orders, x, racer, member);
        SparesThenCreates(d, m.effects, m2.effects, Update(d, e, m2, x), racer, member);
      }
    }
  }

  lemma ReadyToRun(d: Diagram, e: Env, m: Machine, m2: Machine, s: nat, orders: Orders, x: nat, racer: nat, member: nat)
    requires Ready(d, e, m, s, orders, x, racer, member) && GetsToRun(d, m, x, m2)
    ensures Ready(d, e, m2, s, orders, x, racer, member)
  {
    StaysFreshBelow(d, m.phases, m2.phases, x);
  }

  lemma {:induction false} RunningCreates(d: Diagram, e: Env, m: Machine, s: nat, orders: Orders, x: nat, racer: nat, member: nat)
    requires Ready(d, e, m, s, orders, x, racer, member) && m.phases[x].state == Run && x != racer
    ensures Creates(d, m.effects, Update(d, e, m, x), racer, member)
    decreases |d.phases| - x, 3, 1
  {
    RunCreates(d, e, m, s, orders, x, racer, member);
    RunningUpdateKeepsEffects(d, e, m, x);
    CreatesThenGrows(d, m.effects, DoRunUpdate(d, e, m, x), Update(d, e, m, x), racer, member);
  }

  lemma RunningUpdateKeepsEffects(d: Diagram, e: Env, m: Machine, x: nat)
    requires Pre(d, m, x) && m.phases[x].state == Run
    ensures Update(d, e, m, x).m.effects == DoRunUpdate(d, e, m, x).m.effects
    ensures DoRunUpdate(d, e, m, x).out.Raised? ==> Update(d, e, m, x) == DoRunUpdate(d, e, m, x)
  {
    RunningUpdate(d, e, m, x);
    var r1 := DoRunUpdate(d, e, m, x);
    if r1.out == Returned(true) {
      OnEndKeepsEffects(d, r1.m, x);
    }
  }

  lemma {:induction false} RunCreates(d: Diagram, e: Env, m: Machine, s: nat, orders: Orders, x: nat, racer: nat, member: nat)
    requires Ready(d, e, m, s, orders, x, racer, member) && m.phases[x].state == Run && x != racer
    ensures Creates(d, m.effects, DoRunUpdate(d, e, m, x), racer, member)
    decreases |d.phases| - x, 3, 0
  {
    var r1 := UpdateContent(d, e, m, x);
    ContentCreates(d, e, m, s, orders, x, racer, member);
    if r1.out.Returned? {
      UpdateSystemActionsAdds(d, e, r1.m, x, 0);
      var r2 := UpdateSystemActions(d, e, r1.m, x, 0);
      if r2.out.Returned? {
        ConcludeKeepsEffects(d, e, r2.m, x);
      }
    }
    CreatesThenGrows(d, m.effects, r1, DoRunUpdate(d, e, m, x), racer, member);
  }

  lemma {:induction false} ContentCreates(d: Diagram, e: Env, m: Machine, s: nat, orders: Orders, x: nat, racer: nat, member: nat)
    requires Ready(d, e, m, s, orders, x, racer, member) && m.phases[x].state == Run && x != racer
    ensures Creates(d, m.effects, UpdateContent(d, e, m, x), racer, member)
    decreases |d.phases| - x, 2
  {
    var c := NextOnTheWay(d, s, orders, x, racer, member);
    if d.phases[x].kind.Mix? {
      MixCreates(d, e, m, s, orders, x, c, racer, member);
    } else {
      FirstChildCreates(d, e, m, s, orders, x, c, racer, member);
    }
  }

  lemma {:induction false} MixCreates(d: Diagram, e: Env, m: Machine, s: nat, orders: Orders, x: nat, c: nat, racer: nat, member: nat)
    requires Ready(d, e, m, s, orders, x, racer, member) && m.phases[x].state == Run && d.phases[x].kind.Mix?
    requires c < |d.phases| && c in ActiveChildren(d, x) && OnTheWay(d, s, c, racer, member)
    ensures Creates(d, m.effects, UpdateContent(d, e, m, x), racer, member)
    decreases |d.phases| - x, 1, |d.phases[x].children| + 1
  {
    var order, n := PlaceInOrder(d, m, s, orders, x, c);
    var m2 := SetChildrenDone(d, m, x, true);
    EarlierSpareMember(d, s, orders, x, n, racer, member);
    ReadyMixChild(d, e, m, s, orders, x, c, racer, member);
    NotTheMember(d, s, orders, x, racer, member);
    ChildrenCreate(d, e, m2, s, orders, x, order, 0, n, racer, member);
    MixUpdates(d, e, m, x);
  }

  lemma ReadyMixChild(d: Diagram, e: Env, m: Machine, s: nat, orders: Orders, x: nat, c: nat, racer: nat, member: nat)
    requires Ready(d, e, m, s, orders, x, racer, member) && m.phases[x].state == Run && d.phases[x].kind.Mix?
    requires c < |d.phases| && c in ActiveChildren(d, x) && OnTheWay(d, s, c, racer, member)
    ensures var m2 := SetChildrenDone(d, m, x, true);
            Ready(d, e, m2, s, orders, c, racer, member) && Untouched(m2.phases, c) && Open(d, e, c)
  {
    var m2 := SetChildrenDone(d, m, x, true);
    StaysFreshBelow(d, m.phases, m2.phases, x);
    FreshChild(d, m2.phases, x, c);
    ChildIsActive(d, x, c);
    ReadyChild(d, e, m, m2, s, orders, x, c, racer, member);
  }

  lemma PlaceInOrder(d: Diagram, m: Machine, s: nat, orders: Orders, x: nat, c: nat) returns (order: seq<nat>, n: nat)
    requires Pre(d, m, x) && s < |d.phases| && OrdersEverything(d, s, orders) && Active(d, s, x) && d.phases[x].kind.Mix?
    requires Installed(d, m.phases, orders, x) && c < |d.phases| && c in d.phases[x].children
    ensures x in orders && order == orders[x] == m.phases[x].execOrder && IsOrder(order, |d.phases[x].children|) && order != []
    ensures n < |order| && Child(d, x, order[n]) == c
  {
    CompositeHasChildren(d, x);
    order := orders[x];
    var k: nat :| k < |d.phases[x].children| && d.phases[x].children[k] == c;
    assert k in order;
    n :| 0 <= n < |order| && order[n] == k;
  }

  lemma MixUpdates(d: Diagram, e: Env, m: Machine, x: nat)
    requires Pre(d, m, x) && m.phases[x].state == Run && d.phases[x].kind.Mix?
    requires m.phases[x].execOrder != [] && IsOrder(m.phases[x].execOrder, |d.phases[x].children|)
    ensures UpdateContent(d, e, m, x) == UpdateRest(d, e, SetChildrenDone(d, m, x, true), x, m.phases[x].execOrder, 0)
  {
  }

  /** In the execution order the member's branch does not come before the racer's. */
  lemma EarlierSpareMember(d: Diagram, s: nat, orders: Orders, x: nat, n: nat, racer: nat, member: nat)
    requires Races(d, s, orders, racer, member) && OnTheWay(d, s, x, racer, member) && d.phases[x].kind.Mix?
    requires x in orders && n < |orders[x]| && orders[x][n] < |d.phases[x].children|
    requires OnTheWay(d, s, Child(d, x, orders[x][n]), racer, member)
    ensures forall j :: 0 <= j < n && orders[x][j] < |d.phases[x].children| ==> !InSubtree(d, Child(d, x, orders[x][j]), member)
  {
    NotTheMember(d, s, orders, x, racer, member);
    forall j | 0 <= j < n && orders[x][j] < |d.phases[x].children| && InSubtree(d, Child(d, x, orders[x][j]), member)
      ensures false
    {
      var k := orders[x][j];
      var b := ChildTowards(d, x, member);
      var kb: nat :| kb < |d.phases[x].children| && d.phases[x].children[kb] == b;
      ActiveIsBelow(d, b, member);
      if kb != k {
        ChildrenApart(d, x, k, kb);
      }
      LocalOrderIsGlobal(d, orders, s, x, orders[x][n], k, racer, member);
    }
  }

  lemma ReadyChild(d: Diagram, e: Env, m: Machine, m2: Machine, s: nat, orders: Orders, x: nat, c: nat, racer: nat, member: nat)
    requires Ready(d, e, m, s, orders, x, racer, member) && c < |d.phases| && c in ActiveChildren(d, x)
    requires OnTheWay(d, s, c, racer, member) && Fits(d, m2) && Fresh(d, m2.phases, c) && Installed(d, m2.phases, orders, c)
    ensures Ready(d, e, m2, s, orders, c, racer, member) && Untouched(m2.phases, c) && Open(d, e, c)
  {
    ChildIsActive(d, x, c);
    SubtreeBounds(d, c);
    forall y: nat | y < |d.phases| && y != c && Active(d, c, y) && Active(d, y, racer) ensures Open(d, e, y) {
      ActiveIsTransitive(d, x, c, y);
      ActiveIsBelow(d, c, y);
    }
  }

  lemma {:induction false} FirstChildCreates(d: Diagram, e: Env, m: Machine, s: nat, orders: Orders, x: nat, c: nat, racer: nat, member: nat)
    requires Ready(d, e, m, s, orders, x, racer, member) && m.phases[x].state == Run && d.phases[x].kind.Serial?
    requires c < |d.phases| && c in ActiveChildren(d, x) && OnTheWay(d, s, c, racer, member)
    ensures Creates(d, m.effects, UpdateInOrder(d, e, m, x), racer, member)
    decreases |d.phases| - x, 1, 0
  {
    ChildIsActive(d, x, c);
    assert c == Child(d, x, 0);
    FreshChild(d, m.phases, x, c);
    ReadyChild(d, e, m, m, s, orders, x, c, racer, member);
    UpdateCreates(d, e, m, s, orders, c, racer, member);
    FirstChildFirst(d, e, m, x, c);
    CreatesThenGrows(d, m.effects, Update(d, e, m, c), UpdateInOrder(d, e, m, x), racer, member);
  }

  /** A serial phase goes on after its first child, unless that throws. */
  lemma FirstChildFirst(d: Diagram, e: Env, m: Machine, x: nat, c: nat)
    requires Pre(d, m, x) && m.phases[x].state == Run && d.phases[x].kind.Serial? && m.phases[x].position == 0
    requires |d.phases[x].children| > 0 && c == Child(d, x, 0)
    ensures var r1, r := Update(d, e, m, c), UpdateInOrder(d, e, m, x);
            (r1.out.Raised? ==> r == r1) && r1.m.effects <= r.m.effects
  {
    var r1 := UpdateKid(d, e, m, x, c);
    if r1.out == Returned(true) {
      UpdateInOrderAdds(d, e, PassChild(d, r1.m, x), x);
    }
  }

  lemma ChildSpares(d: Diagram, e: Env, m: Machine, x: nat, k: nat, member: nat)
    requires Pre(d, m, x) && k < |d.phases[x].children| && !InSubtree(d, Child(d, x, k), member)
    ensures Spares(d, m.effects, UpdateChild(d, e, m, x, k).m.effects, member)
  {
    UpdateKidAdds(d, e, m, x, Child(d, x, k));
  }

  lemma StillReady(d: Diagram, e: Env, m: Machine, m': Machine, s: nat, orders: Orders, c: nat, racer: nat, member: nat)
    requires Ready(d, e, m, s, orders, c, racer, member) && Fits(d, m') && Fresh(d, m'.phases, c)
    requires forall q :: 0 <= q < |m.phases| && InSubtree(d, c, q) ==> m'.phases[q] == m.phases[q]
    ensures Ready(d, e, m', s, orders, c, racer, member) && Untouched(m'.phases, c)
  {
  }

  lemma {:induction false} ChildrenCreate(d: Diagram, e: Env, m: Machine, s: nat, orders: Orders, x: nat, order: seq<nat>, i: nat, n: nat,
                                          racer: nat, member: nat)
    requires Pre(d, m, x) && m.phases[x].state == Run && d.phases[x].kind.Mix? && member < |d.phases|
    requires m.phases[x].execOrder == order && IsOrder(order, |d.phases[x].children|) && i <= n < |order|
    requires Ready(d, e, m, s, orders, Child(d, x, order[n]), racer, member)
    requires Open(d, e, Child(d, x, order[n])) && Untouched(m.phases, Child(d, x, order[n]))
    requires x < member || !InSubtree(d, x, member)
    requires forall j :: i <= j < n ==> !InSubtree(d, Child(d, x, order[j]), member)
    ensures Creates(d, m.effects, UpdateRest(d, e, m, x, order, i), racer, member)
    decreases |d.phases| - x, 1, n - i
  {
    var r1 := UpdateChild(d, e, m, x, order[i]);
    UpdateFirstChild(d, e, m, x, order, i);
    var r := UpdateRest(d, e, m, x, order, i);
    if i == n {
      UpdateCreates(d, e, m, s, orders, Child(d, x, order[n]), racer, member);
      if r1.out.Returned? {
        UpdateChildrenAdds(d, e, r1.m, x, i + 1);
      }
      CreatesThenGrows(d, m.effects, r1, r, racer, member);
    } else {
      ChildSpares(d, e, m, x, order[i], member);
      if r1.out.Returned? {
        StillFresh(d, e, m, x, order[i], order[n]);
        StillReady(d, e, m, r1.m, s, orders, Child(d, x, order[n]), racer, member);
        ChildrenCreate(d, e, r1.m, s, orders, x, order, i + 1, n, racer, member);
        SparesThenCreates(d, m.effects, r1.m.effects, r, racer, member);
      }
    }
  }

  // ---------------------------------------------------------------- racers that are kept back

  /** A phase between `x` and the racer is never let go. */
  ghost predicate KeptBack(d: Diagram, e: Env, x: nat, y: nat, racer: nat) {
    && x < |d.phases| && y < |d.phases| && racer < |d.phases|
    && Active(d, x, y) && Active(d, y, racer) && Shut(d, e, y)
  }

  lemma OwnWithout(d: Diagram, a: seq<Effect>, b: seq<Effect>, x: nat, racer: nat)
    requires Adds(d, a, b, x, x + 1) && x != racer
    ensures Without(a, b, racer)
  {
  }

  lemma StartWithout(a: seq<Effect>, x: nat, racer: nat)
    ensures Without(a, a + [ApplyStart(x)], racer)
  {
  }

  lemma RacerIsBelow(d: Diagram, e: Env, x: nat, y: nat, racer: nat)
    requires KeptBack(d, e, x, y, racer) && x != y
    ensures x < racer
  {
    ActiveIsBelow(d, x, y);
    ActiveIsBelow(d, y, racer);
  }

  lemma {:induction false} UpdateKeepsBack(d: Diagram, e: Env, m: Machine, x: nat, y: nat, racer: nat)
    requires Pre(d, m, x) && KeptBack(d, e, x, y, racer) && Fresh(d, m.phases, x)
    ensures Without(m.effects, Update(d, e, m, x).m.effects, racer)
    decreases |d.phases| - x, 4
  {
    var runs, m2 := IdleRuns(d, e, m, x);
    if x == y {
      StartWithout(m.effects, x, racer);
    } else {
      RacerIsBelow(d, e, x, y, racer);
      if runs {
        OwnWithout(d, m.effects, m2.effects, x, racer);
        StaysFreshBelow(d, m.phases, m2.phases, x);
        RunningKeepsBack(d, e, m2, x, y, racer);
        WithoutChain(m.effects, m2.effects, Update(d, e, m2, x).m.effects, racer);
      } else {
        OwnWithout(d, m.effects, Update(d, e, m, x).m.effects, x, racer);
      }
    }
  }

  lemma {:induction false} RunningKeepsBack(d: Diagram, e: Env, m: Machine, x: nat, y: nat, racer: nat)
    requires Pre(d, m, x) && m.phases[x].state == Run && KeptBack(d, e, x, y, racer) && x != y
    requires FreshBelow(d, m.phases, x) && (d.phases[x].kind.Serial? ==> m.phases[x].position == 0)
    ensures Without(m.effects, Update(d, e, m, x).m.effects, racer)
    decreases |d.phases| - x, 3, 1
  {
    RunKeepsBack(d, e, m, x, y, racer);
    RunningUpdateKeepsEffects(d, e, m, x);
  }

  lemma {:induction false} RunKeepsBack(d: Diagram, e: Env, m: Machine, x: nat, y: nat, racer: nat)
    requires Pre(d, m, x) && m.phases[x].state == Run && KeptBack(d, e, x, y, racer) && x != y
    requires FreshBelow(d, m.phases, x) && (d.phases[x].kind.Serial? ==> m.phases[x].position == 0)
    ensures Without(m.effects, DoRunUpdate(d, e, m, x).m.effects, racer)
    decreases |d.phases| - x, 3, 0
  {
    var r1 := UpdateContent(d, e, m, x);
    var c := ChildTowards(d, x, y);
    ChildIsActive(d, x, c);
    ActiveIsTransitive(d, c, y, racer);
    ActiveIsBelow(d, c, racer);
    ContentKeepsBack(d, e, m, x, c, y, racer);
    if r1.out.Returned? {
      OperationsSpareChild(d, e, r1.m, x, c, racer);
      var r2 := UpdateSystemActions(d, e, r1.m, x, 0);
      AvoidsWithout(d, r1.m.effects, r2.m.effects, racer);
      WithoutChain(m.effects, r1.m.effects, r2.m.effects, racer);
      if r2.out.Returned? {
        ConcludeKeepsEffects(d, e, r2.m, x);
      }
    }
  }

  lemma OperationsSpareChild(d: Diagram, e: Env, m: Machine, x: nat, c: nat, racer: nat)
    requires Pre(d, m, x) && m.phases[x].state == Run && c < |d.phases| && c in ActiveChildren(d, x)
    requires racer < |d.phases| && x < racer && InSubtree(d, c, racer)
    ensures EffectsAvoid(d, m.effects, UpdateSystemActions(d, e, m, x, 0).m.effects, racer)
  {
    var k: nat :| k < |d.phases[x].children| && d.phases[x].children[k] == c;
    forall j: nat | j < |d.phases[x].systemActions| ensures !InSubtree(d, Operation(d, x, j), racer) {
      OperationsFirst(d, x, j, k);
    }
    OperationsAvoid(d, e, m, x, 0, racer);
  }

  lemma {:induction false} ContentKeepsBack(d: Diagram, e: Env, m: Machine, x: nat, c: nat, y: nat, racer: nat)
    requires Pre(d, m, x) && m.phases[x].state == Run && FreshBelow(d, m.phases, x) && (d.phases[x].kind.Serial? ==> m.phases[x].position == 0)
    requires c < |d.phases| && c in ActiveChildren(d, x) && KeptBack(d, e, c, y, racer) && x < racer && InSubtree(d, c, racer)
    ensures Without(m.effects, UpdateContent(d, e, m, x).m.effects, racer)
    decreases |d.phases| - x, 2
  {
    if d.phases[x].kind.Mix? {
      var r1 := SortIfNeeded(d, e, m, x);
      if r1.out.Returned? {
        var m2 := SetChildrenDone(d, r1.m, x, true);
        var order, k := m2.phases[x].execOrder, ChildNumber(d, x, c);
        assert k in order;
        var n: nat :| n < |order| && order[n] == k;
        StaysFreshBelow(d, m.phases, m2.phases, x);
        FreshChild(d, m2.phases, x, c);
        ChildrenKeepBack(d, e, m2, x, order, 0, n, y, racer);
      }
    } else {
      ChildIsActive(d, x, c);
      assert c == Child(d, x, 0);
      FreshChild(d, m.phases, x, c);
      UpdateKeepsBack(d, e, m, c, y, racer);
      InOrderKeepsBack(d, e, m, x, c, racer);
    }
  }

  function ChildNumber(d: Diagram, x: nat, c: nat): (k: nat)
    requires x < |d.phases| && c in d.phases[x].children
    ensures k < |d.phases[x].children| && Child(d, x, k) == c
  {
    IndexOf(d.phases[x].children, c)
  }

  lemma InOrderKeepsBack(d: Diagram, e: Env, m: Machine, x: nat, c: nat, racer: nat)
    requires Pre(d, m, x) && m.phases[x].state == Run && d.phases[x].kind.Serial? && m.phases[x].position == 0
    requires |d.phases[x].children| > 0 && c == Child(d, x, 0) && x < racer < |d.phases| && InSubtree(d, c, racer)
    requires Without(m.effects, Update(d, e, m, c).m.effects, racer)
    ensures Without(m.effects, UpdateInOrder(d, e, m, x).m.effects, racer)
  {
    var r1 := UpdateKid(d, e, m, x, c);
    if r1.out == Returned(true) {
      var m2 := PassChild(d, r1.m, x);
      forall k: nat | 1 <= k < |d.phases[x].children| ensures !InSubtree(d, Child(d, x, k), racer) {
        ChildrenApart(d, x, 0, k);
      }
      InOrderAvoids(d, e, m2, x, racer);
      var b := UpdateInOrder(d, e, m2, x).m.effects;
      AvoidsWithout(d, m2.effects, b, racer);
      WithoutChain(m.effects, m2.effects, b, racer);
    }
  }

  /** Child number `k` of `x` leads to the racer, and has not started. */
  ghost predicate Behind(d: Diagram, e: Env, phases: seq<PhaseRt>, x: nat, k: nat, y: nat, racer: nat)
    requires x < |d.phases|
  {
    && k < |d.phases[x].children| && x < racer
    && KeptBack(d, e, Child(d, x, k), y, racer) && InSubtree(d, Child(d, x, k), racer) && Fresh(d, phases, Child(d, x, k))
  }

  /** The children are about to be updated from position `i` of the execution order on, and the one at position `n` leads to the racer. */
  ghost predicate BehindAt(d: Diagram, e: Env, m: Machine, x: nat, order: seq<nat>, i: nat, n: nat, y: nat, racer: nat) {
    && Pre(d, m, x) && m.phases[x].state == Run && d.phases[x].kind.Mix?
    && m.phases[x].execOrder == order && IsOrder(order, |d.phases[x].children|) && i <= n < |order|
    && Behind(d, e, m.phases, x, order[n], y, racer)
  }

  lemma {:induction false} ChildrenKeepBack(d: Diagram, e: Env, m: Machine, x: nat, order: seq<nat>, i: nat, n: nat, y: nat, racer: nat)
    requires BehindAt(d, e, m, x, order, i, n, y, racer)
    ensures Without(m.effects, UpdateRest(d, e, m, x, order, i).m.effects, racer)
    decreases |d.phases| - x, 1, n - i
  {
    if i == n {
      UpdateKeepsBack(d, e, m, Child(d, x, order[n]), y, racer);
      LastChildWithout(d, e, m, x, order, n, racer);
    } else {
      var r1 := UpdateChild(d, e, m, x, order[i]);
      OtherChildKeepsBack(d, e, m, x, order, i, n, y, racer);
      if r1.out.Returned? {
        ChildrenKeepBack(d, e, r1.m, x, order, i + 1, n, y, racer);
        WithoutChain(m.effects, r1.m.effects, UpdateRest(d, e, r1.m, x, order, i + 1).m.effects, racer);
      }
    }
  }

  lemma OtherChildKeepsBack(d: Diagram, e: Env, m: Machine, x: nat, order: seq<nat>, i: nat, n: nat, y: nat, racer: nat)
    requires BehindAt(d, e, m, x, order, i, n, y, racer) && i < n
    ensures var r := UpdateChild(d, e, m, x, order[i]);
            && Without(m.effects, r.m.effects, racer)
            && if r.out.Raised? then UpdateRest(d, e, m, x, order, i) == r
               else BehindAt(d, e, r.m, x, order, i + 1, n, y, racer)
                    && UpdateRest(d, e, m, x, order, i) == UpdateRest(d, e, r.m, x, order, i + 1)
  {
    UpdateFirstChild(d, e, m, x, order, i);
    OtherChildAvoids(d, e, m, x, order[i], order[n]);
    StillFresh(d, e, m, x, order[i], order[n]);
  }

  lemma LastChildWithout(d: Diagram, e: Env, m: Machine, x: nat, order: seq<nat>, n: nat, racer: nat)
    requires Pre(d, m, x) && m.phases[x].state == Run && d.phases[x].kind.Mix?
    requires m.phases[x].execOrder == order && IsOrder(order, |d.phases[x].children|) && n < |order|
    requires x < racer < |d.phases| && InSubtree(d, Child(d, x, order[n]), racer)
    requires Without(m.effects, Update(d, e, m, Child(d, x, order[n])).m.effects, racer)
    ensures Without(m.effects, UpdateRest(d, e, m, x, order, n).m.effects, racer)
  {
    var r1 := UpdateChild(d, e, m, x, order[n]);
    UpdateFirstChild(d, e, m, x, order, n);
    if r1.out.Returned? {
      LaterChildrenWithout(d, e, r1.m, x, order, n, racer);
      WithoutChain(m.effects, r1.m.effects, UpdateRest(d, e, m, x, order, n).m.effects, racer);
    }
  }

  lemma LaterChildrenWithout(d: Diagram, e: Env, m: Machine, x: nat, order: seq<nat>, n: nat, racer: nat)
    requires Pre(d, m, x) && m.phases[x].state == Run && d.phases[x].kind.Mix?
    requires m.phases[x].execOrder == order && IsOrder(order, |d.phases[x].children|) && n < |order|
    requires x < racer < |d.phases| && InSubtree(d, Child(d, x, order[n]), racer)
    ensures Without(m.effects, UpdateRest(d, e, m, x, order, n + 1).m.effects, racer)
  {
    forall j | n + 1 <= j < |order| ensures !InSubtree(d, Child(d, x, order[j]), racer) {
      ChildrenApart(d, x, order[n], order[j]);
    }
    ChildrenAvoid(d, e, m, x, order, n + 1, racer);
    AvoidsWithout(d, m.effects, UpdateRest(d, e, m, x, order, n + 1).m.effects, racer);
  }

  // ---------------------------------------------------------------- what a phase needs

  /** Whether an effect done for phase `p` uses actor `id`: applying a condition or an action, or creating the
      actor of the phase. A phase without pending initial actions checks its end condition right after it was
      applied, so it uses all actors that the condition names. */
  ghost predicate Uses(d: Diagram, phases: seq<PhaseRt>, eff: Effect, p: nat, id: ActorId)
    requires p < |d.phases| == |phases|
  {
    var ph := d.phases[p];
    match eff
    case ApplyStart(q) => q == p && ph.startCondition.Some? && id in ph.startDeps
    case ApplyEnd(q) => q == p && ph.endCondition.Some? && (id in ph.endApplyDeps || (!phases[p].initPending && id in ph.endDeps))
    case InitializeActor(q) => q == p && ph.kind.ActorAction? && id in ph.actionDeps
    case ApplyAction(a) => a in ph.actions && id in ph.actionDeps
  }

  /** Applying a condition uses no actors that checking it does not. */
  predicate ApplyUsesLess(d: Diagram) {
    forall p, i :: 0 <= p < |d.phases| && 0 <= i < |d.phases[p].endApplyDeps| ==> d.phases[p].endApplyDeps[i] in d.phases[p].endDeps
  }

  /** The race track collects exactly the actors named by the start condition, by the end condition or, while
      initial actions are pending, by its application, and by the actions. */
  lemma DependenciesExactly(d: Diagram, pending: set<nat>, p: nat, id: ActorId)
    requires p < |d.phases|
    ensures var ph := d.phases[p];
            id in DependencyToRun(d, pending, p) <==>
              || (ph.startCondition.Some? && id in ph.startDeps)
              || (ph.endCondition.Some? && p !in pending && id in ph.endDeps)
              || (ph.endCondition.Some? && p in pending && id in ph.endApplyDeps)
              || ((ph.kind.ActorAction? || ph.kind.SystemAction?) && id in ph.actionDeps)
  {
  }

  lemma UsedIsCollected(d: Diagram, phases: seq<PhaseRt>, eff: Effect, p: nat, id: ActorId)
    requires p < |d.phases| == |phases| && ApplyUsesLess(d) && Uses(d, phases, eff, p, id)
    ensures id in DependencyToRun(d, Pending(phases), p) && Owner(d, eff) == p
  {
    DependenciesExactly(d, Pending(phases), p, id);
    assert p in Pending(phases) <==> phases[p].initPending;
    if eff.ApplyAction? {
      ActionsNamed(d, p);
      CompositeHasChildren(d, p);
      assert d.ActionOK(p, eff.action) && d.PhaseOK(p);
    }
  }

  // ---------------------------------------------------------------- the first pass

  /** A mix phase that just started to run, and whose race track succeeds. */
  ghost predicate FirstPass(d: Diagram, e: Env, m: Machine, s: nat) {
    && Pre(d, m, s) && d.phases[s].kind.Mix? && m.phases[s].state == Run && m.phases[s].execOrder == []
    && FreshBelow(d, m.phases, s) && e.sort(s, m.phases, m.effects).Some?
  }

  /** A phase that has not run yet enters its first pass with nothing started below it. */
  lemma EntersFresh(d: Diagram, m: Machine, s: nat, m2: Machine)
    requires Pre(d, m, s) && Whole(d, m.phases, s) && (m.phases[s].state == Idle || m.phases[s].state == Start)
    requires GetsToRun(d, m, s, m2)
    ensures FreshBelow(d, m2.phases, s) && m2.phases[s] == m.phases[s].(state := Run)
  {
    forall q: nat | q < |d.phases| && q != s && Active(d, s, q) ensures Untouched(m.phases, q) {
      IdleBelow(d, m.phases, s, q);
    }
    StaysFreshBelow(d, m.phases, m2.phases, s);
  }

  /** What the first pass of `s` has done in the end. */
  function Deeds(d: Diagram, e: Env, m: Machine, s: nat): seq<Effect>
    requires Pre(d, m, s)
  {
    Update(d, e, m, s).m.effects
  }

  /** Each racer is an active phase that creates its actor, and every actor to be created has a racer. */
  ghost predicate RacersFound(d: Diagram, s: nat, existing: set<ActorId>, racers: map<ActorId, nat>)
    requires s < |d.phases|
  {
    && (forall id :: id in racers ==>
          Member(d, s, racers[id]) && d.phases[racers[id]].kind == ActorAction(id) && id !in existing)
    && (forall q: nat :: Member(d, s, q) && d.phases[q].kind.ActorAction? && d.phases[q].kind.actor !in existing ==>
          d.phases[q].kind.actor in racers)
  }

  /** Effect number `i` of the pass, done for `p`, uses an actor that another phase is to create. */
  ghost predicate NeedsActor(d: Diagram, e: Env, m: Machine, s: nat, racers: map<ActorId, nat>, p: nat, id: ActorId, i: nat)
    requires Pre(d, m, s)
  {
    && Member(d, s, p) && id in racers && racers[id] != p
    && |m.effects| <= i < |Deeds(d, e, m, s)| && Uses(d, m.phases, Deeds(d, e, m, s)[i], p, id)
  }

  ghost predicate CreatedBy(a: seq<Effect>, b: seq<Effect>, racer: nat, i: nat) {
    exists j :: |a| <= j < i && j < |b| && b[j] == InitializeActor(racer)
  }

  lemma SortedIsReady(d: Diagram, e: Env, m: Machine, s: nat, orders: Orders, racer: nat, member: nat)
    requires FirstPass(d, e, m, s) && Races(d, s, orders, racer, member) && OpenPath(d, e, s, racer)
    ensures var m1 := SetExecOrders(d, m, s, orders);
            Ready(d, e, m1, s, orders, s, racer, member) && m1.phases[s].state == Run && m1.effects == m.effects
  {
    var m1 := SetExecOrders(d, m, s, orders);
    assert Active(d, s, s);
    StaysFreshBelow(d, m.phases, m1.phases, s);
  }

  lemma CreatedOrNothing(d: Diagram, e: Env, m: Machine, s: nat, orders: Orders, racer: nat, member: nat)
    requires FirstPass(d, e, m, s) && e.sort(s, m.phases, m.effects) == Some(orders)
    requires Races(d, s, orders, racer, member) && racer != s && OpenPath(d, e, s, racer)
    ensures Creates(d, m.effects, Update(d, e, m, s), racer, member)
  {
    SortedUpdate(d, e, m, s, orders);
    SortedIsReady(d, e, m, s, orders, racer, member);
    RunningCreates(d, e, SetExecOrders(d, m, s, orders), s, orders, s, racer, member);
  }

  /** The racer behind a need, under the orders of the pass. */
  lemma NeededRacer(d: Diagram, e: Env, existing: set<ActorId>, m: Machine, s: nat, racers: map<ActorId, nat>, deps: map<nat, seq<nat>>,
                    p: nat, id: ActorId, i: nat)
    requires FirstPass(d, e, m, s) && ApplyUsesLess(d) && NeedsActor(d, e, m, s, racers, p, id, i)
    requires Dependencies(d, s, existing, Pending(m.phases), racers, deps)
    requires var orders := e.sort(s, m.phases, m.effects).value; OrdersEverything(d, s, orders) && AllMet(d, s, orders, deps)
    ensures p in deps && racers[id] in deps[p] && Owner(d, Deeds(d, e, m, s)[i]) == p && racers[id] != s
    ensures Races(d, s, e.sort(s, m.phases, m.effects).value, racers[id], p)
  {
    UsedIsCollected(d, m.phases, Deeds(d, e, m, s)[i], p, id);
    var ids := DependencyToRun(d, Pending(m.phases), p);
    var k :| 0 <= k < |ids| && ids[k] == id;
    assert Needs(d, Pending(m.phases), racers, p, racers[id]);
    DependenciesLead(d, s, existing, Pending(m.phases), racers, deps, p, racers[id]);
  }

  /** An actor that is needed was created before if its racer's effects are in the pass at all. */
  lemma CreatedInTime(d: Diagram, a: seq<Effect>, b: seq<Effect>, racer: nat, p: nat, i: nat)
    requires ActsFirst(d, a, b, racer, p) && |a| <= i < |b| && Owner(d, b[i]) == p && racer != p
    ensures CreatedBy(a, b, racer, i) <==> !Without(a, b, racer)
  {
    if !Without(a, b, racer) {
      var j :| |a| <= j < |b| && b[j] == InitializeActor(racer);
      assert i != j;
    }
  }

  /** Whether some phase between `s` and the racer is never let go. */
  ghost predicate Held(d: Diagram, e: Env, s: nat, racer: nat) {
    exists y :: y != s && KeptBack(d, e, s, y, racer)
  }

  lemma HeldIsMissing(d: Diagram, e: Env, m: Machine, s: nat, racer: nat)
    requires FirstPass(d, e, m, s) && Held(d, e, s, racer)
    ensures Without(m.effects, Deeds(d, e, m, s), racer)
  {
    var y :| y != s && KeptBack(d, e, s, y, racer);
    RunningKeepsBack(d, e, m, s, y, racer);
  }

  /** Main result: in the first pass of a mix phase whose race track does its work, whenever something is done
      for a phase that uses an actor to be created by another one, the actor was created before in that pass,
      if no start condition keeps back the racer or a phase above it; and it was not, if one does. */
  lemma ActorsAreCreatedFirst(d: Diagram, e: Env, actors: seq<Effect> -> set<ActorId>, m: Machine, s: nat)
    returns (racers: map<ActorId, nat>)
    requires FirstPass(d, e, m, s) && RunsRaceTrack(d, e, actors) && ApplyUsesLess(d)
    ensures RacersFound(d, s, actors(m.effects), racers)
    ensures forall p, id, i :: NeedsActor(d, e, m, s, racers, p, id, i) ==>
              && (OpenPath(d, e, s, racers[id]) ==> CreatedBy(m.effects, Deeds(d, e, m, s), racers[id], i))
              && (Held(d, e, s, racers[id]) ==> !CreatedBy(m.effects, Deeds(d, e, m, s), racers[id], i))
              && (CreatedBy(m.effects, Deeds(d, e, m, s), racers[id], i) <==> InitializeActor(racers[id]) in Deeds(d, e, m, s)[|m.effects|..])
  {
    var orders, existing := e.sort(s, m.phases, m.effects).value, actors(m.effects);
    var deps :| Raced(d, s, existing, Pending(m.phases), orders, deps);
    racers :| Dependencies(d, s, existing, Pending(m.phases), racers, deps);
    RacersAreFound(d, s, existing, Pending(m.phases), racers, deps);
    forall p, id, i | NeedsActor(d, e, m, s, racers, p, id, i)
      ensures OpenPath(d, e, s, racers[id]) ==> CreatedBy(m.effects, Deeds(d, e, m, s), racers[id], i)
      ensures Held(d, e, s, racers[id]) ==> !CreatedBy(m.effects, Deeds(d, e, m, s), racers[id], i)
      ensures CreatedBy(m.effects, Deeds(d, e, m, s), racers[id], i) <==> InitializeActor(racers[id]) in Deeds(d, e, m, s)[|m.effects|..]
    {
      NeedIsMet(d, e, existing, m, s, orders, racers, deps, p, id, i);
    }
  }

  lemma RacersAreFound(d: Diagram, s: nat, existing: set<ActorId>, pending: set<nat>, racers: map<ActorId, nat>, deps: map<nat, seq<nat>>)
    requires s < |d.phases| && Dependencies(d, s, existing, pending, racers, deps)
    ensures RacersFound(d, s, existing, racers)
  {
    forall id | id in racers
      ensures Member(d, s, racers[id]) && d.phases[racers[id]].kind == ActorAction(id) && id !in existing
    {
      assert racers[id] in deps.Keys && HasActorCreation(d, existing, racers[id]) == Some(id);
    }
    forall q: nat | Member(d, s, q) && d.phases[q].kind.ActorAction? && d.phases[q].kind.actor !in existing
      ensures d.phases[q].kind.actor in racers
    {
      assert q in deps.Keys && HasActorCreation(d, existing, q) == Some(d.phases[q].kind.actor);
    }
  }

  lemma NeedIsMet(d: Diagram, e: Env, existing: set<ActorId>, m: Machine, s: nat, orders: Orders, racers: map<ActorId, nat>,
                  deps: map<nat, seq<nat>>, p: nat, id: ActorId, i: nat)
    requires FirstPass(d, e, m, s) && ApplyUsesLess(d) && NeedsActor(d, e, m, s, racers, p, id, i)
    requires Dependencies(d, s, existing, Pending(m.phases), racers, deps)
    requires e.sort(s, m.phases, m.effects) == Some(orders) && OrdersEverything(d, s, orders) && AllMet(d, s, orders, deps)
    ensures var a, b, racer := m.effects, Deeds(d, e, m, s), racers[id];
            && (OpenPath(d, e, s, racer) ==> CreatedBy(a, b, racer, i))
            && (Held(d, e, s, racer) ==> !CreatedBy(a, b, racer, i))
            && (CreatedBy(a, b, racer, i) <==> InitializeActor(racer) in b[|a|..])
  {
    var a, b, racer := m.effects, Deeds(d, e, m, s), racers[id];
    NeededRacer(d, e, existing, m, s, racers, deps, p, id, i);
    OrderedPair(d, e, m, s, orders, deps, p, racer);
    CreatedInTime(d, a, b, racer, p, i);
    if OpenPath(d, e, s, racer) {
      CreatedOrNothing(d, e, m, s, orders, racer, p);
    }
    if Held(d, e, s, racer) {
      HeldIsMissing(d, e, m, s, racer);
    }
    InTheRest(a, b, racer);
  }

  lemma InTheRest(a: seq<Effect>, b: seq<Effect>, racer: nat)
    requires a <= b
    ensures InitializeActor(racer) in b[|a|..] <==> !Without(a, b, racer)
  {
    if !Without(a, b, racer) {
      var i :| |a| <= i < |b| && b[i] == InitializeActor(racer);
      assert b[|a|..][i - |a|] == b[i];
    }
  }
}
