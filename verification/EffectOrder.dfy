/** What one pass does to the world, and in which order: an update of a phase does things of its
    own subtree only, and a mix phase does those of its children in execution order. */
module EffectOrder {
  import opened Wrappers
  import opened Scenario
  import opened PhaseSemantics

  // ---------------------------------------------------------------- whose effects

  /** The phase an effect belongs to. */
  function Owner(d: Diagram, eff: Effect): nat {
    match eff
    case ApplyStart(p) => p
    case ApplyEnd(p) => p
    case InitializeActor(p) => p
    case ApplyAction(a) => if a < |d.actions| then d.actions[a].owner else |d.phases|
  }

  /** The effects of `b` after those of `a` belong to phases in `[lo, hi)`. */
  ghost predicate Adds(d: Diagram, a: seq<Effect>, b: seq<Effect>, lo: nat, hi: nat) {
    a <= b && forall i :: |a| <= i < |b| ==> lo <= Owner(d, b[i]) < hi
  }

  lemma AddsChain(d: Diagram, a: seq<Effect>, b: seq<Effect>, c: seq<Effect>, lo: nat, hi: nat)
    requires Adds(d, a, b, lo, hi) && Adds(d, b, c, lo, hi)
    ensures Adds(d, a, c, lo, hi)
  {
    forall i | |a| <= i < |c| ensures lo <= Owner(d, c[i]) < hi {
      if i < |b| {
        assert c[i] == b[i];
      }
    }
  }

  lemma AddsWider(d: Diagram, a: seq<Effect>, b: seq<Effect>, lo: nat, hi: nat, lo': nat, hi': nat)
    requires Adds(d, a, b, lo, hi) && lo' <= lo && hi <= hi'
    ensures Adds(d, a, b, lo', hi')
  {
  }

  lemma ApplyAdds(d: Diagram, e: Env, m: Machine, eff: Effect)
    requires Fits(d, m) && (eff.ApplyAction? ==> eff.action < |d.actions|)
    ensures Adds(d, m.effects, Apply(d, e, m, eff).m.effects, Owner(d, eff), Owner(d, eff) + 1)
  {
  }

  lemma {:induction false} ApplyAllAdds(d: Diagram, e: Env, m: Machine, acts: seq<nat>, p: nat)
    requires Fits(d, m) && d.Named(acts) && forall a :: a in acts ==> d.actions[a].owner == p
    ensures Adds(d, m.effects, ApplyAll(d, e, m, acts).m.effects, p, p + 1)
    decreases |acts|
  {
    if acts != [] {
      var r1 := Apply(d, e, m, ApplyAction(acts[0]));
      assert acts[0] in acts;
      ApplyAdds(d, e, m, ApplyAction(acts[0]));
      if r1.out.Returned? {
        ApplyAllAdds(d, e, r1.m, acts[1..], p);
        AddsChain(d, m.effects, r1.m.effects, ApplyAll(d, e, r1.m, acts[1..]).m.effects, p, p + 1);
      }
    }
  }

  lemma OwnActions(d: Diagram, p: nat)
    requires p < |d.phases|
    ensures forall a :: a in Initials(d, p) + Invariants(d, p) + Finals(d, p) ==> a < |d.actions| && d.actions[a].owner == p
  {
    ActionsNamed(d, p);
    forall a | a in Initials(d, p) + Invariants(d, p) + Finals(d, p) ensures a < |d.actions| && d.actions[a].owner == p {
      assert a in d.phases[p].actions;
      assert d.ActionOK(p, a);
    }
  }

  lemma OnStartAdds(d: Diagram, e: Env, m: Machine, p: nat)
    requires Pre(d, m, p) && m.phases[p].state == Idle
    ensures Adds(d, m.effects, OnStart(d, e, m, p).m.effects, p, p + 1)
  {
    if d.phases[p].startCondition.Some? {
      ApplyAdds(d, e, SetState(d, m, p, Start), ApplyStart(p));
    }
  }

  lemma AfterRunAdds(d: Diagram, e: Env, m: Machine, p: nat)
    requires Pre(d, m, p)
    ensures Adds(d, m.effects, AfterRun(d, e, m, p).m.effects, p, p + 1)
  {
    var r1 := if d.phases[p].endCondition.Some? then Apply(d, e, m, ApplyEnd(p)) else Step(m, Returned(true));
    if d.phases[p].endCondition.Some? {
      ApplyAdds(d, e, m, ApplyEnd(p));
    }
    if r1.out.Returned? {
      OwnActions(d, p);
      var acts := Initials(d, p) + Invariants(d, p) + Finals(d, p);
      ApplyAllAdds(d, e, r1.m, acts, p);
      AddsChain(d, m.effects, r1.m.effects, ApplyAll(d, e, r1.m, acts).m.effects, p, p + 1);
    }
  }

  lemma OnRunAdds(d: Diagram, e: Env, m: Machine, p: nat)
    requires Pre(d, m, p) && m.phases[p].state == Start
    ensures Adds(d, m.effects, OnRun(d, e, m, p).m.effects, p, p + 1)
  {
    var r1 := if d.phases[p].kind.ActorAction? then Apply(d, e, m, InitializeActor(p)) else Step(m, Returned(true));
    if d.phases[p].kind.ActorAction? {
      ApplyAdds(d, e, m, InitializeActor(p));
    }
    if r1.out.Returned? {
      var m2 := SetState(d, BeforeRun(d, r1.m, p), p, Run);
      AfterRunAdds(d, e, m2, p);
      AddsChain(d, m.effects, m2.effects, AfterRun(d, e, m2, p).m.effects, p, p + 1);
    }
  }

  lemma {:induction false} OnEndKeepsEffects(d: Diagram, m: Machine, p: nat)
    requires Pre(d, m, p)
    ensures OnEnd(d, m, p).effects == m.effects
    decreases |d.phases| - p, 1, 0
  {
    if d.phases[p].kind.Mix? {
      EndChildrenKeepsEffects(d, m, p, 0);
    } else if d.phases[p].kind.Serial? {
      EndChildrenKeepsEffects(d, m, p, m.phases[p].position);
    }
  }

  lemma {:induction false} EndChildrenKeepsEffects(d: Diagram, m: Machine, p: nat, i: nat)
    requires Pre(d, m, p)
    ensures EndChildren(d, m, p, i).effects == m.effects
    decreases |d.phases| - p, 0, if i < |d.phases[p].children| then |d.phases[p].children| - i else 0
  {
    if i < |d.phases[p].children| {
      OnEndKeepsEffects(d, m, Child(d, p, i));
      EndChildrenKeepsEffects(d, OnEnd(d, m, Child(d, p, i)), p, i + 1);
    }
  }

  /** Main result: an update does things of its own subtree only. */
  lemma {:induction false} UpdateAdds(d: Diagram, e: Env, m: Machine, p: nat)
    requires Pre(d, m, p)
    ensures Adds(d, m.effects, Update(d, e, m, p).m.effects, p, d.phases[p].last)
    decreases |d.phases| - p, 3 - Rank(m.phases[p].state), 5, 0
  {
    AdvanceAdds(d, e, m, p);
    var r := Advance(d, e, m, p);
    if r.out == Returned(true) {
      UpdateAdds(d, e, r.m, p);
      AddsChain(d, m.effects, r.m.effects, Update(d, e, r.m, p).m.effects, p, d.phases[p].last);
    }
  }

  lemma {:induction false} AdvanceAdds(d: Diagram, e: Env, m: Machine, p: nat)
    requires Pre(d, m, p)
    ensures Adds(d, m.effects, Advance(d, e, m, p).m.effects, p, d.phases[p].last)
    decreases |d.phases| - p, 3 - Rank(m.phases[p].state), 4, 0
  {
    match m.phases[p].state {
      case Idle =>
        OnStartAdds(d, e, m, p);
      case Start =>
        if StartDecision(d, e, m, p) == Satisfied {
          OnRunAdds(d, e, m, p);
        }
      case Run =>
        TryEndAdds(d, e, m, p);
      case End =>
    }
  }

  lemma {:induction false} TryEndAdds(d: Diagram, e: Env, m: Machine, p: nat)
    requires Pre(d, m, p) && m.phases[p].state == Run
    ensures Adds(d, m.effects, TryEnd(d, e, m, p).m.effects, p, d.phases[p].last)
    decreases |d.phases| - p, 1, 3, 0
  {
    DoRunUpdateAdds(d, e, m, p);
    var r1 := DoRunUpdate(d, e, m, p);
    if r1.out == Returned(true) {
      OnEndKeepsEffects(d, r1.m, p);
    }
  }

  lemma {:induction false} DoRunUpdateAdds(d: Diagram, e: Env, m: Machine, p: nat)
    requires Pre(d, m, p) && m.phases[p].state == Run
    ensures Adds(d, m.effects, DoRunUpdate(d, e, m, p).m.effects, p, d.phases[p].last)
    decreases |d.phases| - p, 0, 3, 0
  {
    UpdateContentAdds(d, e, m, p);
    var r1 := UpdateContent(d, e, m, p);
    if r1.out.Returned? {
      UpdateSystemActionsAdds(d, e, r1.m, p, 0);
      var r2 := UpdateSystemActions(d, e, r1.m, p, 0);
      AddsChain(d, m.effects, r1.m.effects, r2.m.effects, p, d.phases[p].last);
      if r2.out.Returned? {
        ConcludeKeepsEffects(d, e, r2.m, p);
      }
    }
  }

  lemma ConcludeKeepsEffects(d: Diagram, e: Env, m: Machine, p: nat)
    requires Pre(d, m, p)
    ensures Conclude(d, e, m, p).m.effects == m.effects
    ensures Conclude(d, e, m, p).m.phases[p].execOrder == m.phases[p].execOrder
  {
  }

  lemma {:induction false} UpdateContentAdds(d: Diagram, e: Env, m: Machine, p: nat)
    requires Pre(d, m, p) && m.phases[p].state == Run
    ensures Adds(d, m.effects, UpdateContent(d, e, m, p).m.effects, p, d.phases[p].last)
    decreases |d.phases| - p, 0, 2, 0
  {
    if d.phases[p].kind.Mix? {
      var r1 := SortIfNeeded(d, e, m, p);
      if r1.out.Returned? {
        UpdateChildrenAdds(d, e, SetChildrenDone(d, r1.m, p, true), p, 0);
      }
    } else if d.phases[p].kind.Serial? {
      UpdateInOrderAdds(d, e, m, p);
    }
  }

  lemma {:induction false} UpdateKidAdds(d: Diagram, e: Env, m: Machine, p: nat, c: nat)
    requires Pre(d, m, p) && d.KidOK(p, c)
    ensures Adds(d, m.effects, UpdateKid(d, e, m, p, c).m.effects, c, d.phases[c].last)
    decreases |d.phases| - p, 0, 0, 0
  {
    UpdateAdds(d, e, m, c);
  }

  lemma {:induction false} UpdateChildrenAdds(d: Diagram, e: Env, m: Machine, p: nat, i: nat)
    requires Pre(d, m, p) && m.phases[p].state == Run && d.phases[p].kind.Mix?
    requires IsOrder(m.phases[p].execOrder, |d.phases[p].children|)
    ensures Adds(d, m.effects, UpdateChildren(d, e, m, p, i).m.effects, p, d.phases[p].last)
    decreases |d.phases| - p, 0, 1, |m.phases[p].execOrder| - i
  {
    if i < |m.phases[p].execOrder| {
      var k := m.phases[p].execOrder[i];
      var c := Child(d, p, k);
      UpdateKidAdds(d, e, m, p, c);
      AddsWider(d, m.effects, UpdateKid(d, e, m, p, c).m.effects, c, d.phases[c].last, p, d.phases[p].last);
      var r1 := UpdateChild(d, e, m, p, k);
      if r1.out.Returned? {
        UpdateChildrenAdds(d, e, r1.m, p, i + 1);
        AddsChain(d, m.effects, r1.m.effects, UpdateChildren(d, e, r1.m, p, i + 1).m.effects, p, d.phases[p].last);
      }
    }
  }

  lemma {:induction false} UpdateInOrderAdds(d: Diagram, e: Env, m: Machine, p: nat)
    requires Pre(d, m, p) && m.phases[p].state == Run && d.phases[p].kind.Serial?
    ensures Adds(d, m.effects, UpdateInOrder(d, e, m, p).m.effects, p, d.phases[p].last)
    decreases |d.phases| - p, 0, 1, |d.phases[p].children| - m.phases[p].position
  {
    if m.phases[p].position < |d.phases[p].children| {
      var c := Child(d, p, m.phases[p].position);
      UpdateKidAdds(d, e, m, p, c);
      var r1 := UpdateKid(d, e, m, p, c);
      AddsWider(d, m.effects, r1.m.effects, c, d.phases[c].last, p, d.phases[p].last);
      if r1.out == Returned(true) {
        var m2 := PassChild(d, r1.m, p);
        UpdateInOrderAdds(d, e, m2, p);
        AddsChain(d, m.effects, m2.effects, UpdateInOrder(d, e, m2, p).m.effects, p, d.phases[p].last);
      }
    }
  }

  lemma {:induction false} UpdateSystemActionsAdds(d: Diagram, e: Env, m: Machine, p: nat, i: nat)
    requires Pre(d, m, p) && m.phases[p].state == Run
    ensures Adds(d, m.effects, UpdateSystemActions(d, e, m, p, i).m.effects, p, d.phases[p].last)
    decreases |d.phases| - p, 0, 1, |d.phases[p].systemActions| - i
  {
    if i < |d.phases[p].systemActions| {
      var c := Operation(d, p, i);
      UpdateKidAdds(d, e, m, p, c);
      var r1 := UpdateKid(d, e, m, p, c);
      AddsWider(d, m.effects, r1.m.effects, c, d.phases[c].last, p, d.phases[p].last);
      if r1.out.Returned? {
        UpdateSystemActionsAdds(d, e, r1.m, p, i + 1);
        AddsChain(d, m.effects, r1.m.effects, UpdateSystemActions(d, e, r1.m, p, i + 1).m.effects, p, d.phases[p].last);
      }
    }
  }
}
