/** What starting and running a phase does to the world, and when it throws. */
module PhaseEffects {
  import opened Wrappers
  import opened Scenario
  import opened PhaseSemantics
  import opened PhaseTree
  import opened PhaseCompletion
  import opened PhaseVisits
  import opened Execution

  /** Why an effect ends the scenario: it reports success or failure, or it throws. */
  predicate Stops(d: Diagram, e: Env, before: seq<Effect>, eff: Effect, cause: Cause) {
    var kind := if eff.ApplyAction? && eff.action < |d.actions| then d.actions[eff.action].kind else Wait;
    match cause
    case SuccessReported => kind.ScenarioSuccess?
    case FailureReported => kind.ScenarioFailure?
    case EngineError => !kind.ScenarioSuccess? && !kind.ScenarioFailure? && e.raises(eff, before)
  }

  /** Entry number `i` ended nothing when it was appended. */
  ghost predicate Passed(d: Diagram, e: Env, effects: seq<Effect>, i: nat) {
    i < |effects| && forall cause :: !Stops(d, e, effects[..i], effects[i], cause)
  }

  /** After `before`, these effects were tried in order, up to the first that ended the scenario. */
  ghost predicate Tried(d: Diagram, e: Env, before: seq<Effect>, deeds: seq<Effect>, after: seq<Effect>, out: Outcome) {
    && before <= after
    && if out.Returned? then
         after == before + deeds && forall i :: |before| <= i < |after| ==> Passed(d, e, after, i)
       else
         && |before| < |after| && after <= before + deeds
         && (forall i :: |before| <= i < |after| - 1 ==> Passed(d, e, after, i))
         && Stops(d, e, after[..|after| - 1], after[|after| - 1], out.cause)
  }

  lemma PassedStays(d: Diagram, e: Env, a: seq<Effect>, b: seq<Effect>, i: nat)
    requires a <= b && Passed(d, e, a, i)
    ensures Passed(d, e, b, i)
  {
    assert b[..i] == a[..i];
  }

  /** Effects tried one list after the other. */
  lemma TriedChain(d: Diagram, e: Env, a: seq<Effect>, deeds1: seq<Effect>, b: seq<Effect>, deeds2: seq<Effect>, c: seq<Effect>, out: Outcome)
    requires Tried(d, e, a, deeds1, b, Returned(true)) && Tried(d, e, b, deeds2, c, out)
    ensures Tried(d, e, a, deeds1 + deeds2, c, out)
  {
    assert a + (deeds1 + deeds2) == b + deeds2;
    forall i | |a| <= i < |b| ensures Passed(d, e, c, i) {
      PassedStays(d, e, b, c, i);
    }
  }

  lemma TriedLess(d: Diagram, e: Env, a: seq<Effect>, deeds1: seq<Effect>, deeds2: seq<Effect>, b: seq<Effect>, out: Outcome)
    requires Tried(d, e, a, deeds1, b, out) && out.Raised?
    ensures Tried(d, e, a, deeds1 + deeds2, b, out)
  {
    assert a + (deeds1 + deeds2) == (a + deeds1) + deeds2;
  }

  lemma ApplyTries(d: Diagram, e: Env, m: Machine, eff: Effect)
    requires Fits(d, m) && (eff.ApplyAction? ==> eff.action < |d.actions|)
    ensures var r := Apply(d, e, m, eff); Tried(d, e, m.effects, [eff], r.m.effects, r.out)
  {
    var after := Apply(d, e, m, eff).m.effects;
    assert after[..|m.effects|] == m.effects;
  }

  lemma ApplyOrNotTries(d: Diagram, e: Env, m: Machine, applies: bool, eff: Effect)
    requires Fits(d, m) && (eff.ApplyAction? ==> eff.action < |d.actions|)
    ensures var r := if applies then Apply(d, e, m, eff) else Step(m, Returned(true));
            Tried(d, e, m.effects, if applies then [eff] else [], r.m.effects, r.out)
  {
    if applies {
      ApplyTries(d, e, m, eff);
    }
  }

  /** Applying these actions, one after the other. */
  function Applied(acts: seq<nat>): (r: seq<Effect>)
    ensures |r| == |acts| && forall i :: 0 <= i < |acts| ==> r[i] == ApplyAction(acts[i])
  {
    if acts == [] then [] else [ApplyAction(acts[0])] + Applied(acts[1..])
  }

  lemma {:induction false} ApplyAllTries(d: Diagram, e: Env, m: Machine, acts: seq<nat>)
    requires Fits(d, m) && d.Named(acts)
    ensures var r := ApplyAll(d, e, m, acts); Tried(d, e, m.effects, Applied(acts), r.m.effects, r.out)
    decreases |acts|
  {
    if acts != [] {
      var r1 := Apply(d, e, m, ApplyAction(acts[0]));
      ApplyTries(d, e, m, ApplyAction(acts[0]));
      if r1.out.Returned? {
        ApplyAllTries(d, e, r1.m, acts[1..]);
        var r := ApplyAll(d, e, r1.m, acts[1..]);
        TriedChain(d, e, m.effects, [ApplyAction(acts[0])], r1.m.effects, Applied(acts[1..]), r.m.effects, r.out);
      } else {
        TriedLess(d, e, m.effects, [ApplyAction(acts[0])], Applied(acts[1..]), r1.m.effects, r1.out);
      }
    }
  }

  /** What running phase `p` does to the world. */
  function Doings(d: Diagram, p: nat): seq<Effect>
    requires p < |d.phases|
  {
    (if d.phases[p].kind.ActorAction? then [InitializeActor(p)] else [])
    + (if d.phases[p].endCondition.Some? then [ApplyEnd(p)] else [])
    + Applied(Initials(d, p) + Invariants(d, p) + Finals(d, p))
  }

  /** Checking some action throws. */
  ghost predicate SomeCheckThrows(d: Diagram, e: Env, effects: seq<Effect>, acts: seq<nat>)
    requires d.Named(acts)
  {
    exists i :: 0 <= i < |acts| && CheckStatus(d, e, effects, acts[i]) == Raises
  }

  /** The effects were tried and, if all of them passed, so did the checks of these actions. */
  ghost predicate RanOr(d: Diagram, e: Env, before: seq<Effect>, deeds: seq<Effect>, checked: seq<nat>, r: Step)
    requires d.Named(checked)
  {
    if r.out.Returned? then Tried(d, e, before, deeds, r.m.effects, r.out) && !SomeCheckThrows(d, e, r.m.effects, checked)
    else
      || Tried(d, e, before, deeds, r.m.effects, r.out)
      || (Tried(d, e, before, deeds, r.m.effects, Returned(true)) && r.out.cause.EngineError? && SomeCheckThrows(d, e, r.m.effects, checked))
  }

  /** What is checked once all effects passed. */
  lemma CheckedAfter(d: Diagram, e: Env, before: seq<Effect>, deeds: seq<Effect>, checked: seq<nat>, r2: Step, r: Step)
    requires d.Named(checked) && Tried(d, e, before, deeds, r2.m.effects, r2.out)
    requires r == if r2.out.Returned? && !NoneRaises(d, e, r2.m.effects, checked) then Step(r2.m, Raised(EngineError)) else r2
    ensures RanOr(d, e, before, deeds, checked, r)
  {
  }

  lemma AfterRunTries(d: Diagram, e: Env, m: Machine, p: nat)
    requires Pre(d, m, p)
    ensures var deeds0 := if d.phases[p].endCondition.Some? then [ApplyEnd(p)] else [];
            RanOr(d, e, m.effects, deeds0 + Applied(Initials(d, p) + Invariants(d, p) + Finals(d, p)), Initials(d, p), AfterRun(d, e, m, p))
  {
    var deeds0 := if d.phases[p].endCondition.Some? then [ApplyEnd(p)] else [];
    var acts := Initials(d, p) + Invariants(d, p) + Finals(d, p);
    var r1 := if d.phases[p].endCondition.Some? then Apply(d, e, m, ApplyEnd(p)) else Step(m, Returned(true));
    ApplyOrNotTries(d, e, m, d.phases[p].endCondition.Some?, ApplyEnd(p));
    if r1.out.Raised? {
      TriedLess(d, e, m.effects, deeds0, Applied(acts), r1.m.effects, r1.out);
      CheckedAfter(d, e, m.effects, deeds0 + Applied(acts), Initials(d, p), r1, r1);
    } else {
      var r2 := ApplyAll(d, e, r1.m, acts);
      ApplyAllTries(d, e, r1.m, acts);
      TriedChain(d, e, m.effects, deeds0, r1.m.effects, Applied(acts), r2.m.effects, r2.out);
      CheckedAfter(d, e, m.effects, deeds0 + Applied(acts), Initials(d, p), r2, AfterRun(d, e, m, p));
    }
  }

  /** Main result: running a phase creates the actor, applies the end condition, and then its initial, invariant and final
      actions, up to the first that throws or reports success or failure; if none does, it throws exactly if checking
      an initial action does. */
  lemma RunTries(d: Diagram, e: Env, m: Machine, p: nat)
    requires Pre(d, m, p) && m.phases[p].state == Start
    ensures RanOr(d, e, m.effects, Doings(d, p), Initials(d, p), OnRun(d, e, m, p))
  {
    var acts := Initials(d, p) + Invariants(d, p) + Finals(d, p);
    var deeds0: seq<Effect> := if d.phases[p].kind.ActorAction? then [InitializeActor(p)] else [];
    var deeds1 := (if d.phases[p].endCondition.Some? then [ApplyEnd(p)] else []) + Applied(acts);
    var r1 := if d.phases[p].kind.ActorAction? then Apply(d, e, m, InitializeActor(p)) else Step(m, Returned(true));
    ApplyOrNotTries(d, e, m, d.phases[p].kind.ActorAction?, InitializeActor(p));
    assert Doings(d, p) == deeds0 + deeds1;
    if r1.out.Raised? {
      TriedLess(d, e, m.effects, deeds0, deeds1, r1.m.effects, r1.out);
    } else {
      var m2 := SetState(d, BeforeRun(d, r1.m, p), p, Run);
      AfterRunTries(d, e, m2, p);
      RanAfter(d, e, m.effects, deeds0, r1.m.effects, deeds1, Initials(d, p), AfterRun(d, e, m2, p));
    }
  }

  lemma RanAfter(d: Diagram, e: Env, a: seq<Effect>, deeds1: seq<Effect>, b: seq<Effect>, deeds2: seq<Effect>, checked: seq<nat>, r: Step)
    requires d.Named(checked) && Tried(d, e, a, deeds1, b, Returned(true)) && RanOr(d, e, b, deeds2, checked, r)
    ensures RanOr(d, e, a, deeds1 + deeds2, checked, r)
  {
    if Tried(d, e, b, deeds2, r.m.effects, r.out) {
      TriedChain(d, e, a, deeds1, b, deeds2, r.m.effects, r.out);
    } else {
      TriedChain(d, e, a, deeds1, b, deeds2, r.m.effects, Returned(true));
    }
  }

  /** Starting a phase applies its start condition. */
  lemma StartTries(d: Diagram, e: Env, m: Machine, p: nat)
    requires Pre(d, m, p) && m.phases[p].state == Idle
    ensures var r := OnStart(d, e, m, p);
            Tried(d, e, m.effects, if d.phases[p].startCondition.Some? then [ApplyStart(p)] else [], r.m.effects, r.out)
  {
    ApplyOrNotTries(d, e, SetState(d, m, p, Start), d.phases[p].startCondition.Some?, ApplyStart(p));
  }

  /** A running action phase checks its invariant actions before anything else. */
  lemma InvariantsAreChecked(d: Diagram, e: Env, m: Machine, p: nat)
    requires Pre(d, m, p) && m.phases[p].state == Run && (d.phases[p].kind.ActorAction? || d.phases[p].kind.SystemAction?)
    ensures SomeCheckThrows(d, e, m.effects, Invariants(d, p)) ==> Update(d, e, m, p) == Step(m, Raised(EngineError))
    ensures !SomeCheckThrows(d, e, m.effects, Invariants(d, p)) ==> UpdateContent(d, e, m, p) == Step(m, Returned(true))
  {
    if SomeCheckThrows(d, e, m.effects, Invariants(d, p)) {
      assert UpdateContent(d, e, m, p) == Step(m, Raised(EngineError));
      RunningUpdate(d, e, m, p);
    }
  }

  // ---------------------------------------------------------------- document order

  /** `r` keeps the order of `xs`. */
  ghost predicate KeepsOrder(xs: seq<nat>, r: seq<nat>) {
    forall i, j :: 0 <= i < j < |r| ==> Precedes(xs, r[i], r[j])
  }

  lemma OrderOneMore(xs: seq<nat>, r: seq<nat>, x: nat)
    requires xs != [] && x == xs[0] && KeepsOrder(xs[1..], r) && forall y :: y in r ==> y in xs[1..]
    ensures KeepsOrder(xs, r) && KeepsOrder(xs, [x] + r)
  {
    var all := [x] + r;
    forall i, j | 0 <= i < j < |r| ensures Precedes(xs, r[i], r[j]) {
      assert Precedes(xs[1..], r[i], r[j]);
      var k, l :| 0 <= k < l < |xs[1..]| && xs[1..][k] == r[i] && xs[1..][l] == r[j];
      assert xs[k + 1] == r[i] && xs[l + 1] == r[j];
    }
    forall i, j | 0 <= i < j < |all| ensures Precedes(xs, all[i], all[j]) {
      assert all[j] == r[j - 1];
      if i == 0 {
        assert r[j - 1] in r;
        var l :| 0 <= l < |xs[1..]| && xs[1..][l] == r[j - 1];
        assert xs[0] == x && xs[l + 1] == r[j - 1];
      } else {
        assert all[i] == r[i - 1] && Precedes(xs, r[i - 1], r[j - 1]);
      }
    }
  }

  lemma {:induction false} SelectKeepsOrder(d: Diagram, xs: seq<nat>, interval: Interval)
    requires d.Named(xs)
    ensures KeepsOrder(xs, d.Select(xs, interval))
  {
    if xs != [] {
      SelectKeepsOrder(d, xs[1..], interval);
      OrderOneMore(xs, d.Select(xs[1..], interval), xs[0]);
    }
  }

  lemma {:induction false} UnskippedKeepsOrder(d: Diagram, m: Machine, p: nat, acts: seq<nat>)
    requires Fits(d, m) && p < |d.phases| && d.Named(acts)
    ensures KeepsOrder(acts, Unskipped(d, m, p, acts))
  {
    if acts != [] {
      UnskippedKeepsOrder(d, m, p, acts[1..]);
      OrderOneMore(acts, Unskipped(d, m, p, acts[1..]), acts[0]);
    }
  }

  /** The actions of every interval are applied, checked and sent in document order. */
  lemma DocumentOrder(d: Diagram, m: Machine, p: nat)
    requires Fits(d, m) && p < |d.phases|
    ensures d.Named(d.phases[p].actions)
    ensures d.phases[p].kind.ActorAction? ==>
              KeepsOrder(d.phases[p].actions, Initials(d, p)) && KeepsOrder(d.phases[p].actions, Invariants(d, p))
              && KeepsOrder(d.phases[p].actions, Finals(d, p))
    ensures KeepsOrder(d.phases[p].actions, Unskipped(d, m, p, d.phases[p].actions))
  {
    ActionsNamed(d, p);
    SelectKeepsOrder(d, d.phases[p].actions, AtStart);
    SelectKeepsOrder(d, d.phases[p].actions, Invariant);
    SelectKeepsOrder(d, d.phases[p].actions, AtEnd);
    UnskippedKeepsOrder(d, m, p, d.phases[p].actions);
  }
}
