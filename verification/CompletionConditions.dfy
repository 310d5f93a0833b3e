/** A condition on the completion of another phase's actions can keep the super step from reaching a fixpoint. */
module CompletionConditions {
  import opened Wrappers
  import opened Scenario
  import opened PhaseSemantics
  import opened PhaseTree
  import opened SuperStep
  import opened Fixpoint
  import opened Execution

  // ---------------------------------------------------------------- overtaken phases

  /** Every final action of the leaf phase `q` is over, or dispatched with its objective met. */
  ghost predicate Completable(d: Diagram, e: Env, m: Machine, q: nat)
    requires |m.status| == |d.actions| && q < |d.phases|
  {
    && !d.phases[q].kind.Mix? && !d.phases[q].kind.Serial?
    && forall i :: 0 <= i < |Finals(d, q)| ==>
         Terminal(m.status[Finals(d, q)[i]])
         || (m.status[Finals(d, q)[i]] == Dispatched && Met(d, e, m.effects, Finals(d, q)[i]))
  }

  /** Phase `x` cannot start before the actions of the running phase `q` are complete, and all of them are about to be. */
  ghost predicate Overtaken(d: Diagram, e: Env, m: Machine, x: nat, q: nat)
    requires |m.phases| == |d.phases| && |m.status| == |d.actions| && x < |d.phases| && q < |d.phases|
  {
    && Awake(d, m, x) && m.phases[x].state == Start && d.phases[x].startCondition == Some(ActionsComplete(q))
    && Awake(d, m, q) && m.phases[q].state == Run && Completable(d, e, m, q)
  }

  /** The passes of an update event end normally, and another pass in the same world changes something. */
  ghost predicate StillMoves(d: Diagram, e: Env, m: Machine) {
    d.phases != [] && Pre(d, m, 0) &&
    var r := RunPasses(d, e, m, true).step;
    r.out.Returned? && Update(d, e, r.m, 0) != r
  }

  lemma {:induction false} PoisedReaches(d: Diagram, e: Env, m: Machine, x: nat)
    requires Fits(d, m) && x < |d.phases| && AtRest(d, m.phases, 0) && Poised(d, e, m, 0) && Awake(d, m, x)
    requires m.phases[x].state == Start || m.phases[x].state == Run
    ensures Poised(d, e, m, x)
    decreases x
  {
    if x != 0 {
      var q := d.phases[x].parent.value;
      PoisedReaches(d, e, m, q);
      if x in d.phases[q].children {
        PoisedChildReached(d, e, m, q, x);
      } else {
        var i: nat :| i < |d.phases[q].systemActions| && d.phases[q].systemActions[i] == x;
        assert Operation(d, q, i) == x;
      }
    }
  }

  lemma PoisedChildReached(d: Diagram, e: Env, m: Machine, q: nat, x: nat)
    requires Fits(d, m) && q < |d.phases| && AtRest(d, m.phases, 0) && m.phases[q].state == Run && Poised(d, e, m, q)
    requires x < |d.phases| && x in d.phases[q].children && m.phases[x].state != Idle && m.phases[x].state != End
    ensures Poised(d, e, m, x)
  {
    CompositeHasChildren(d, q);
    var k: nat :| k < |d.phases[q].children| && d.phases[q].children[k] == x;
    assert Child(d, q, k) == x;
    SubtreeBounds(d, 0);
    assert NodeOK(d, m.phases, q);
    if d.phases[q].kind.Serial? {
      OthersDoNotRun(d, m.phases, q, k);
    }
  }

  /** After a calm pass the actions are complete. */
  lemma CompletableCompletes(d: Diagram, e: Env, m: Machine, m': Machine, q: nat)
    requires Fits(d, m) && Fits(d, m') && q < |d.phases| && Quiet(d, e, m, m') && Completable(d, e, m, q)
    requires m'.phases[q].state == Run && Poised(d, e, m', q)
    ensures HasCompleted(d, m', q)
  {
    var acts := Finals(d, q);
    forall i | 0 <= i < |acts| ensures Terminal(m'.status[acts[i]]) {
      assert m'.status[acts[i]] == m.status[acts[i]] || m'.status[acts[i]] == Done;
    }
  }

  /** Main result: in every scenario, if the last pass of an update event began with an overtaken phase, the passes
      end too early: another pass in the same world throws or makes a transition. */
  lemma CompletionConditionsBreakTheFixpoint(d: Diagram, e: Env, m: Machine, x: nat, q: nat)
    requires Pre(d, m, 0) && AtRest(d, m.phases, 0) && RunPasses(d, e, m, true).step.out.Returned?
    requires x < |d.phases| && q < |d.phases| && Overtaken(d, e, LastInput(d, e, m), x, q)
    ensures StillMoves(d, e, m) && !Calm(Update(d, e, RunPasses(d, e, m, true).step.m, 0))
  {
    var m0, r := LastInput(d, e, m), RunPasses(d, e, m, true).step;
    LastPass(d, e, m);
    OvertakenIsTriggered(d, e, m0, r.m, x, q);
    FixpointExactly(d, e, m);
  }

  lemma OvertakenIsTriggered(d: Diagram, e: Env, m: Machine, m': Machine, x: nat, q: nat)
    requires Fits(d, m) && Fits(d, m') && x < |d.phases| && q < |d.phases| && Overtaken(d, e, m, x, q)
    requires Quiet(d, e, m, m') && AtRest(d, m'.phases, 0) && Poised(d, e, m', 0)
    ensures Awake(d, m', x) && Triggered(d, e, Seen(d, m', x), x)
  {
    SameAwake(d, m, m', x);
    SameAwake(d, m, m', q);
    PoisedReaches(d, e, m', q);
    CompletableCompletes(d, e, m, m', q);
    assert HasCompleted(d, Seen(d, m', x), q) == HasCompleted(d, m', q);
  }

  lemma {:induction false} SameAwake(d: Diagram, m: Machine, m': Machine, x: nat)
    requires |m.phases| == |d.phases| && m'.phases == m.phases && x < |d.phases| && Awake(d, m, x)
    ensures Awake(d, m', x)
    decreases x
  {
    if x != 0 {
      SameAwake(d, m, m', d.phases[x].parent.value);
    }
  }
}
