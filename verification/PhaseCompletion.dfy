/** When a running phase without an end condition ends, and what ending it then changes. */
module PhaseCompletion {
  import opened Wrappers
  import opened Scenario
  import opened PhaseSemantics
  import opened PhaseTree

  /** Nothing is left to do: every child has ended, or every final action is over. */
  ghost predicate ContentDone(d: Diagram, m: Machine, p: nat)
    requires p < |d.phases|
  {
    if d.phases[p].kind.Mix? || d.phases[p].kind.Serial? then AllIn(m.phases, d.phases[p].children, End)
    else forall a :: a in Finals(d, p) ==> a < |m.status| && Terminal(m.status[a])
  }

  /** Completion, as conditions read it too, means for a running phase that its content is done. */
  lemma CompletionMeaning(d: Diagram, m: Machine, p: nat)
    requires Fits(d, m) && p < |d.phases| && m.phases[p].state == Run && NodeOK(d, m.phases, p)
    ensures HasCompleted(d, m, p) <==> ContentDone(d, m, p)
  {
    var kids := d.phases[p].children;
    match d.phases[p].kind {
      case Mix =>
      case Serial =>
        SerialCompletion(d, m, p);
      case _ =>
        forall i | 0 <= i < |Finals(d, p)| ensures Finals(d, p)[i] in Finals(d, p) {
        }
    }
  }

  lemma SerialCompletion(d: Diagram, m: Machine, p: nat)
    requires Fits(d, m) && p < |d.phases| && m.phases[p].state == Run && NodeOK(d, m.phases, p) && d.phases[p].kind.Serial?
    ensures m.phases[p].childrenDone <==> AllIn(m.phases, d.phases[p].children, End)
  {
    var kids, k := d.phases[p].children, m.phases[p].position;
    if k == |kids| {
      assert kids[..k] == kids;
    }
  }

  // ---------------------------------------------------------------- ending what has ended

  /** Ending an ended subtree again changes nothing. */
  lemma {:induction false} EndedIsEnded(d: Diagram, m: Machine, p: nat)
    requires Pre(d, m, p) && AtRest(d, m.phases, p) && m.phases[p].state == End
    ensures OnEnd(d, m, p) == m
    decreases |d.phases| - p, 1, 0
  {
    if d.phases[p].kind.Mix? {
      EndedChildrenStay(d, m, p, 0);
    } else if d.phases[p].kind.Serial? {
      EndedChildrenStay(d, m, p, m.phases[p].position);
    }
    assert m.phases[p := m.phases[p].(state := End)] == m.phases;
  }

  lemma {:induction false} EndedChildrenStay(d: Diagram, m: Machine, p: nat, i: nat)
    requires Pre(d, m, p) && Inner(d, m.phases, p) && AllIn(m.phases, d.phases[p].children, End)
    ensures EndRest(d, m, p, i) == m
    decreases |d.phases| - p, 0, if i < |d.phases[p].children| then |d.phases[p].children| - i else 0
  {
    EndFirstChild(d, m, p, i);
    if i < |d.phases[p].children| {
      var c := Child(d, p, i);
      InnerBelow(d, m.phases, p, c);
      EndedIsEnded(d, m, c);
      EndedChildrenStay(d, m, p, i + 1);
    }
  }

  lemma {:induction false} OverIsOver(d: Diagram, m: Machine, acts: seq<nat>)
    requires Fits(d, m) && d.Named(acts) && forall i :: 0 <= i < |acts| ==> Terminal(m.status[acts[i]])
    ensures PreemptAll(d, m, acts) == m
    decreases |acts|
  {
    if acts != [] {
      assert Terminal(m.status[acts[0]]);
      OverIsOver(d, m, acts[1..]);
    }
  }

  /** Only the phase itself ends: its state, its tracking, and the transition flag. */
  ghost predicate EndsAlone(d: Diagram, m: Machine, m': Machine, p: nat)
    requires p < |d.phases| == |m.phases|
  {
    && m'.phases == m.phases[p := m.phases[p].(state := End)]
    && m'.status == m.status && m'.effects == m.effects && m'.trace == m.trace
    && m'.toDispatch == (if d.phases[p].kind.ActorAction? then m.toDispatch - {p} else m.toDispatch)
    && m'.inProcess == (if d.phases[p].kind.ActorAction? then m.inProcess - {p} else m.inProcess)
    && m'.transition == (m.transition || p != 0)
  }

  /** Ending a phase whose content is done changes nothing below it and preempts nothing. */
  lemma DoneEndsAlone(d: Diagram, m: Machine, p: nat)
    requires Pre(d, m, p) && m.phases[p].state == Run && Inner(d, m.phases, p) && ContentDone(d, m, p)
    ensures EndsAlone(d, m, Finish(d, m, p).m, p)
    ensures Finish(d, m, p).out == if p == 0 then Raised(SuccessReported) else Returned(true)
  {
    DoneEndsNothingBelow(d, m, p);
    var m1 := EndBelow(d, m, p);
    assert OnEnd(d, m, p) == SetState(d, m1, p, End);
  }

  lemma DoneEndsNothingBelow(d: Diagram, m: Machine, p: nat)
    requires Pre(d, m, p) && m.phases[p].state == Run && Inner(d, m.phases, p) && ContentDone(d, m, p)
    ensures EndBelow(d, m, p) == if d.phases[p].kind.ActorAction?
                                 then m.(toDispatch := m.toDispatch - {p}, inProcess := m.inProcess - {p}) else m
  {
    if d.phases[p].kind.Mix? {
      EndedChildrenStay(d, m, p, 0);
      assert EndBelow(d, m, p) == EndRest(d, m, p, 0);
    } else if d.phases[p].kind.Serial? {
      EndedChildrenStay(d, m, p, m.phases[p].position);
      assert EndBelow(d, m, p) == EndRest(d, m, p, m.phases[p].position);
    } else {
      LeafEndsAlone(d, m, p);
    }
  }

  lemma LeafEndsAlone(d: Diagram, m: Machine, p: nat)
    requires Pre(d, m, p) && m.phases[p].state == Run && ContentDone(d, m, p)
    requires d.phases[p].kind.ActorAction? || d.phases[p].kind.SystemAction?
    ensures EndActions(d, m, p) == if d.phases[p].kind.ActorAction?
                                   then m.(toDispatch := m.toDispatch - {p}, inProcess := m.inProcess - {p}) else m
  {
    var m1 := if d.phases[p].kind.ActorAction? then m.(toDispatch := m.toDispatch - {p}, inProcess := m.inProcess - {p}) else m;
    forall i | 0 <= i < |Finals(d, p)| ensures Terminal(m1.status[Finals(d, p)[i]]) {
      assert Finals(d, p)[i] in Finals(d, p);
    }
    OverIsOver(d, m1, Finals(d, p));
  }

  // ---------------------------------------------------------------- the end of a running phase

  /** What the end of a run update says about the content, in the machine that the update reached. */
  lemma DecisionMeaning(d: Diagram, e: Env, m: Machine, p: nat)
    requires Pre(d, m, p) && m.phases[p].state == Run && Whole(d, m.phases, p) && d.phases[p].endCondition == None
    requires d.phases[p].kind.Mix? ==> m.phases[p].execOrder != []
    ensures var r := Conclude(d, e, m, p);
            r.out.Returned? ==> (r.out.value ==> Whole(d, r.m.phases, p) && ContentDone(d, r.m, p))
                                && (!r.out.value && !m.phases[p].initPending ==> !ContentDone(d, r.m, p))
    ensures m.phases[p].initPending ==> Conclude(d, e, m, p).out == Returned(false)
  {
    var r := Conclude(d, e, m, p);
    if r.out.Returned? && !m.phases[p].initPending {
      ConcludeKeepsTree(d, e, m, p);
      CompletionMeaning(d, r.m, p);
    }
  }

  /** A run update leaves the flag for pending initial actions alone before its end. */
  lemma {:induction false} PendingUntilTheEnd(d: Diagram, e: Env, m: Machine, p: nat)
    requires Pre(d, m, p) && m.phases[p].state == Run
    ensures var r1 := UpdateContent(d, e, m, p);
            r1.m.phases[p].initPending == m.phases[p].initPending
            && UpdateSystemActions(d, e, r1.m, p, 0).m.phases[p].initPending == m.phases[p].initPending
  {
  }

  lemma {:induction false} RunUpdateMeaning(d: Diagram, e: Env, m: Machine, p: nat)
    requires Pre(d, m, p) && m.phases[p].state == Run && Whole(d, m.phases, p) && d.phases[p].endCondition == None
    ensures var r := DoRunUpdate(d, e, m, p);
            r.out.Returned? ==> (r.out.value ==> Whole(d, r.m.phases, p) && ContentDone(d, r.m, p))
                                && (!r.out.value && !m.phases[p].initPending ==> !ContentDone(d, r.m, p))
    ensures m.phases[p].initPending ==> DoRunUpdate(d, e, m, p).out != Returned(true)
  {
    var r1 := UpdateContent(d, e, m, p);
    PendingUntilTheEnd(d, e, m, p);
    if r1.out.Returned? {
      UpdateContentKeepsTree(d, e, m, p);
      UpdateSystemActionsKeepsTree(d, e, r1.m, p, 0);
      var r2 := UpdateSystemActions(d, e, r1.m, p, 0);
      if r2.out.Returned? {
        DecisionMeaning(d, e, r2.m, p);
      }
    }
  }

  lemma RunningUpdate(d: Diagram, e: Env, m: Machine, p: nat)
    requires Pre(d, m, p) && m.phases[p].state == Run
    ensures var r1 := DoRunUpdate(d, e, m, p);
            Update(d, e, m, p) == if r1.out == Returned(true) then Finish(d, r1.m, p) else r1
  {
    var r1 := DoRunUpdate(d, e, m, p);
    if r1.out == Returned(true) {
      var r2 := Finish(d, r1.m, p);
      assert Advance(d, e, m, p) == r2;
      if r2.out.Returned? {
        assert Update(d, e, r2.m, p) == Step(r2.m, Returned(true));
      }
    } else {
      assert Advance(d, e, m, p) == r1;
    }
  }

  /** Main result: a running phase without an end condition ends in an update exactly when, after what
      the update did inside it, nothing is left to do there and no initial actions were pending; ending
      it then changes nothing below. */
  lemma EndsExactlyWhenDone(d: Diagram, e: Env, m: Machine, p: nat)
    requires Pre(d, m, p) && m.phases[p].state == Run && Whole(d, m.phases, p) && d.phases[p].endCondition == None
    ensures var before, r := DoRunUpdate(d, e, m, p), Update(d, e, m, p);
            && (r.m.phases[p].state == End ==>
                  !m.phases[p].initPending && ContentDone(d, before.m, p) && EndsAlone(d, before.m, r.m, p)
                  && r.out == if p == 0 then Raised(SuccessReported) else Returned(true))
            && (r.m.phases[p].state != End && r.out.Returned? ==> m.phases[p].initPending || !ContentDone(d, r.m, p))
  {
    var before := DoRunUpdate(d, e, m, p);
    RunUpdateMeaning(d, e, m, p);
    RunningUpdate(d, e, m, p);
    if before.out == Returned(true) {
      DoneEndsAlone(d, before.m, p);
    }
  }

  /** A phase that begins to run with initial actions pending is still running, without them, when the
      update returns, whatever its end condition says. */
  lemma PendingPhasesRunOn(d: Diagram, e: Env, m: Machine, p: nat)
    requires Pre(d, m, p) && m.phases[p].state == Run && m.phases[p].initPending
    ensures var r := Update(d, e, m, p);
            r.m.phases[p].state == Run && (r.out.Returned? ==> !r.m.phases[p].initPending && !r.out.value)
  {
    RunningUpdate(d, e, m, p);
    PendingUntilTheEnd(d, e, m, p);
  }

  /** The end of the root phase, for whatever reason, is reported as the success of the scenario. */
  lemma {:induction false} EndOfRoot(d: Diagram, e: Env, m: Machine)
    requires Pre(d, m, 0) && m.phases[0].state != End
    ensures var r := Update(d, e, m, 0); r.m.phases[0].state == End ==> r.out == Raised(SuccessReported)
    decreases 3 - Rank(m.phases[0].state)
  {
    var r := Advance(d, e, m, 0);
    if m.phases[0].state == Run {
      RunningUpdate(d, e, m, 0);
    } else if r.out == Returned(true) {
      EndOfRoot(d, e, r.m);
    }
  }
}
