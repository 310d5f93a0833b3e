/** Which action events the executor sends at the end of an event. */
module Dispatching {
  import opened Scenario
  import opened PhaseSemantics
  import opened PhaseVisits
  import opened SuperStep
  import opened ActionRuns
  import opened Execution

  /** Something is left to do in phase `q`: not every action is a skipped final one. */
  ghost predicate Sendable(d: Diagram, m: Machine, q: nat)
    requires q < |d.phases| && |m.status| == |d.actions|
  {
    exists a :: a in d.phases[q].actions && ToSend(d, m, q, a)
  }

  ghost predicate ToSend(d: Diagram, m: Machine, q: nat, a: nat)
    requires q < |d.phases| && |m.status| == |d.actions|
  {
    a in Finals(d, q) ==> a < |m.status| && m.status[a] != Skipped
  }

  /** An action event of phase `q` with exactly the actions that are left to do. */
  ghost predicate IsEventOf(d: Diagram, m: Machine, q: nat, ev: Event)
    requires q < |d.phases| && |m.status| == |d.actions|
  {
    && ev.ActionEvent? && ev.phase == q && ev.actions != []
    && forall a :: a in ev.actions <==> a in d.phases[q].actions && ToSend(d, m, q, a)
  }

  /** The same actions are skipped. */
  ghost predicate SameSkips(m: Machine, m': Machine) {
    |m.status| == |m'.status| && forall a :: 0 <= a < |m.status| ==> (m.status[a] == Skipped <==> m'.status[a] == Skipped)
  }

  lemma DispatchPhaseSends(d: Diagram, m: Machine, q: nat)
    requires Fits(d, m) && q < |d.phases|
    ensures var m' := DispatchPhase(d, m, q);
            && SameSkips(m, m') && m'.toDispatch == m.toDispatch && m.trace <= m'.trace
            && (Sendable(d, m, q) ==> |m'.trace| == |m.trace| + 1 && IsEventOf(d, m, q, m'.trace[|m.trace|]) && m'.inProcess == m.inProcess + {q})
            && (!Sendable(d, m, q) ==> m' == m)
  {
    ActionsNamed(d, q);
    var acts := Unskipped(d, m, q, d.phases[q].actions);
    DispatchAllEffect(d, m.(trace := m.trace + [ActionEvent(q, acts)], inProcess := m.inProcess + {q}), Finals(d, q));
    forall a ensures a in acts <==> a in d.phases[q].actions && ToSend(d, m, q, a) {
      if a in Finals(d, q) {
        assert d.ActionOK(q, a);
      }
    }
    if acts != [] {
      assert acts[0] in acts;
    }
  }

  /** The event of a phase that is waiting for dispatch. */
  ghost predicate SentAt(d: Diagram, m: Machine, ids: seq<nat>, ev: Event)
    requires |m.status| == |d.actions|
  {
    ev.ActionEvent? && ev.phase in ids && ev.phase in m.toDispatch && ev.phase < |d.phases| && IsEventOf(d, m, ev.phase, ev)
  }

  /** Phase `q` waits for dispatch and has something left to do. */
  ghost predicate Due(d: Diagram, m: Machine, ids: seq<nat>, q: nat)
    requires |m.status| == |d.actions|
  {
    q in ids && q in m.toDispatch && q < |d.phases| && Sendable(d, m, q)
  }

  /** The events of the tracked phases that have something left to do were added, and nothing else. */
  ghost predicate Sends(d: Diagram, m: Machine, m': Machine, ids: seq<nat>)
    requires |m.status| == |d.actions|
  {
    && SameSkips(m, m') && m.trace <= m'.trace
    && (forall k :: |m.trace| <= k < |m'.trace| ==> SentAt(d, m, ids, m'.trace[k]))
    && (forall k, l :: |m.trace| <= k < l < |m'.trace| ==> Precedes(ids, m'.trace[k].phase, m'.trace[l].phase))
    && (forall q :: Due(d, m, ids, q) ==> exists k :: |m.trace| <= k < |m'.trace| && m'.trace[k].phase == q)
    && (forall q :: q in m'.inProcess <==> q in m.inProcess || Due(d, m, ids, q))
  }

  lemma {:induction false} PhasesAreSent(d: Diagram, m: Machine, ids: seq<nat>)
    requires Fits(d, m) && forall i :: 0 <= i < |ids| ==> ids[i] < |d.phases|
    ensures Sends(d, m, DispatchPhases(d, m, ids), ids)
    decreases |ids|
  {
    if ids != [] {
      var m1 := if ids[0] in m.toDispatch then DispatchPhase(d, m, ids[0]) else m;
      DispatchPhaseSends(d, m, ids[0]);
      PhasesAreSent(d, m1, ids[1..]);
      SendsOneMore(d, m, m1, DispatchPhases(d, m1, ids[1..]), ids);
    }
  }

  lemma SameToSend(d: Diagram, m: Machine, m1: Machine, ids: seq<nat>, q: nat)
    requires |m.status| == |d.actions| && SameSkips(m, m1) && m1.toDispatch == m.toDispatch && q < |d.phases|
    ensures Sendable(d, m, q) <==> Sendable(d, m1, q)
    ensures forall ev :: IsEventOf(d, m, q, ev) <==> IsEventOf(d, m1, q, ev)
  {
    assert forall a :: ToSend(d, m, q, a) <==> ToSend(d, m1, q, a);
  }

  lemma SendsOneMore(d: Diagram, m: Machine, m1: Machine, m2: Machine, ids: seq<nat>)
    requires |m.status| == |m1.status| == |d.actions| && ids != [] && ids[0] < |d.phases|
    requires SameSkips(m, m1) && m1.toDispatch == m.toDispatch && m.trace <= m1.trace
    requires Due(d, m, ids, ids[0]) ==>
               |m1.trace| == |m.trace| + 1 && IsEventOf(d, m, ids[0], m1.trace[|m.trace|]) && m1.inProcess == m.inProcess + {ids[0]}
    requires !Due(d, m, ids, ids[0]) ==> m1.trace == m.trace && m1.inProcess == m.inProcess
    requires Sends(d, m1, m2, ids[1..])
    ensures Sends(d, m, m2, ids)
  {
    var q, rest := ids[0], ids[1..];
    forall x: nat ensures Due(d, m, ids, x) <==> (x == q && Due(d, m, ids, q)) || Due(d, m1, rest, x) {
      if x < |d.phases| {
        SameToSend(d, m, m1, ids, x);
      }
      assert x in ids <==> x == q || x in rest;
    }
    forall k | |m.trace| <= k < |m2.trace| ensures SentAt(d, m, ids, m2.trace[k]) {
      if k < |m1.trace| {
        assert m2.trace[k] == m1.trace[k];
      } else {
        assert SentAt(d, m1, rest, m2.trace[k]);
        SameToSend(d, m, m1, ids, m2.trace[k].phase);
        assert m2.trace[k].phase in ids;
      }
    }
    SentInOrder(d, m, m1, m2, ids);
    forall x: nat | Due(d, m, ids, x) ensures exists k :: |m.trace| <= k < |m2.trace| && m2.trace[k].phase == x {
      if Due(d, m1, rest, x) {
        var k :| |m1.trace| <= k < |m2.trace| && m2.trace[k].phase == x;
      } else {
        assert m2.trace[|m.trace|] == m1.trace[|m.trace|];
      }
    }
  }

  lemma SentInOrder(d: Diagram, m: Machine, m1: Machine, m2: Machine, ids: seq<nat>)
    requires |m1.status| == |d.actions| && ids != [] && m.trace <= m1.trace && Sends(d, m1, m2, ids[1..])
    requires m1.trace == m.trace || (|m1.trace| == |m.trace| + 1 && m1.trace[|m.trace|].ActionEvent? && m1.trace[|m.trace|].phase == ids[0])
    ensures forall k, l :: |m.trace| <= k < l < |m2.trace| ==>
              m2.trace[k].ActionEvent? && m2.trace[l].ActionEvent? && Precedes(ids, m2.trace[k].phase, m2.trace[l].phase)
  {
    var rest := ids[1..];
    forall k, l | |m.trace| <= k < l < |m2.trace|
      ensures m2.trace[k].ActionEvent? && m2.trace[l].ActionEvent? && Precedes(ids, m2.trace[k].phase, m2.trace[l].phase)
    {
      assert SentAt(d, m1, rest, m2.trace[l]);
      if k < |m1.trace| {
        assert m2.trace[k] == m1.trace[k];
        var j :| 0 <= j < |rest| && rest[j] == m2.trace[l].phase;
        assert ids[0] == m2.trace[k].phase && ids[j + 1] == m2.trace[l].phase;
      } else {
        assert SentAt(d, m1, rest, m2.trace[k]) && Precedes(rest, m2.trace[k].phase, m2.trace[l].phase);
        var i, j :| 0 <= i < j < |rest| && rest[i] == m2.trace[k].phase && rest[j] == m2.trace[l].phase;
        assert ids[i + 1] == rest[i] && ids[j + 1] == rest[j];
      }
    }
  }

  /** Main result: after an event that returns, one action event was sent for each phase that started in it and has something
      left to do, with exactly that, in ascending order of the phase ids; only these phases are now in process as well, and no
      phase waits for dispatch. */
  lemma EventSendsExactly(d: Diagram, e: Env, m: Machine, ev: SimulationEvent)
    requires Fits(d, m) && d.phases != [] && ev != OtherEvent && ProcessEvent(d, e, m, ev).step.out.Returned?
    ensures Pre(d, m, 0)
    ensures var before, after := RunPasses(d, e, m, ev == ScenarioUpdate).step.m, ProcessEvent(d, e, m, ev).step.m;
            Sends(d, before, after, d.idOrder) && after.toDispatch == {}
  {
    SubtreeBounds(d, 0);
    PhasesAreSent(d, RunPasses(d, e, m, ev == ScenarioUpdate).step.m, d.idOrder);
  }
}
