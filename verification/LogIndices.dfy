/** Indices into a log whose front may have been popped: positions count from the first message
    ever pushed, so a log after `popped` pops holds the positions from `popped` on. */
module LogIndices {

  // ---------------------------------------------------------------- positions of the matching messages

  ghost predicate Ascending(q: seq<nat>) {
    forall i, j :: 0 <= i < j < |q| ==> q[i] < q[j]
  }

  ghost predicate Retained<M>(log: seq<M>, popped: nat, matches: M -> bool, i: nat) {
    popped <= i < popped + |log| && matches(log[i - popped])
  }

  /** In ascending order, exactly the positions of the retained messages that match. */
  ghost predicate Lists<M(!new)>(q: seq<nat>, log: seq<M>, popped: nat, matches: M -> bool) {
    Ascending(q) && forall i: nat :: i in q <==> Retained(log, popped, matches, i)
  }

  /** Without the positions at the front that were popped. */
  function WithoutStale(q: seq<nat>, popped: nat): seq<nat> {
    if q != [] && q[0] < popped then WithoutStale(q[1..], popped) else q
  }

  lemma {:induction false} WithoutStaleExact(q: seq<nat>, popped: nat)
    requires Ascending(q)
    ensures Ascending(WithoutStale(q, popped))
    ensures forall i :: i in WithoutStale(q, popped) <==> i in q && i >= popped
    decreases |q|
  {
    if q != [] && q[0] < popped {
      WithoutStaleExact(q[1..], popped);
      assert q == [q[0]] + q[1..];
    } else if q != [] {
      assert forall i :: 0 <= i < |q| ==> q[i] >= q[0];
    }
  }

  /** Main result: dropping the stale front of an index leaves the index of the log without its front. */
  lemma PoppedLists<M(!new)>(q: seq<nat>, log: seq<M>, popped: nat, matches: M -> bool)
    requires log != [] && Lists(q, log, popped, matches)
    ensures Lists(WithoutStale(q, popped + 1), log[1..], popped + 1, matches)
  {
    var after := WithoutStale(q, popped + 1);
    WithoutStaleExact(q, popped + 1);
    forall i: nat ensures i in after <==> Retained(log[1..], popped + 1, matches, i) {
      assert i in q <==> Retained(log, popped, matches, i);
      assert popped < i < popped + |log| ==> log[1..][i - popped - 1] == log[i - popped];
    }
  }

  /** Main result: the position of a pushed message goes into the indices it matches. */
  lemma PushedLists<M(!new)>(q: seq<nat>, log: seq<M>, message: M, popped: nat, matches: M -> bool)
    requires Lists(q, log, popped, matches)
    ensures Lists(if matches(message) then q + [popped + |log|] else q, log + [message], popped, matches)
  {
    var after := if matches(message) then q + [popped + |log|] else q;
    assert forall i :: 0 <= i < |q| ==> q[i] in q;
    forall i: nat ensures i in after <==> Retained(log + [message], popped, matches, i) {
      assert i in q <==> Retained(log, popped, matches, i);
    }
  }

  // ---------------------------------------------------------------- times

  /** A simulation time, and the position of the message stamped with it. */
  type TimeIndex = seq<(real, nat)>

  ghost predicate Nondecreasing(index: TimeIndex) {
    forall i, j :: 0 <= i <= j < |index| ==> index[i].0 <= index[j].0
  }

  ghost predicate Contiguous(index: TimeIndex, popped: nat) {
    forall i :: 0 <= i < |index| ==> index[i].1 == popped + i
  }

  /** The first entry at or after a time. */
  function LowerBound(index: TimeIndex, t: real): (r: nat)
    ensures r <= |index| && (forall i :: 0 <= i < r ==> index[i].0 < t) && (r < |index| ==> index[r].0 >= t)
  {
    if index != [] && index[0].0 < t then 1 + LowerBound(index[1..], t) else 0
  }

  /** The first entry after a time. */
  function UpperBound(index: TimeIndex, t: real): (r: nat)
    ensures r <= |index| && (forall i :: 0 <= i < r ==> index[i].0 <= t) && (r < |index| ==> index[r].0 > t)
  {
    if index != [] && index[0].0 <= t then 1 + UpperBound(index[1..], t) else 0
  }

  /** The range of the retained log, from the first index up to but not including the second, with the
      time stamps in an interval; (-1, -1) is the empty range. */
  method GetIndicesForTime(start: real, end: real, index: TimeIndex, popped: nat) returns (first: int, last: int)
    requires Nondecreasing(index) && Contiguous(index, popped)
    ensures start < 0.0 || end < 0.0 ==> first == -1 == last
    ensures start >= 0.0 && end >= 0.0 ==>
              forall i :: 0 <= i < |index| ==> (first <= i < last <==> start <= index[i].0 <= end)
    ensures first == -1 == last || 0 <= first <= last <= |index|
  {
    if |index| == 0 || start < 0.0 || end < 0.0 || end < start {
      return -1, -1;
    }
    var front, back := index[0], index[|index| - 1];
    first, last := front.1 - popped, back.1 - popped + 1;
    if front.0 <= start <= back.0 {
      var it := LowerBound(index, start);
      if it != |index| {
        first := index[it].1 - popped;
      }
    }
    if front.0 <= end <= back.0 {
      var it := UpperBound(index, end);
      if it != |index| {
        last := index[it].1 - popped;
      }
    }
    if end < front.0 || start > back.0 {
      return -1, -1;
    }
  }
}
