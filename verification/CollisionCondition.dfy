/** The collision condition: every pair of actors from two groups is tested, each pair once. */
module CollisionConditions {
  import opened Wrappers
  import opened Scenario

  type Pair = (ActorId, ActorId)

  /** The actors that exist, the actor of the world itself, and which boxes overlap; an actor
      does not collide with its parts. */
  datatype World = World(actors: seq<ActorId>, world: ActorId, isAncestor: Pair -> bool, overlap: Pair -> bool) {
    predicate Exists(a: ActorId) {
      a == world || a in actors
    }

    predicate Collide(a: ActorId, b: ActorId) {
      !isAncestor((a, b)) && !isAncestor((b, a)) && overlap((a, b))
    }

    ghost predicate Valid() {
      Distinct(actors) && world !in actors && forall a, b :: overlap((a, b)) == overlap((b, a))
    }
  }

  ghost predicate Distinct(g: seq<ActorId>) {
    forall i, j :: 0 <= i < j < |g| ==> g[i] != g[j]
  }

  ghost predicate Earlier(g: seq<ActorId>, x: ActorId, y: ActorId) {
    exists i, j :: 0 <= i < j < |g| && g[i] == x && g[j] == y
  }

  predicate InBoth(g1: seq<ActorId>, g2: seq<ActorId>, x: ActorId) {
    x in g1 && x in g2
  }

  // ---------------------------------------------------------------- which pairs are tested

  /** Two actors of both groups are tested in the order of the first group only. */
  ghost predicate Chosen(g1: seq<ActorId>, g2: seq<ActorId>, x: ActorId, y: ActorId) {
    x in g1 && y in g2 && x != y && !(InBoth(g1, g2, x) && InBoth(g1, g2, y) && Earlier(g1, y, x))
  }

  function Times(tested: seq<Pair>, x: ActorId, y: ActorId): nat {
    multiset(tested)[(x, y)]
  }

  /** The chosen pairs are tested once, and no others. */
  ghost predicate TestsChosen(tested: seq<Pair>, g1: seq<ActorId>, g2: seq<ActorId>) {
    forall x, y :: Times(tested, x, y) == if Chosen(g1, g2, x, y) then 1 else 0
  }

  ghost predicate Crosses(g1: seq<ActorId>, g2: seq<ActorId>, x: ActorId, y: ActorId) {
    (x in g1 && y in g2) || (y in g1 && x in g2)
  }

  /** Main result: every two different actors, one from each group, are tested once in one order or
      the other, however the groups overlap; other pairs are not tested. */
  lemma EveryPairOnce(tested: seq<Pair>, g1: seq<ActorId>, g2: seq<ActorId>, x: ActorId, y: ActorId)
    requires Distinct(g1) && TestsChosen(tested, g1, g2) && x != y
    ensures Times(tested, x, y) + Times(tested, y, x) == if Crosses(g1, g2, x, y) then 1 else 0
  {
    if InBoth(g1, g2, x) && InBoth(g1, g2, y) {
      OneIsEarlier(g1, x, y);
    }
  }

  lemma OneIsEarlier(g: seq<ActorId>, x: ActorId, y: ActorId)
    requires Distinct(g) && x in g && y in g && x != y
    ensures Earlier(g, x, y) != Earlier(g, y, x)
  {
    var i :| 0 <= i < |g| && g[i] == x;
    var j :| 0 <= j < |g| && g[j] == y;
  }

  /** The naive check of all pairs. */
  ghost predicate SomeCollide(w: World, g1: seq<ActorId>, g2: seq<ActorId>) {
    exists a, b :: a in g1 && b in g2 && a != b && w.Collide(a, b)
  }

  function Colliding(w: World, tested: seq<Pair>): set<Pair> {
    set p | p in tested && w.Collide(p.0, p.1)
  }

  /** Main result: the tests find a collision exactly when the naive check does. */
  lemma TestsSuffice(w: World, tested: seq<Pair>, g1: seq<ActorId>, g2: seq<ActorId>)
    requires w.Valid() && Distinct(g1) && TestsChosen(tested, g1, g2)
    ensures Colliding(w, tested) != {} <==> SomeCollide(w, g1, g2)
  {
    if p :| p in Colliding(w, tested) {
      assert Times(tested, p.0, p.1) > 0;
    }
    if SomeCollide(w, g1, g2) {
      var a, b :| a in g1 && b in g2 && a != b && w.Collide(a, b);
      EveryPairOnce(tested, g1, g2, a, b);
      if Times(tested, a, b) > 0 {
        assert (a, b) in Colliding(w, tested);
      } else {
        assert (b, a) in multiset(tested);
        assert (b, a) in Colliding(w, tested);
      }
    }
  }

  /** Every collision between the groups is among these pairs, in one order or the other. */
  ghost predicate AllFound(w: World, found: set<Pair>, g1: seq<ActorId>, g2: seq<ActorId>) {
    forall a, b :: a in g1 && b in g2 && a != b && w.Collide(a, b) ==> (a, b) in found || (b, a) in found
  }

  lemma TestsFindAll(w: World, tested: seq<Pair>, g1: seq<ActorId>, g2: seq<ActorId>)
    requires w.Valid() && Distinct(g1) && TestsChosen(tested, g1, g2)
    ensures AllFound(w, Colliding(w, tested), g1, g2)
  {
    forall a, b | a in g1 && b in g2 && a != b && w.Collide(a, b) ensures (a, b) in Colliding(w, tested) || (b, a) in Colliding(w, tested) {
      EveryPairOnce(tested, g1, g2, a, b);
      if Times(tested, a, b) > 0 {
        assert (a, b) in multiset(tested);
      } else {
        assert (b, a) in multiset(tested);
      }
    }
  }

  // ---------------------------------------------------------------- the nested loops

  /** What was tested when the loops stand at `i` and `j`. */
  ghost predicate Visited(g1: seq<ActorId>, g2: seq<ActorId>, i: nat, j: nat, x: ActorId, y: ActorId)
    requires i <= |g1| && j <= |g2|
  {
    x in g1[..i] || (i < |g1| && x == g1[i] && y in g2[..j])
  }

  ghost predicate Tested(tested: seq<Pair>, skip: set<Pair>, g1: seq<ActorId>, g2: seq<ActorId>, i: nat, j: nat)
    requires i <= |g1| && j <= |g2|
  {
    && (forall x, y :: Times(tested, x, y) == if Chosen(g1, g2, x, y) && Visited(g1, g2, i, j, x, y) then 1 else 0)
    && (forall x, y :: (y, x) in skip <==>
          InBoth(g1, g2, x) && InBoth(g1, g2, y) && Chosen(g1, g2, x, y) && Visited(g1, g2, i, j, x, y))
  }

  /** The loops skip a pair exactly when it is not to be tested. */
  lemma SkipIsRight(tested: seq<Pair>, skip: set<Pair>, g1: seq<ActorId>, g2: seq<ActorId>, i: nat, j: nat)
    requires Distinct(g1) && Distinct(g2) && i < |g1| && j < |g2| && Tested(tested, skip, g1, g2, i, j)
    ensures g1[i] == g2[j] || (g1[i], g2[j]) in skip <==> !Chosen(g1, g2, g1[i], g2[j])
  {
    var x, y := g1[i], g2[j];
    if x != y && InBoth(g1, g2, x) && InBoth(g1, g2, y) {
      OneIsEarlier(g1, x, y);
      EarlierIsVisited(g1, i, y);
    }
  }

  lemma EarlierIsVisited(g: seq<ActorId>, i: nat, y: ActorId)
    requires Distinct(g) && i < |g|
    ensures Earlier(g, y, g[i]) <==> y in g[..i]
  {
    if y in g[..i] {
      var k :| 0 <= k < i && g[..i][k] == y;
      assert g[k] == y;
    }
    if Earlier(g, y, g[i]) {
      var k, n :| 0 <= k < n < |g| && g[k] == y && g[n] == g[i];
      assert n == i && g[..i][k] == y;
    }
  }

  lemma NextIsVisited(g1: seq<ActorId>, g2: seq<ActorId>, i: nat, j: nat)
    requires Distinct(g1) && Distinct(g2) && i < |g1| && j < |g2|
    ensures forall x, y :: Visited(g1, g2, i, j + 1, x, y) <==> Visited(g1, g2, i, j, x, y) || (x == g1[i] && y == g2[j])
    ensures !Visited(g1, g2, i, j, g1[i], g2[j])
  {
    assert g2[..j + 1] == g2[..j] + [g2[j]];
    forall x, y ensures Visited(g1, g2, i, j + 1, x, y) <==> Visited(g1, g2, i, j, x, y) || (x == g1[i] && y == g2[j]) {
    }
    NotBefore(g1, i);
    NotBefore(g2, j);
  }

  lemma NotBefore(g: seq<ActorId>, i: nat)
    requires Distinct(g) && i < |g|
    ensures g[i] !in g[..i]
  {
    forall k | 0 <= k < i ensures g[..i][k] != g[i] {
      assert g[..i][k] == g[k];
    }
  }

  lemma NextRow(tested: seq<Pair>, skip: set<Pair>, g1: seq<ActorId>, g2: seq<ActorId>, i: nat)
    requires i < |g1| && Tested(tested, skip, g1, g2, i, |g2|)
    ensures Tested(tested, skip, g1, g2, i + 1, 0)
  {
    assert g1[..i + 1] == g1[..i] + [g1[i]] && g2[..|g2|] == g2 && g2[..0] == [];
  }

  /** The actors of the second group that are also in the first. */
  method Repeats(g1: seq<ActorId>, g2: seq<ActorId>) returns (repeats: set<ActorId>)
    requires Distinct(g2)
    ensures forall x :: x in repeats <==> InBoth(g1, g2, x)
  {
    var uniques := set x | x in g1;
    repeats := {};
    for j := 0 to |g2|
      invariant forall x :: x in uniques <==> x in g1 || x in g2[..j]
      invariant forall x :: x in repeats <==> x in g1 && x in g2[..j]
    {
      assert g2[..j + 1] == g2[..j] + [g2[j]];
      if g2[j] in uniques {
        repeats := repeats + {g2[j]};
      } else {
        uniques := uniques + {g2[j]};
      }
    }
    assert g2[..|g2|] == g2;
  }

  /** The pairs tested for two groups, in order. */
  method TestGroups(g1: seq<ActorId>, g2: seq<ActorId>) returns (tested: seq<Pair>)
    requires Distinct(g1) && Distinct(g2)
    ensures TestsChosen(tested, g1, g2)
  {
    var repeats := Repeats(g1, g2);
    var skip: set<Pair> := {};
    tested := [];
    for i := 0 to |g1|
      invariant Tested(tested, skip, g1, g2, i, 0)
    {
      tested, skip := TestRow(g1, g2, repeats, tested, skip, i);
    }
    assert g1[..|g1|] == g1;
  }

  method TestRow(g1: seq<ActorId>, g2: seq<ActorId>, repeats: set<ActorId>, before: seq<Pair>, skipped: set<Pair>, i: nat)
    returns (tested: seq<Pair>, skip: set<Pair>)
    requires Distinct(g1) && Distinct(g2) && i < |g1| && Tested(before, skipped, g1, g2, i, 0)
    requires forall x :: x in repeats <==> InBoth(g1, g2, x)
    ensures Tested(tested, skip, g1, g2, i + 1, 0)
  {
    tested, skip := before, skipped;
    for j := 0 to |g2|
      invariant Tested(tested, skip, g1, g2, i, j)
    {
      SkipIsRight(tested, skip, g1, g2, i, j);
      NextIsVisited(g1, g2, i, j);
      if g1[i] == g2[j] || (g1[i], g2[j]) in skip {
        continue;
      }
      if g1[i] in repeats && g2[j] in repeats {
        skip := skip + {(g2[j], g1[i])};
      }
      tested := tested + [(g1[i], g2[j])];
    }
    NextRow(tested, skip, g1, g2, i);
  }

  /** The pairs tested when all actors are to be tested with each other. */
  method TestAll(g: seq<ActorId>) returns (tested: seq<Pair>)
    requires Distinct(g)
    ensures TestsChosen(tested, g, g)
  {
    tested := [];
    for i := 0 to |g|
      invariant TestedBelow(tested, g, i, i + 1)
    {
      for j := i + 1 to |g|
        invariant TestedBelow(tested, g, i, j)
      {
        PairIsNext(tested, g, i, j);
        tested := tested + [(g[i], g[j])];
      }
      RowIsDone(tested, g, i);
    }
    AllIsChosen(tested, g);
  }

  /** The pairs of the rows before `i`, and those of row `i` before `j`. */
  ghost predicate Below(g: seq<ActorId>, i: nat, j: nat, x: ActorId, y: ActorId) {
    exists k, n :: 0 <= k < n < |g| && g[k] == x && g[n] == y && (k < i || (k == i && n < j))
  }

  ghost predicate TestedBelow(tested: seq<Pair>, g: seq<ActorId>, i: nat, j: nat) {
    forall x, y :: Times(tested, x, y) == if Below(g, i, j, x, y) then 1 else 0
  }

  lemma PairIsNext(tested: seq<Pair>, g: seq<ActorId>, i: nat, j: nat)
    requires Distinct(g) && i < j < |g| && TestedBelow(tested, g, i, j)
    ensures TestedBelow(tested + [(g[i], g[j])], g, i, j + 1)
  {
    forall x, y ensures Below(g, i, j + 1, x, y) <==> Below(g, i, j, x, y) || (x == g[i] && y == g[j]) {
      if Below(g, i, j + 1, x, y) {
        var k, n :| 0 <= k < n < |g| && g[k] == x && g[n] == y && (k < i || (k == i && n < j + 1));
        assert (k == i && n == j) || Below(g, i, j, x, y);
      }
    }
    assert !Below(g, i, j, g[i], g[j]);
    forall x, y ensures Times(tested + [(g[i], g[j])], x, y) == Times(tested, x, y) + if x == g[i] && y == g[j] then 1 else 0 {
    }
  }

  lemma RowIsDone(tested: seq<Pair>, g: seq<ActorId>, i: nat)
    requires i < |g| && TestedBelow(tested, g, i, |g|)
    ensures TestedBelow(tested, g, i + 1, i + 2)
  {
    forall x, y ensures Below(g, i + 1, i + 2, x, y) <==> Below(g, i, |g|, x, y) {
    }
  }

  lemma AllIsChosen(tested: seq<Pair>, g: seq<ActorId>)
    requires Distinct(g) && TestedBelow(tested, g, |g|, |g| + 1)
    ensures TestsChosen(tested, g, g)
  {
    forall x, y ensures Chosen(g, g, x, y) <==> Below(g, |g|, |g| + 1, x, y) {
      if x in g && y in g && x != y {
        OneIsEarlier(g, x, y);
      }
    }
  }

  // ---------------------------------------------------------------- the condition

  datatype Outcome = Raised | Value(met: bool)

  class CollisionCondition {
    // The ids given for each group; a group without ids holds all actors
    const actorIds: seq<ActorId>
    const refActorIds: seq<ActorId>
    var state: Option<bool>
    var collisions: set<Pair>

    constructor (actorIds: seq<ActorId>, refActorIds: seq<ActorId>)
      ensures this.actorIds == actorIds && this.refActorIds == refActorIds && state == None && collisions == {}
    {
      this.actorIds, this.refActorIds, state, collisions := actorIds, refActorIds, None, {};
    }

    function Group(ids: seq<ActorId>, w: World): (g: seq<ActorId>)
      ensures forall a :: a in g <==> if |ids| == 0 then a in w.actors else a in ids
    {
      if ids == [] then w.actors else ids
    }

    /** Looks up actors; fails at the first that does not exist. */
    method FindActors(ids: seq<ActorId>, w: World) returns (found: bool)
      ensures found <==> forall a :: a in ids ==> w.Exists(a)
    {
      for i := 0 to |ids|
        invariant forall j :: 0 <= j < i ==> w.Exists(ids[j])
      {
        if !w.Exists(ids[i]) {
          return false;
        }
      }
      found := true;
    }

    /** Finds all collisions between the groups; fails if a given actor does not exist. */
    method Check(w: World) returns (r: Outcome)
      requires w.Valid() && Distinct(actorIds) && Distinct(refActorIds)
      modifies this
      ensures r.Raised? <==> exists a :: (a in actorIds || a in refActorIds) && !w.Exists(a)
      ensures r.Value? ==>
                && r.met == SomeCollide(w, Group(actorIds, w), Group(refActorIds, w)) && state == Some(r.met)
                && (forall p :: p in collisions ==> p.0 in Group(actorIds, w) && p.1 in Group(refActorIds, w) && p.0 != p.1 && w.Collide(p.0, p.1))
                && AllFound(w, collisions, Group(actorIds, w), Group(refActorIds, w))
      ensures r.Raised? ==> state == old(state) && collisions == {}
    {
      collisions := {};
      var found := FindActors(actorIds, w);
      if found {
        found := FindActors(refActorIds, w);
      }
      if !found {
        return Raised;
      }
      var tested;
      if actorIds == [] && refActorIds == [] {
        tested := TestAll(w.actors);
      } else {
        tested := TestGroups(Group(actorIds, w), Group(refActorIds, w));
      }
      collisions := Colliding(w, tested);
      TestsSuffice(w, tested, Group(actorIds, w), Group(refActorIds, w));
      TestsFindAll(w, tested, Group(actorIds, w), Group(refActorIds, w));
      forall p | p in collisions
        ensures p.0 in Group(actorIds, w) && p.1 in Group(refActorIds, w) && p.0 != p.1 && w.Collide(p.0, p.1)
      {
        assert Times(tested, p.0, p.1) > 0;
      }
      state := Some(collisions != {});
      r := Value(collisions != {});
    }
  }
}
