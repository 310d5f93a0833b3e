/** The race track: execution orders under which every actor is created before it is needed. */
module RaceTracks {
  import opened Wrappers
  import opened Scenario
  import opened PhaseSemantics
  import opened PhaseVisits
  import opened SortingGroups
  import G = DependencyGraph

  // ---------------------------------------------------------------- members, racers, dependencies

  /** The actor a phase would create when run now. */
  function HasActorCreation(d: Diagram, existing: set<ActorId>, p: nat): Option<ActorId>
    requires p < |d.phases|
  {
    if d.phases[p].kind.ActorAction? && d.phases[p].kind.actor !in existing then Some(d.phases[p].kind.actor) else None
  }

  /** The actors a phase needs in order to start and run; while initial actions are pending
      its end condition is applied but not yet checked. */
  function DependencyToRun(d: Diagram, pending: set<nat>, p: nat): seq<ActorId>
    requires p < |d.phases|
  {
    var ph := d.phases[p];
    (if ph.startCondition.Some? then ph.startDeps else [])
    + (if ph.endCondition.None? then [] else if p in pending then ph.endApplyDeps else ph.endDeps)
    + (if ph.kind.ActorAction? || ph.kind.SystemAction? then ph.actionDeps else [])
  }

  ghost predicate Member(d: Diagram, s: nat, q: nat)
    requires s < |d.phases|
  {
    q < |d.phases| && q != s && Active(d, s, q)
  }

  /** Each racer creates its actor, and each created actor has a racer. */
  ghost predicate RacersOK(d: Diagram, s: nat, existing: set<ActorId>, racers: map<ActorId, nat>, members: set<nat>)
    requires s < |d.phases|
  {
    && (forall a :: a in racers ==>
          racers[a] in members && racers[a] < |d.phases| && HasActorCreation(d, existing, racers[a]) == Some(a))
    && (forall q :: q in members && q < |d.phases| && HasActorCreation(d, existing, q).Some? ==>
          HasActorCreation(d, existing, q).value in racers)
  }

  /** Phase `m` needs the actor that racer `r` creates. */
  ghost predicate Needs(d: Diagram, pending: set<nat>, racers: map<ActorId, nat>, m: nat, r: nat)
    requires m < |d.phases|
  {
    r != m && exists i :: 0 <= i < |DependencyToRun(d, pending, m)| &&
                var id := DependencyToRun(d, pending, m)[i]; id in racers && racers[id] == r
  }

  /** What a race track collects below `s`: the members, a racer for every actor to create, and for
      each member the racers it needs. */
  ghost predicate Dependencies(d: Diagram, s: nat, existing: set<ActorId>, pending: set<nat>,
                               racers: map<ActorId, nat>, deps: map<nat, seq<nat>>)
    requires s < |d.phases|
  {
    && (forall q: nat :: q in deps <==> Member(d, s, q))
    && RacersOK(d, s, existing, racers, deps.Keys)
    && (forall m, x :: m in deps && m < |d.phases| ==> (x in deps[m] <==> Needs(d, pending, racers, m, x)))
  }

  /** Every dependency is met by these orders: the racer is reached before its dependent. */
  ghost predicate AllMet(d: Diagram, s: nat, orders: Orders, deps: map<nat, seq<nat>>)
    requires s < |d.phases|
  {
    forall m, r :: m in deps && r in deps[m] ==> Before(Visit(d, orders, s), r, m)
  }

  // ---------------------------------------------------------------- diverging siblings

  /** `c1` and `c2` are distinct children of the mix phase `g` under which `o1` and `o2` lie. */
  ghost predicate Siblings(d: Diagram, s: nat, o1: nat, o2: nat, g: nat, c1: nat, c2: nat)
    requires s < |d.phases|
  {
    && o1 < |d.phases| && o2 < |d.phases| && g < |d.phases| && c1 < |d.phases| && c2 < |d.phases|
    && Active(d, s, g) && d.phases[g].kind.Mix? && c1 != c2
    && c1 in d.phases[g].children && c2 in d.phases[g].children
    && Active(d, c1, o1) && Active(d, c2, o2)
  }

  /** A phase, its parent and so on up to `s`. */
  function Ancestors(d: Diagram, s: nat, q: nat): (r: seq<nat>)
    requires s < |d.phases| && q < |d.phases| && Active(d, s, q)
    ensures r != [] && r[0] == q && r[|r| - 1] == s
    decreases q
  {
    if q == s then [q] else [q] + Ancestors(d, s, d.phases[q].parent.value)
  }

  lemma {:induction false} AncestorsAreAbove(d: Diagram, s: nat, q: nat, i: nat)
    requires s < |d.phases| && q < |d.phases| && Active(d, s, q) && i < |Ancestors(d, s, q)|
    ensures var x := Ancestors(d, s, q)[i];
            x < |d.phases| && Active(d, s, x) && Active(d, x, q)
    ensures i + 1 < |Ancestors(d, s, q)| ==>
              Ancestors(d, s, q)[i + 1] < |d.phases| && Ancestors(d, s, q)[i] in ActiveChildren(d, Ancestors(d, s, q)[i + 1])
    decreases q
  {
    if q != s {
      var p := d.phases[q].parent.value;
      if i > 0 {
        AncestorsAreAbove(d, s, p, i - 1);
        ActiveIsBelow(d, Ancestors(d, s, q)[i], p);
      }
    }
  }

  /** Two ancestors of one phase are ancestors of each other, one way or the other. */
  lemma {:induction false} AncestorsAreChained(d: Diagram, x: nat, y: nat, q: nat)
    requires x < |d.phases| && y < |d.phases| && q < |d.phases| && Active(d, x, q) && Active(d, y, q)
    ensures Active(d, x, y) || Active(d, y, x)
    decreases q
  {
    if x != q && y != q {
      AncestorsAreChained(d, x, y, d.phases[q].parent.value);
    }
  }

  lemma SiblingsAreUnrelated(d: Diagram, s: nat, o1: nat, o2: nat, g: nat, c1: nat, c2: nat)
    requires s < |d.phases| && Siblings(d, s, o1, o2, g, c1, c2)
    ensures !Active(d, o1, o2) && !Active(d, o2, o1)
  {
    ActiveIsBelow(d, c1, o1);
    ActiveIsBelow(d, c2, o2);
    ChildIntervals(d, g, c1, c2);
    if Active(d, o1, o2) {
      ActiveIsBelow(d, o1, o2);
    }
    if Active(d, o2, o1) {
      ActiveIsBelow(d, o2, o1);
    }
  }

  lemma ChildIntervals(d: Diagram, g: nat, c1: nat, c2: nat)
    requires g < |d.phases| && c1 in d.phases[g].children && c2 in d.phases[g].children && c1 != c2
    ensures c1 < |d.phases| && c2 < |d.phases| && d.KidOK(g, c1) && d.KidOK(g, c2)
    ensures d.phases[c1].last <= c2 || d.phases[c2].last <= c1
  {
    var i :| 0 <= i < |d.phases[g].children| && d.phases[g].children[i] == c1;
    var j :| 0 <= j < |d.phases[g].children| && d.phases[g].children[j] == c2;
    ChildrenApart(d, g, i, j);
  }

  /** The parent of the diverging siblings is the lowest common ancestor. */
  lemma LowestCommonAncestor(d: Diagram, s: nat, o1: nat, o2: nat, g: nat, c1: nat, c2: nat, x: nat)
    requires s < |d.phases| && Siblings(d, s, o1, o2, g, c1, c2)
    requires x < |d.phases| && Active(d, x, o1) && Active(d, x, o2)
    ensures Active(d, x, g)
  {
    ChildIntervals(d, g, c1, c2);
    AncestorsAreChained(d, x, c1, o1);
    ActiveIsBelow(d, c2, o2);
    ActiveIsBelow(d, x, o2);
    if Active(d, c1, x) {
      ActiveIsBelow(d, c1, x);
    }
    assert d.phases[c1].parent == Some(g);
  }

  /** Two phases neither of which lies below the other diverge under a mix phase. */
  lemma {:induction false} Diverge(d: Diagram, s: nat, o1: nat, o2: nat) returns (g: nat, c1: nat, c2: nat)
    requires s < |d.phases| && o1 < |d.phases| && o2 < |d.phases| && Active(d, s, o1) && Active(d, s, o2)
    requires !Active(d, o1, o2) && !Active(d, o2, o1)
    ensures Siblings(d, s, o1, o2, g, c1, c2)
    decreases o1
  {
    var q := d.phases[o1].parent.value;
    if Active(d, q, o2) {
      g, c1 := q, o1;
      c2 := ChildTowards(d, q, o2);
    } else {
      g, c1, c2 := Diverge(d, s, q, o2);
    }
  }

  lemma {:induction false} ChildTowards(d: Diagram, q: nat, o: nat) returns (c: nat)
    requires q < |d.phases| && o < |d.phases| && Active(d, q, o) && o != q
    ensures c < |d.phases| && c in ActiveChildren(d, q) && Active(d, c, o)
    decreases o
  {
    if d.phases[o].parent.value == q {
      c := o;
    } else {
      c := ChildTowards(d, q, d.phases[o].parent.value);
    }
  }

  // ---------------------------------------------------------------- one dependency

  /** A dependency between diverging siblings is met exactly when their parent orders them so. */
  lemma DependencyIsLocal(d: Diagram, s: nat, orders: Orders, m: nat, r: nat, g: nat, c1: nat, c2: nat)
    requires s < |d.phases| && OrdersEverything(d, s, orders) && Siblings(d, s, m, r, g, c1, c2)
    requires G.Distinct(d.phases[g].children) && Active(d, s, m) && Active(d, s, r)
    ensures var kids := d.phases[g].children;
            Precedes(orders[g], IndexOf(kids, c2), IndexOf(kids, c1)) <==> Before(Visit(d, orders, s), r, m)
  {
    var kids := d.phases[g].children;
    LocalOrderIsGlobal(d, orders, s, g, IndexOf(kids, c2), IndexOf(kids, c1), r, m);
  }

  lemma ChildrenDistinct(d: Diagram, g: nat)
    requires g < |d.phases|
    ensures G.Distinct(d.phases[g].children)
  {
    forall i, j | 0 <= i < j < |d.phases[g].children| ensures d.phases[g].children[i] != d.phases[g].children[j] {
      ChildrenApart(d, g, i, j);
    }
  }

  /** A phase is reached before everything active below it, so it cannot wait for that. */
  lemma NeverBelow(d: Diagram, s: nat, orders: Orders, m: nat, r: nat)
    requires s < |d.phases| && OrdersEverything(d, s, orders)
    requires m < |d.phases| && r < |d.phases| && Active(d, s, m) && Active(d, m, r) && m != r
    ensures !Before(Visit(d, orders, s), r, m)
  {
    var a, b := VisitSplits(d, orders, s, s, m);
    ActiveIsBelow(d, s, m);
    var a2, b2 := VisitSplits(d, orders, s, m, r);
    VisitStaysBelow(d, orders, r);
    VisitHead(d, orders, m);
    var all := Visit(d, orders, s);
    assert all[|a|] == m;
    assert r in Visit(d, orders, m);
    var i :| 0 <= i < |Visit(d, orders, m)| && Visit(d, orders, m)[i] == r;
    assert all[|a| + i] == r;
  }

  /** A dependency that is met leads to a phase that lies on another branch. */
  lemma UnrelatedIfMet(d: Diagram, s: nat, orders: Orders, m: nat, r: nat)
    requires s < |d.phases| && OrdersEverything(d, s, orders) && Before(Visit(d, orders, s), r, m)
    requires m < |d.phases| && r < |d.phases| && m != r && Active(d, s, m) && d.phases[r].kind.ActorAction?
    ensures !Active(d, m, r) && !Active(d, r, m)
  {
    NothingBelowLeaf(d, r, m);
    if Active(d, m, r) {
      NeverBelow(d, s, orders, m, r);
    }
  }

  lemma DependenciesLead(d: Diagram, s: nat, existing: set<ActorId>, pending: set<nat>,
                         racers: map<ActorId, nat>, deps: map<nat, seq<nat>>, m: nat, r: nat)
    requires s < |d.phases| && Dependencies(d, s, existing, pending, racers, deps) && m in deps && r in deps[m]
    ensures Member(d, s, m) && Member(d, s, r) && r != m && d.phases[r].kind.ActorAction?
  {
    assert Needs(d, pending, racers, m, r);
  }

  lemma VisitHead(d: Diagram, orders: Orders, p: nat)
    requires p < |d.phases|
    ensures Visit(d, orders, p) != [] && Visit(d, orders, p)[0] == p
  {
  }

  /** An action phase has nothing active below it. */
  lemma NothingBelowLeaf(d: Diagram, r: nat, m: nat)
    requires r < |d.phases| && m < |d.phases| && d.phases[r].kind.ActorAction? && m != r
    ensures !Active(d, r, m)
    decreases m
  {
    if Active(d, r, m) {
      var p := d.phases[m].parent.value;
      if p != r {
        NothingBelowLeaf(d, r, p);
      }
    }
  }

  // ---------------------------------------------------------------- the worklist

  /** Subtrees of the phases of `xs` are disjoint. */
  ghost predicate Apart(d: Diagram, xs: seq<nat>) {
    && (forall i :: 0 <= i < |xs| ==> xs[i] < |d.phases|)
    && forall i, j :: 0 <= i < j < |xs| ==> d.phases[xs[i]].last <= xs[j] || d.phases[xs[j]].last <= xs[i]
  }

  /** What is left to visit: `todo` holds the roots of the unvisited active subtrees. */
  ghost predicate Frontier(d: Diagram, s: nat, visited: set<nat>, todo: seq<nat>)
    requires s < |d.phases|
  {
    && Apart(d, todo)
    && (forall c :: c in todo ==> c < |d.phases| && Active(d, s, c))
    && (forall v :: v in visited ==> v < |d.phases| && Active(d, s, v))
    && (forall v, c :: v in visited && c in todo ==> !InSubtree(d, c, v))
    && (s in visited || s in todo)
    && (forall v, c :: v in visited && v < |d.phases| && c in ActiveChildren(d, v) ==> c in visited || c in todo)
  }

  lemma ActiveChildrenApart(d: Diagram, p: nat)
    requires p < |d.phases|
    ensures Apart(d, ActiveChildren(d, p))
    ensures forall c :: c in ActiveChildren(d, p) ==> c < |d.phases| && d.KidOK(p, c)
  {
    forall i, j | 0 <= i < j < |ActiveChildren(d, p)|
      ensures d.phases[ActiveChildren(d, p)[i]].last <= ActiveChildren(d, p)[j]
           || d.phases[ActiveChildren(d, p)[j]].last <= ActiveChildren(d, p)[i]
    {
      ChildrenApart(d, p, i, j);
    }
  }

  /** Visiting the last phase of the worklist and pushing its active children moves the frontier. */
  lemma FrontierMoves(d: Diagram, s: nat, visited: set<nat>, rest: seq<nat>, curr: nat)
    requires s < |d.phases| && Frontier(d, s, visited, rest + [curr])
    ensures curr < |d.phases| && curr !in visited && Frontier(d, s, visited + {curr}, rest + ActiveChildren(d, curr))
  {
    var todo := rest + [curr];
    assert todo[|rest|] == curr && curr in todo;
    assert forall c :: c in todo <==> c in rest || c == curr;
    ActiveIsBelow(d, s, curr);
    SubtreeBounds(d, curr);
    ActiveChildrenApart(d, curr);
    PushApart(d, curr, rest, ActiveChildren(d, curr));
    ChildrenActive(d, s, curr);
    NewRootsAreFresh(d, visited, rest, curr);
    assert InSubtree(d, curr, curr);
  }

  lemma LastFrontierMoves(d: Diagram, s: nat, visited: set<nat>, todo: seq<nat>)
    requires s < |d.phases| && todo != [] && Frontier(d, s, visited, todo)
    ensures var rest, curr := todo[..|todo| - 1], todo[|todo| - 1];
            curr < |d.phases| && curr !in visited && Frontier(d, s, visited + {curr}, rest + ActiveChildren(d, curr))
  {
    var rest, curr := todo[..|todo| - 1], todo[|todo| - 1];
    assert todo == rest + [curr];
    FrontierMoves(d, s, visited, rest, curr);
  }

  lemma ChildrenActive(d: Diagram, s: nat, p: nat)
    requires s < |d.phases| && p < |d.phases| && Active(d, s, p)
    ensures forall c :: c in ActiveChildren(d, p) ==> c < |d.phases| && Active(d, s, c)
  {
    ActiveIsBelow(d, s, p);
    forall c | c in ActiveChildren(d, p) ensures c < |d.phases| && Active(d, s, c) {
      var i :| 0 <= i < |ActiveChildren(d, p)| && ActiveChildren(d, p)[i] == c;
    }
  }

  lemma NewRootsAreFresh(d: Diagram, visited: set<nat>, rest: seq<nat>, curr: nat)
    requires Apart(d, rest + [curr]) && curr < |d.phases|
    requires forall c :: c in rest + [curr] ==> c < |d.phases|
    requires forall v, c :: v in visited && c in rest + [curr] ==> !InSubtree(d, c, v)
    ensures forall v, c :: v in visited + {curr} && c in rest + ActiveChildren(d, curr) ==>
              c < |d.phases| && !InSubtree(d, c, v)
  {
    var before := rest + [curr];
    ActiveChildrenApart(d, curr);
    SubtreeBounds(d, curr);
    forall v, c | v in visited + {curr} && c in rest + ActiveChildren(d, curr)
      ensures c < |d.phases| && !InSubtree(d, c, v)
    {
      assert curr in before;
      if c in rest {
        var i :| 0 <= i < |rest| && rest[i] == c;
        assert before[i] == c && before[|rest|] == curr && c in before;
      }
    }
  }

  lemma PushApart(d: Diagram, curr: nat, rest: seq<nat>, kids: seq<nat>)
    requires Apart(d, rest + [curr]) && Apart(d, kids)
    requires forall c :: c in kids ==> curr < |d.phases| && c < |d.phases| && d.KidOK(curr, c)
    ensures Apart(d, rest + kids)
  {
    var all, before := rest + kids, rest + [curr];
    forall i | 0 <= i < |all| ensures all[i] < |d.phases| {
      if i < |rest| {
        assert before[i] == all[i];
      } else {
        assert kids[i - |rest|] == all[i];
      }
    }
    forall i, j | 0 <= i < j < |all| ensures d.phases[all[i]].last <= all[j] || d.phases[all[j]].last <= all[i] {
      if i < |rest| {
        assert before[i] == all[i] && before[|rest|] == curr;
        if j < |rest| {
          assert before[j] == all[j];
        } else {
          assert all[j] in kids;
        }
      } else {
        assert all[i] == kids[i - |rest|] && all[j] == kids[j - |rest|];
      }
    }
  }

  /** When nothing is left, exactly the active phases were visited. */
  lemma {:induction false} FrontierDone(d: Diagram, s: nat, visited: set<nat>, q: nat)
    requires s < |d.phases| && Frontier(d, s, visited, []) && q < |d.phases| && Active(d, s, q)
    ensures q in visited
    decreases q
  {
    if q != s {
      var p := d.phases[q].parent.value;
      FrontierDone(d, s, visited, p);
      assert q in ActiveChildren(d, p);
    }
  }

  lemma AllCollected(d: Diagram, s: nat, visited: set<nat>, members: set<nat>)
    requires s < |d.phases| && Frontier(d, s, visited, []) && members == visited - {s}
    ensures visited == members + {s} && forall q: nat :: q in members <==> Member(d, s, q)
  {
    forall q: nat | Member(d, s, q) ensures q in visited {
      FrontierDone(d, s, visited, q);
    }
  }

  // ---------------------------------------------------------------- the race track

  ghost predicate GroupOK(d: Diagram, s: nat, g: nat, group: SortingGroup)
    requires s < |d.phases|
  {
    && g < |d.phases| && Active(d, s, g) && d.phases[g].kind.Mix?
    && group.Valid() && group.children == d.phases[g].children
  }

  /** The groups belong to the active mix phases and know their children. */
  ghost predicate GroupsOK(d: Diagram, s: nat, groups: map<nat, SortingGroup>)
    requires s < |d.phases|
  {
    && (forall g :: g in groups ==> GroupOK(d, s, g, groups[g]))
    && (forall g: nat :: g < |d.phases| && Active(d, s, g) && d.phases[g].kind.Mix? ==> g in groups)
  }

  /** Execution dependency number `i` of a group comes from a dependency between diverging siblings. */
  ghost predicate DepSound(d: Diagram, s: nat, deps: map<nat, seq<nat>>, g: nat, group: SortingGroup, i: nat)
    requires s < |d.phases|
  {
    && i < |group.actualDeps| && i < |group.execDeps|
    && group.actualDeps[i].0 in deps && group.actualDeps[i].1 in deps[group.actualDeps[i].0]
    && Siblings(d, s, group.actualDeps[i].0, group.actualDeps[i].1, g, group.execDeps[i].0, group.execDeps[i].1)
  }

  ghost predicate DepsSound(d: Diagram, s: nat, deps: map<nat, seq<nat>>, groups: map<nat, SortingGroup>)
    requires s < |d.phases|
  {
    forall g, i: nat :: g in groups && i < |groups[g].execDeps| ==> DepSound(d, s, deps, g, groups[g], i)
  }

  ghost predicate RecordedIn(group: SortingGroup, m: nat, r: nat) {
    exists i :: 0 <= i < |group.actualDeps| && group.actualDeps[i] == (m, r)
  }

  ghost predicate Recorded(groups: map<nat, SortingGroup>, m: nat, r: nat) {
    exists g :: g in groups && RecordedIn(groups[g], m, r)
  }

  ghost predicate AllRecorded(groups: map<nat, SortingGroup>, charged: set<(nat, nat)>) {
    forall m: nat, r: nat {:trigger Recorded(groups, m, r)} :: (m, r) in charged ==> Recorded(groups, m, r)
  }

  ghost predicate AmongMembers(d: Diagram, s: nat, deps: map<nat, seq<nat>>)
    requires s < |d.phases|
  {
    forall m, r {:trigger r in deps[m]} :: m in deps && r in deps[m] ==> Member(d, s, m) && Member(d, s, r)
  }

  lemma MembersActive(d: Diagram, s: nat, deps: map<nat, seq<nat>>, m: nat, r: nat)
    requires s < |d.phases| && AmongMembers(d, s, deps) && m in deps && r in deps[m]
    ensures Member(d, s, m) && Member(d, s, r)
  {
  }

  /** Two active children of one phase diverge only at a mix phase. */
  lemma DivergingChildren(d: Diagram, s: nat, o1: nat, o2: nat, g: nat, c1: nat, c2: nat)
    requires s < |d.phases| && o1 < |d.phases| && o2 < |d.phases| && g < |d.phases| && c1 < |d.phases| && c2 < |d.phases|
    requires Active(d, s, g) && Active(d, c1, o1) && Active(d, c2, o2)
    requires c1 in ActiveChildren(d, g) && c2 in ActiveChildren(d, g) && c1 != c2
    ensures Siblings(d, s, o1, o2, g, c1, c2)
  {
  }

  lemma AncestorStep(d: Diagram, s: nat, q: nat, i: nat, c: nat, g: nat)
    requires s < |d.phases| && q < |d.phases| && Active(d, s, q) && i + 1 < |Ancestors(d, s, q)|
    requires c == Ancestors(d, s, q)[i] && g == Ancestors(d, s, q)[i + 1]
    ensures c < |d.phases| && g < |d.phases| && Active(d, s, g) && Active(d, c, q) && c in ActiveChildren(d, g)
  {
    AncestorsAreAbove(d, s, q, i);
    AncestorsAreAbove(d, s, q, i + 1);
  }

  /** Two lists of ancestors that agree on their last `i` phases and differ before them. */
  lemma SiblingsFromAncestors(d: Diagram, s: nat, o1: nat, o2: nat, a1: seq<nat>, a2: seq<nat>, i: nat)
    requires s < |d.phases| && o1 < |d.phases| && o2 < |d.phases| && Active(d, s, o1) && Active(d, s, o2)
    requires a1 == Ancestors(d, s, o1) && a2 == Ancestors(d, s, o2) && 1 <= i < |a1| && i < |a2|
    requires a1[|a1| - i] == a2[|a2| - i] && a1[|a1| - 1 - i] != a2[|a2| - 1 - i]
    ensures Siblings(d, s, o1, o2, a1[|a1| - i], a1[|a1| - 1 - i], a2[|a2| - 1 - i]) && !Active(d, o1, o2) && !Active(d, o2, o1)
  {
    OnTwoBranches(d, s, o1, o2, |a1| - 1 - i, |a2| - 1 - i, a1[|a1| - i], a1[|a1| - 1 - i], a2[|a2| - 1 - i]);
  }

  lemma OnTwoBranches(d: Diagram, s: nat, o1: nat, o2: nat, i: nat, j: nat, g: nat, c1: nat, c2: nat)
    requires s < |d.phases| && o1 < |d.phases| && o2 < |d.phases| && Active(d, s, o1) && Active(d, s, o2)
    requires i + 1 < |Ancestors(d, s, o1)| && c1 == Ancestors(d, s, o1)[i] && g == Ancestors(d, s, o1)[i + 1]
    requires j + 1 < |Ancestors(d, s, o2)| && c2 == Ancestors(d, s, o2)[j] && g == Ancestors(d, s, o2)[j + 1]
    requires c1 != c2
    ensures Siblings(d, s, o1, o2, g, c1, c2) && !Active(d, o1, o2) && !Active(d, o2, o1)
  {
    AncestorStep(d, s, o1, i, c1, g);
    AncestorStep(d, s, o2, j, c2, g);
    DivergingChildren(d, s, o1, o2, g, c1, c2);
    SiblingsAreUnrelated(d, s, o1, o2, g, c1, c2);
  }

  lemma RelatedFromAncestors(d: Diagram, s: nat, o1: nat, o2: nat)
    requires s < |d.phases| && o1 < |d.phases| && o2 < |d.phases| && Active(d, s, o1) && Active(d, s, o2)
    requires var a1, a2 := Ancestors(d, s, o1), Ancestors(d, s, o2); |a1| <= |a2| && a1[0] == a2[|a2| - |a1|]
    ensures Active(d, o1, o2)
  {
    AncestorsAreAbove(d, s, o2, |Ancestors(d, s, o2)| - |Ancestors(d, s, o1)|);
  }

  /** Orders for every group order everything. */
  lemma GroupsCoverAll(d: Diagram, s: nat, groups: map<nat, SortingGroup>, orders: Orders)
    requires s < |d.phases| && d.phases[s].kind.Mix? && GroupsOK(d, s, groups) && orders.Keys == groups.Keys
    requires forall g :: g in groups ==> IsOrder(orders[g], |groups[g].children|)
    ensures OrdersEverything(d, s, orders)
  {
    assert Active(d, s, s);
    forall g | g in orders
      ensures s <= g < d.phases[s].last && g < |d.phases| && d.phases[g].kind.Mix?
              && IsOrder(orders[g], |d.phases[g].children|)
    {
      assert GroupOK(d, s, g, groups[g]);
      ActiveIsBelow(d, s, g);
    }
  }

  /** Under any orders, one recorded dependency is met exactly when its group's order respects it. */
  lemma RecordedIsLocal(d: Diagram, s: nat, deps: map<nat, seq<nat>>, g: nat, group: SortingGroup, i: nat, orders: Orders)
    requires s < |d.phases| && GroupOK(d, s, g, group) && DepSound(d, s, deps, g, group, i)
    requires AmongMembers(d, s, deps) && OrdersEverything(d, s, orders)
    ensures var a, x := group.actualDeps[i], group.execDeps[i];
            && x.0 in group.children && x.1 in group.children && g in orders
            && (Precedes(orders[g], IndexOf(group.children, x.1), IndexOf(group.children, x.0))
                <==> Before(Visit(d, orders, s), a.1, a.0))
  {
    var a, x := group.actualDeps[i], group.execDeps[i];
    MembersActive(d, s, deps, a.0, a.1);
    DependencyIsLocal(d, s, orders, a.0, a.1, g, x.0, x.1);
  }

  /** Orders that respect every group meet every dependency. */
  lemma SortedMeetsAll(d: Diagram, s: nat, deps: map<nat, seq<nat>>, groups: map<nat, SortingGroup>, orders: Orders)
    requires s < |d.phases| && GroupsOK(d, s, groups) && DepsSound(d, s, deps, groups) && AmongMembers(d, s, deps)
    requires forall m, r :: m in deps && r in deps[m] ==> Recorded(groups, m, r)
    requires OrdersEverything(d, s, orders) && orders.Keys == groups.Keys
    requires forall g :: g in groups ==> groups[g].Valid() && groups[g].Satisfies(orders[g])
    ensures AllMet(d, s, orders, deps)
  {
    forall m, r | m in deps && r in deps[m] ensures Before(Visit(d, orders, s), r, m) {
      assert Recorded(groups, m, r);
      var g :| g in groups && RecordedIn(groups[g], m, r);
      var i: nat :| i < |groups[g].actualDeps| && groups[g].actualDeps[i] == (m, r);
      assert GroupOK(d, s, g, groups[g]);
      assert DepSound(d, s, deps, g, groups[g], i);
      RecordedIsLocal(d, s, deps, g, groups[g], i, orders);
    }
  }

  /** Orders that break a dependency of some group do not meet every dependency. */
  lemma GroupNeverMet(d: Diagram, s: nat, deps: map<nat, seq<nat>>, groups: map<nat, SortingGroup>, g: nat, orders: Orders)
    requires s < |d.phases| && GroupsOK(d, s, groups) && DepsSound(d, s, deps, groups) && g in groups
    requires AmongMembers(d, s, deps) && groups[g].Valid() && OrdersEverything(d, s, orders)
    requires g in orders && !groups[g].Satisfies(orders[g])
    ensures !AllMet(d, s, orders, deps)
  {
    var group := groups[g];
    var i: nat :| i < |group.execDeps| &&
      !Precedes(orders[g], IndexOf(group.children, group.execDeps[i].1), IndexOf(group.children, group.execDeps[i].0));
    assert GroupOK(d, s, g, group);
    assert DepSound(d, s, deps, g, group, i);
    RecordedIsLocal(d, s, deps, g, group, i, orders);
    var a := group.actualDeps[i];
    assert !Before(Visit(d, orders, s), a.1, a.0);
  }

  /** The order of a group respects its dependencies. */
  ghost predicate Sorts(group: SortingGroup, order: seq<nat>) {
    group.Valid() && IsOrder(order, |group.children|) && group.Satisfies(order)
  }

  ghost predicate Unsortable(group: SortingGroup) {
    forall order :: !Sorts(group, order)
  }

  lemma SortedOrdersWork(d: Diagram, s: nat, deps: map<nat, seq<nat>>, groups: map<nat, SortingGroup>, orders: Orders)
    requires s < |d.phases| && d.phases[s].kind.Mix? && GroupsOK(d, s, groups)
    requires DepsSound(d, s, deps, groups) && AmongMembers(d, s, deps)
    requires forall m, r :: m in deps && r in deps[m] ==> Recorded(groups, m, r)
    requires orders.Keys == groups.Keys && forall g :: g in groups ==> Sorts(groups[g], orders[g])
    ensures OrdersEverything(d, s, orders) && AllMet(d, s, orders, deps)
  {
    GroupsCoverAll(d, s, groups, orders);
    SortedMeetsAll(d, s, deps, groups, orders);
  }

  /** If no order of some group respects its dependencies, no orders meet every dependency. */
  lemma CircularNeverMet(d: Diagram, s: nat, deps: map<nat, seq<nat>>, groups: map<nat, SortingGroup>)
    requires s < |d.phases| && GroupsOK(d, s, groups) && DepsSound(d, s, deps, groups) && AmongMembers(d, s, deps)
    requires exists g :: g in groups && Unsortable(groups[g])
    ensures forall orders :: OrdersEverything(d, s, orders) ==> !AllMet(d, s, orders, deps)
  {
    var g :| g in groups && Unsortable(groups[g]);
    assert GroupOK(d, s, g, groups[g]);
    forall orders | OrdersEverything(d, s, orders) ensures !AllMet(d, s, orders, deps) {
      assert g in orders && !Sorts(groups[g], orders[g]);
      GroupNeverMet(d, s, deps, groups, g, orders);
    }
  }

  class RaceTrack {
    const d: Diagram
    const starter: nat
    // World state at the time of sorting: actors that exist, phases with initial actions pending
    const existing: set<ActorId>
    const pending: set<nat>
    var racers: map<ActorId, nat>
    var memberDeps: map<nat, seq<nat>>
    var sortingMap: map<nat, SortingGroup>
    // Dependencies recorded in the groups so far
    ghost var charged: set<(nat, nat)>

    constructor (d: Diagram, starter: nat, existing: set<ActorId>, pending: set<nat>)
      requires starter < |d.phases| && d.phases[starter].kind.Mix?
      ensures this.d == d && this.starter == starter && this.existing == existing && this.pending == pending
      ensures racers == map[] && memberDeps == map[] && sortingMap == map[] && charged == {}
    {
      this.d, this.starter, this.existing, this.pending := d, starter, existing, pending;
      racers, memberDeps, sortingMap, charged := map[], map[], map[], {};
    }

    ghost predicate Ready()
      reads this
    {
      starter < |d.phases| && d.phases[starter].kind.Mix?
    }

    /** Members, racers and groups agree with the phases visited so far. */
    ghost predicate Collected(visited: set<nat>)
      requires Ready()
      reads this
    {
      && memberDeps.Keys == visited - {starter}
      && (forall m :: m in memberDeps ==> memberDeps[m] == [])
      && RacersOK(d, starter, existing, racers, memberDeps.Keys)
      && (forall g :: g in sortingMap <==> g in visited && g < |d.phases| && d.phases[g].kind.Mix?)
      && (forall g :: g in sortingMap ==> sortingMap[g] == SortingGroup(d.phases[g].children, [], []))
    }

    /** Finds all members and racers with a worklist. */
    method Collect()
      requires Ready() && racers == map[] && memberDeps == map[] && sortingMap == map[]
      modifies this`racers, this`memberDeps, this`sortingMap
      ensures Collected(memberDeps.Keys + {starter})
      ensures forall q: nat :: q in memberDeps <==> Member(d, starter, q)
    {
      var candidates := [starter];
      ghost var visited: set<nat> := {};
      while candidates != []
        invariant Frontier(d, starter, visited, candidates)
        invariant Collected(visited)
        decreases G.Range(|d.phases|) - visited
      {
        var rest, curr := candidates[..|candidates| - 1], candidates[|candidates| - 1];
        LastFrontierMoves(d, starter, visited, candidates);
        VisitPhase(curr, visited);
        candidates := rest + ActiveChildren(d, curr);
        visited := visited + {curr};
      }
      AllCollected(d, starter, visited, memberDeps.Keys);
    }

    /** Records one phase as a member, as a racer and as a sorting group, whichever it is. */
    method VisitPhase(curr: nat, ghost visited: set<nat>)
      requires Ready() && Collected(visited) && curr < |d.phases| && curr !in visited
      modifies this`racers, this`memberDeps, this`sortingMap
      ensures Collected(visited + {curr})
    {
      if curr != starter {
        memberDeps := memberDeps[curr := []];
        var newActor := HasActorCreation(d, existing, curr);
        if newActor.Some? && newActor.value !in racers {
          racers := racers[newActor.value := curr];
        }
      }
      if d.phases[curr].kind.Mix? {
        sortingMap := sortingMap[curr := SortingGroup(d.phases[curr].children, [], [])];
      }
    }

    /** Turns the actors each member needs into dependencies on racers. */
    method FindDependencies()
      requires Ready() && (forall m :: m in memberDeps ==> m < |d.phases| && memberDeps[m] == [])
      modifies this`memberDeps
      ensures memberDeps.Keys == old(memberDeps.Keys)
      ensures forall m, r :: m in memberDeps && m < |d.phases| ==> (r in memberDeps[m] <==> Needs(d, pending, racers, m, r))
    {
      var todo := memberDeps.Keys;
      while todo != {}
        invariant todo <= memberDeps.Keys == old(memberDeps.Keys)
        invariant forall m :: m in todo ==> memberDeps[m] == []
        invariant forall m, r :: m in memberDeps && m !in todo ==> (r in memberDeps[m] <==> Needs(d, pending, racers, m, r))
        decreases todo
      {
        var m :| m in todo;
        var deps := DependenciesOf(m);
        memberDeps := memberDeps[m := deps];
        todo := todo - {m};
      }
    }

    method DependenciesOf(m: nat) returns (deps: seq<nat>)
      requires m < |d.phases|
      ensures forall r :: r in deps <==> Needs(d, pending, racers, m, r)
    {
      var ids := DependencyToRun(d, pending, m);
      deps := [];
      for i := 0 to |ids|
        invariant forall r :: r in deps <==>
                    r != m && exists j :: 0 <= j < i && ids[j] in racers && racers[ids[j]] == r
      {
        if ids[i] in racers && racers[ids[i]] != m {
          deps := deps + [racers[ids[i]]];
        }
      }
    }

    /** Lists a member and its ancestors up to the starter. */
    method AddAncestors(offspring: nat) returns (ancestors: seq<nat>)
      requires Ready() && Member(d, starter, offspring)
      ensures ancestors == Ancestors(d, starter, offspring)
    {
      var curr: nat := offspring;
      ancestors := [curr];
      while curr != starter
        invariant curr < |d.phases| && Active(d, starter, curr)
        invariant ancestors + Ancestors(d, starter, curr)[1..] == Ancestors(d, starter, offspring)
        decreases curr
      {
        var parent := d.phases[curr].parent.value;
        assert Ancestors(d, starter, curr)[1..] == [parent] + Ancestors(d, starter, parent)[1..];
        ancestors := ancestors + [parent];
        curr := parent;
      }
    }

    /** The number of entries on which two lists agree from the end. */
    method CommonEnd(a1: seq<nat>, a2: seq<nat>) returns (i: nat)
      requires a1 != [] && a2 != [] && a1[|a1| - 1] == a2[|a2| - 1]
      ensures 1 <= i <= |a1| && i <= |a2| && a1[|a1| - i] == a2[|a2| - i]
      ensures i == |a1| || i == |a2| || a1[|a1| - 1 - i] != a2[|a2| - 1 - i]
    {
      i := 1;
      while i < |a1| && i < |a2| && a1[|a1| - 1 - i] == a2[|a2| - 1 - i]
        invariant 1 <= i <= |a1| && i <= |a2| && a1[|a1| - i] == a2[|a2| - i]
      {
        i := i + 1;
      }
    }

    /** The lowest common ancestor and its two children towards the members; an error
        exactly when one member lies below the other. */
    method FindSiblingAncestors(offspring1: nat, offspring2: nat) returns (r: Option<(nat, nat, nat)>)
      requires Ready() && Member(d, starter, offspring1) && Member(d, starter, offspring2)
      ensures r.None? <==> Active(d, offspring1, offspring2) || Active(d, offspring2, offspring1)
      ensures r.Some? ==> Siblings(d, starter, offspring1, offspring2, r.value.0, r.value.1, r.value.2)
    {
      var a1 := AddAncestors(offspring1);
      var a2 := AddAncestors(offspring2);
      var i := CommonEnd(a1, a2);
      if i == |a1| {
        RelatedFromAncestors(d, starter, offspring1, offspring2);
        return None;
      }
      if i == |a2| {
        RelatedFromAncestors(d, starter, offspring2, offspring1);
        return None;
      }
      SiblingsFromAncestors(d, starter, offspring1, offspring2, a1, a2, i);
      r := Some((a1[|a1| - i], a1[|a1| - 1 - i], a2[|a2| - 1 - i]));
    }

    /** Groups and recorded dependencies are in order. */
    ghost predicate Charged()
      requires Ready()
      reads this
    {
      && GroupsOK(d, starter, sortingMap)
      && DepsSound(d, starter, memberDeps, sortingMap)
      && AllRecorded(sortingMap, charged)
    }

    /** One of two members lies below the other. */
    ghost predicate Related(m: nat, r: nat) {
      m < |d.phases| && r < |d.phases| && (Active(d, m, r) || Active(d, r, m))
    }

    static ghost predicate Within(m: nat, deps: seq<nat>, charged: set<(nat, nat)>) {
      forall r :: r in deps ==> (m, r) in charged
    }

    static lemma WithinGrows(m: nat, deps: seq<nat>, i: nat, charged: set<(nat, nat)>)
      requires i < |deps| && Within(m, deps[..i], charged)
      ensures Within(m, deps[..i + 1], charged + {(m, deps[i])})
    {
      assert deps[..i + 1] == deps[..i] + [deps[i]];
    }

    /** Charges every dependency to the group of its lowest common ancestor; fails if a
        member depends on one below it. */
    method AssignDependencies() returns (ok: bool)
      requires Ready() && Charged() && AmongMembers(d, starter, memberDeps)
      modifies this`sortingMap, this`charged
      ensures Charged()
      ensures ok ==> forall m, r :: m in memberDeps && r in memberDeps[m] ==> (m, r) in charged
      ensures !ok ==> exists m, r :: m in memberDeps && r in memberDeps[m] && Related(m, r)
    {
      var todo := memberDeps.Keys;
      while todo != {}
        invariant todo <= memberDeps.Keys && Charged()
        invariant forall m, r :: m in memberDeps && m !in todo && r in memberDeps[m] ==> (m, r) in charged
        decreases todo
      {
        var m :| m in todo;
        ok := AssignDependenciesOf(m);
        if !ok {
          return;
        }
        todo := todo - {m};
      }
      ok := true;
    }

    method AssignDependenciesOf(m: nat) returns (ok: bool)
      requires Ready() && Charged() && AmongMembers(d, starter, memberDeps) && m in memberDeps
      modifies this`sortingMap, this`charged
      ensures Charged() && old(charged) <= charged
      ensures ok ==> forall r :: r in memberDeps[m] ==> (m, r) in charged
      ensures !ok ==> exists r :: r in memberDeps[m] && Related(m, r)
    {
      var deps := memberDeps[m];
      for i := 0 to |deps|
        invariant Charged()
        invariant old(charged) <= charged
        invariant Within(m, deps[..i], charged)
      {
        WithinGrows(m, deps, i, charged);
        ok := Charge(m, deps[i]);
        if !ok {
          return;
        }
      }
      ok := true;
    }

    method Charge(m: nat, r: nat) returns (ok: bool)
      requires Ready() && Charged() && AmongMembers(d, starter, memberDeps) && m in memberDeps && r in memberDeps[m]
      modifies this`sortingMap, this`charged
      ensures Charged() && charged == (if ok then old(charged) + {(m, r)} else old(charged)) && (ok || Related(m, r))
    {
      MembersActive(d, starter, memberDeps, m, r);
      var found := FindSiblingAncestors(m, r);
      ok := found.Some?;
      if ok {
        ChargeTo(m, r, found.value.0, found.value.1, found.value.2);
      }
    }

    method ChargeTo(m: nat, r: nat, g: nat, c1: nat, c2: nat)
      requires Ready() && Charged()
      requires m in memberDeps && r in memberDeps[m] && Siblings(d, starter, m, r, g, c1, c2)
      modifies this`sortingMap, this`charged
      ensures Charged() && charged == old(charged) + {(m, r)}
    {
      ghost var before := sortingMap;
      assert GroupOK(d, starter, g, sortingMap[g]);
      var group := sortingMap[g].AddDependency((m, r), (c1, c2));
      sortingMap := sortingMap[g := group];
      charged := charged + {(m, r)};
      AddedDependency(d, starter, memberDeps, g, before[g], m, r, c1, c2);
      AddedIsRecorded(before, old(charged), g, (m, r), (c1, c2));
    }

    /** Sorts every group; fails if one of them is circular. */
    method SortGroups() returns (r: Option<Orders>)
      requires Ready() && GroupsOK(d, starter, sortingMap)
      ensures r.Some? ==> r.value.Keys == sortingMap.Keys && forall g :: g in sortingMap ==> Sorts(sortingMap[g], r.value[g])
      ensures r.None? ==> exists g :: g in sortingMap && Unsortable(sortingMap[g])
    {
      var orders: Orders := map[];
      var todo := sortingMap.Keys;
      while todo != {}
        invariant todo <= sortingMap.Keys && orders.Keys == sortingMap.Keys - todo
        invariant forall g :: g in orders ==> Sorts(sortingMap[g], orders[g])
        decreases todo
      {
        var g :| g in todo;
        assert GroupOK(d, starter, g, sortingMap[g]);
        var sorted := sortingMap[g].SortChildren();
        if sorted.Circular? {
          assert Unsortable(sortingMap[g]);
          return None;
        }
        orders := orders[g := sorted.order];
        todo := todo - {g};
      }
      r := Some(orders);
    }

    /** Finds execution orders under which every racer is reached before the phases that need
        it, or reports an error, and then there are no such orders at all. */
    method Sort() returns (r: Option<Orders>)
      requires Ready() && racers == map[] && memberDeps == map[] && sortingMap == map[] && charged == {}
      modifies this
      ensures Dependencies(d, starter, existing, pending, racers, memberDeps)
      ensures r.Some? ==> OrdersEverything(d, starter, r.value) && AllMet(d, starter, r.value, memberDeps)
      ensures r.None? ==> forall orders :: OrdersEverything(d, starter, orders) ==> !AllMet(d, starter, orders, memberDeps)
    {
      Collect();
      GroupsFromCollection();
      FindDependencies();
      DependenciesAmongMembers();
      r := SortMembers();
    }

    method SortMembers() returns (r: Option<Orders>)
      requires Ready() && Charged() && AmongMembers(d, starter, memberDeps) && TowardsLeaves()
      modifies this`sortingMap, this`charged
      ensures r.Some? ==> OrdersEverything(d, starter, r.value) && AllMet(d, starter, r.value, memberDeps)
      ensures r.None? ==> forall orders :: OrdersEverything(d, starter, orders) ==> !AllMet(d, starter, orders, memberDeps)
    {
      var ok := AssignDependencies();
      if !ok {
        RelatedNeverMet();
        return None;
      }
      r := SortGroups();
      if r.Some? {
        SortedOrdersWork(d, starter, memberDeps, sortingMap, r.value);
      } else {
        CircularNeverMet(d, starter, memberDeps, sortingMap);
      }
    }

    /** Dependencies lead to other phases, and to action phases. */
    ghost predicate TowardsLeaves()
      reads this
    {
      forall m, r :: m in memberDeps && r in memberDeps[m] ==> r != m && r < |d.phases| && d.phases[r].kind.ActorAction?
    }

    lemma RelatedNeverMet()
      requires Ready() && AmongMembers(d, starter, memberDeps) && TowardsLeaves()
      requires exists m, r :: m in memberDeps && r in memberDeps[m] && Related(m, r)
      ensures forall orders :: OrdersEverything(d, starter, orders) ==> !AllMet(d, starter, orders, memberDeps)
    {
      var m, r :| m in memberDeps && r in memberDeps[m] && Related(m, r);
      MembersActive(d, starter, memberDeps, m, r);
      NothingBelowLeaf(d, r, m);
      forall orders | OrdersEverything(d, starter, orders) ensures !AllMet(d, starter, orders, memberDeps) {
        NeverBelow(d, starter, orders, m, r);
      }
    }

    lemma GroupsFromCollection()
      requires Ready() && Collected(memberDeps.Keys + {starter})
      requires forall q: nat :: q in memberDeps <==> Member(d, starter, q)
      ensures GroupsOK(d, starter, sortingMap)
      ensures forall g :: g in sortingMap ==> sortingMap[g].execDeps == []
    {
      assert Active(d, starter, starter);
      forall g | g in sortingMap ensures GroupOK(d, starter, g, sortingMap[g]) {
        ChildrenDistinct(d, g);
      }
    }

    lemma DependenciesAmongMembers()
      requires Ready() && Dependencies(d, starter, existing, pending, racers, memberDeps)
      ensures AmongMembers(d, starter, memberDeps) && TowardsLeaves()
    {
      forall m, r | m in memberDeps && r in memberDeps[m]
        ensures Member(d, starter, m) && Member(d, starter, r) && r != m && d.phases[r].kind.ActorAction?
      {
        DependenciesLead(d, starter, existing, pending, racers, memberDeps, m, r);
      }
    }
  }

  lemma AddedDependency(d: Diagram, s: nat, deps: map<nat, seq<nat>>, g: nat, group: SortingGroup, m: nat, r: nat, c1: nat, c2: nat)
    requires s < |d.phases| && GroupOK(d, s, g, group) && Siblings(d, s, m, r, g, c1, c2) && m in deps && r in deps[m]
    requires forall i: nat :: i < |group.execDeps| ==> DepSound(d, s, deps, g, group, i)
    ensures var group' := group.AddDependency((m, r), (c1, c2));
            GroupOK(d, s, g, group') && forall i: nat :: i < |group'.execDeps| ==> DepSound(d, s, deps, g, group', i)
  {
    var group' := group.AddDependency((m, r), (c1, c2));
    forall i: nat | i < |group'.execDeps| ensures DepSound(d, s, deps, g, group', i) {
      if i < |group.execDeps| {
        assert DepSound(d, s, deps, g, group, i);
      }
    }
  }

  lemma AddedIsRecorded(groups: map<nat, SortingGroup>, charged: set<(nat, nat)>, g: nat, actual: (nat, nat), exec: (nat, nat))
    requires AllRecorded(groups, charged) && g in groups
    requires groups[g].Valid() && exec.0 in groups[g].children && exec.1 in groups[g].children
    ensures AllRecorded(groups[g := groups[g].AddDependency(actual, exec)], charged + {actual})
  {
    var group := groups[g].AddDependency(actual, exec);
    var after := groups[g := group];
    assert group.actualDeps[|groups[g].actualDeps|] == actual;
    forall x: nat, y: nat | (x, y) in charged + {actual} ensures Recorded(after, x, y) {
      if (x, y) == actual {
        assert RecordedIn(after[g], x, y);
      } else {
        assert Recorded(groups, x, y);
        var h :| h in groups && RecordedIn(groups[h], x, y);
        var i :| 0 <= i < |groups[h].actualDeps| && groups[h].actualDeps[i] == (x, y);
        assert after[h].actualDeps[i] == (x, y);
        assert RecordedIn(after[h], x, y);
      }
    }
  }
}
