/** The children of one mix phase and the dependencies among them. */
module SortingGroups {
  import opened PhaseSemantics
  import opened PhaseVisits
  import G = DependencyGraph

  datatype Sorted = Order(order: seq<nat>) | Circular(p1: nat, p2: nat)

  /** Position of the first occurrence. */
  function IndexOf(xs: seq<nat>, x: nat): (i: nat)
    requires x in xs
    ensures i < |xs| && xs[i] == x
  {
    if xs[0] == x then 0 else 1 + IndexOf(xs[1..], x)
  }

  lemma IndexOfDistinct(xs: seq<nat>, i: nat)
    requires G.Distinct(xs) && i < |xs|
    ensures IndexOf(xs, xs[i]) == i
  {
    var j := IndexOf(xs, xs[i]);
  }

  /** `actualDeps[i]` is a dependency between two phases, and `execDeps[i]` the one it
      causes between two children: the first depends on the second. */
  datatype SortingGroup = SortingGroup(children: seq<nat>, actualDeps: seq<(nat, nat)>, execDeps: seq<(nat, nat)>) {

    ghost predicate Valid() {
      && G.Distinct(children)
      && |actualDeps| == |execDeps|
      && forall i :: 0 <= i < |execDeps| ==> execDeps[i].0 in children && execDeps[i].1 in children
    }

    function AddDependency(actual: (nat, nat), exec: (nat, nat)): (r: SortingGroup)
      requires Valid() && exec.0 in children && exec.1 in children
      ensures r.Valid() && r.children == children
    {
      SortingGroup(children, actualDeps + [actual], execDeps + [exec])
    }

    /** Dependency number `i` is the edge from child `u` to child `v`. */
    ghost predicate IsEdge(i: nat, u: nat, v: nat)
      requires Valid()
    {
      i < |execDeps| && IndexOf(children, execDeps[i].0) == u && IndexOf(children, execDeps[i].1) == v
    }

    /** The graph has an edge for each of the first `k` dependencies and no other. */
    ghost predicate Represents(g: G.Graph, k: nat)
      requires Valid()
    {
      && |g| == |children|
      && (forall i: nat :: i < k && i < |execDeps| ==>
            G.HasEdge(g, IndexOf(children, execDeps[i].0), IndexOf(children, execDeps[i].1)))
      && (forall u: nat, v: nat :: G.HasEdge(g, u, v) ==> exists i: nat :: i < k && IsEdge(i, u, v))
    }

    /** In this order of the children, each dependee comes before its dependent. */
    ghost predicate Satisfies(order: seq<nat>)
      requires Valid()
    {
      forall i :: 0 <= i < |execDeps| ==>
        Precedes(order, IndexOf(children, execDeps[i].1), IndexOf(children, execDeps[i].0))
    }

    method ChildIndices() returns (idx: map<nat, nat>)
      requires Valid()
      ensures forall c :: c in children ==> c in idx && idx[c] == IndexOf(children, c)
    {
      idx := map[];
      for i := 0 to |children|
        invariant forall j :: 0 <= j < i ==> children[j] in idx && idx[children[j]] == IndexOf(children, children[j])
        invariant forall c :: c in idx ==> c in children && idx[c] == IndexOf(children, c)
      {
        IndexOfDistinct(children, i);
        if children[i] !in idx {
          idx := idx[children[i] := i];
        }
      }
    }

    method BuildGraph() returns (g: G.Graph)
      requires Valid()
      ensures Represents(g, |execDeps|)
    {
      var idx := ChildIndices();
      g := seq(|children|, _ => []);
      for i := 0 to |execDeps|
        invariant Represents(g, i)
      {
        var u, v := idx[execDeps[i].0], idx[execDeps[i].1];
        ghost var g0 := g;
        g := g[u := g[u] + [v]];
        assert IsEdge(i, u, v);
        forall x: nat, y: nat | G.HasEdge(g, x, y) ensures exists j: nat :: j < i + 1 && IsEdge(j, x, y) {
          if !(x == u && y == v) {
            assert G.HasEdge(g0, x, y);
          }
        }
        forall j: nat | j < i + 1 ensures G.HasEdge(g, IndexOf(children, execDeps[j].0), IndexOf(children, execDeps[j].1)) {
          if j < i {
            assert G.HasEdge(g0, IndexOf(children, execDeps[j].0), IndexOf(children, execDeps[j].1));
          }
        }
      }
    }

    lemma SatisfiesIsTopological(g: G.Graph, order: seq<nat>)
      requires Valid() && Represents(g, |execDeps|) && IsOrder(order, |children|)
      ensures Satisfies(order) <==> G.IsTopologicalOrder(g, order)
    {
      if Satisfies(order) {
        forall i, v: nat | 0 <= i < |order| && v in g[order[i]] ensures v in order[..i] {
          assert G.HasEdge(g, order[i], v);
          var k: nat :| k < |execDeps| && IsEdge(k, order[i], v);
          var m, n :| 0 <= m < n < |order| && order[m] == v && order[n] == order[i];
        }
      }
      if G.IsTopologicalOrder(g, order) {
        forall i | 0 <= i < |execDeps|
          ensures Precedes(order, IndexOf(children, execDeps[i].1), IndexOf(children, execDeps[i].0))
        {
          var u, v := IndexOf(children, execDeps[i].0), IndexOf(children, execDeps[i].1);
          assert G.HasEdge(g, u, v);
          assert u in order;
          var n :| 0 <= n < |order| && order[n] == u;
          var m :| 0 <= m < n && order[m] == v;
        }
      }
    }

    /** A permutation of the children that respects every dependency, or a dependency on a
        cycle; the error is reported exactly when no permutation respects them all. */
    method SortChildren() returns (r: Sorted)
      requires Valid()
      ensures r.Order? ==> IsOrder(r.order, |children|) && Satisfies(r.order)
      ensures r.Circular? ==> forall order :: IsOrder(order, |children|) ==> !Satisfies(order)
      ensures r.Circular? ==> exists i :: 0 <= i < |actualDeps| && actualDeps[i] == (r.p1, r.p2) && InCycle(i)
    {
      var g := BuildGraph();
      var detection := new G.DepthFirstSearch(g);
      detection.Run();
      if detection.hasCycle {
        forall order | IsOrder(order, |children|) ensures !Satisfies(order) {
          SatisfiesIsTopological(g, order);
          if Satisfies(order) {
            G.OrderedIsAcyclic(g, order);
          }
        }
        var p1, p2 := CulpritOf(g, detection.edge.0, detection.edge.1);
        return Circular(p1, p2);
      }
      var sorting := new G.DepthFirstSearch(g);
      sorting.Run();
      G.OrderedIsAcyclic(g, detection.finished);
      SatisfiesIsTopological(g, sorting.finished);
      r := Order(sorting.finished);
    }

    /** Dependency number `i` lies on a cycle of the dependencies. */
    ghost predicate InCycle(i: nat)
      requires Valid()
    {
      && i < |execDeps|
      && exists g: G.Graph ::
           Represents(g, |execDeps|) && G.OnCycle(g, IndexOf(children, execDeps[i].0), IndexOf(children, execDeps[i].1))
    }

    /** The first actual dependency behind an edge of the graph. */
    method CulpritOf(g: G.Graph, u: nat, v: nat) returns (p1: nat, p2: nat)
      requires Valid() && Represents(g, |execDeps|) && G.HasEdge(g, u, v) && G.OnCycle(g, u, v)
      ensures exists i :: 0 <= i < |actualDeps| && actualDeps[i] == (p1, p2) && InCycle(i)
    {
      ghost var k: nat :| k < |execDeps| && IsEdge(k, u, v);
      p1, p2 := children[u], children[v];
      for i := 0 to |execDeps|
        invariant forall j :: 0 <= j < i ==> execDeps[j] != (children[u], children[v])
      {
        if execDeps[i] == (children[u], children[v]) {
          IndexOfDistinct(children, u);
          IndexOfDistinct(children, v);
          assert InCycle(i);
          return actualDeps[i].0, actualDeps[i].1;
        }
      }
    }
  }
}
