/** Depth-first search over a dependency graph: cycle detection and topological order.
    An edge from `u` to `v` says that `u` depends on `v`. */
module DependencyGraph {

  type Graph = g: seq<seq<nat>> | IsGraph(g) witness []

  predicate IsGraph(g: seq<seq<nat>>) {
    forall u, i :: 0 <= u < |g| && 0 <= i < |g[u]| ==> g[u][i] < |g|
  }

  predicate HasEdge(g: Graph, u: nat, v: nat) {
    u < |g| && v in g[u]
  }

  ghost predicate IsPath(g: Graph, p: seq<nat>) {
    && p != []
    && (forall i :: 0 <= i < |p| ==> p[i] < |g|)
    && forall i :: 0 <= i < |p| - 1 ==> HasEdge(g, p[i], p[i + 1])
  }

  /** A path of at least one edge back to where it started. */
  ghost predicate IsCycle(g: Graph, p: seq<nat>) {
    |p| >= 2 && IsPath(g, p) && p[0] == p[|p| - 1]
  }

  ghost predicate Acyclic(g: Graph) {
    forall p :: !IsCycle(g, p)
  }

  /** The edge from `u` to `v` lies on a cycle. */
  ghost predicate OnCycle(g: Graph, u: nat, v: nat) {
    exists p :: IsCycle(g, p) && p[0] == u && p[1] == v
  }

  predicate Distinct(xs: seq<nat>) {
    forall i, j :: 0 <= i < j < |xs| ==> xs[i] != xs[j]
  }

  /** Every vertex of `xs` comes after everything it depends on. */
  ghost predicate Topological(g: Graph, xs: seq<nat>) {
    && Distinct(xs)
    && (forall i :: 0 <= i < |xs| ==> xs[i] < |g|)
    && forall i, v :: 0 <= i < |xs| && v in g[xs[i]] ==> v in xs[..i]
  }

  /** A topological order of all vertices. */
  ghost predicate IsTopologicalOrder(g: Graph, order: seq<nat>) {
    Topological(g, order) && |order| == |g| && forall v: nat :: v < |g| ==> v in order
  }

  /** Along a path, positions in a topological order go down. */
  lemma {:induction false} PathDescends(g: Graph, order: seq<nat>, p: seq<nat>, i: nat)
    requires Topological(g, order) && IsPath(g, p) && i < |order| && order[i] == p[0]
    ensures exists j: nat :: j <= i && order[j] == p[|p| - 1] && (|p| >= 2 ==> j < i)
    decreases |p|
  {
    if |p| >= 2 {
      assert HasEdge(g, p[0], p[1]);
      var k :| 0 <= k < i && order[k] == p[1];
      assert IsPath(g, p[1..]) by {
        forall n | 0 <= n < |p[1..]| - 1 ensures HasEdge(g, p[1..][n], p[1..][n + 1]) {
          assert HasEdge(g, p[n + 1], p[n + 2]);
        }
      }
      PathDescends(g, order, p[1..], k);
    }
  }

  /** A graph with a topological order has no cycle. */
  lemma OrderedIsAcyclic(g: Graph, order: seq<nat>)
    requires IsTopologicalOrder(g, order)
    ensures Acyclic(g)
  {
    forall p | IsCycle(g, p) ensures false {
      assert p[0] < |g| && p[0] in order;
      var i :| 0 <= i < |order| && order[i] == p[0];
      PathDescends(g, order, p, i);
    }
  }

  datatype Color = White | Gray | Black

  /** One depth-first search: visits every vertex, appends each when it is finished, and
      reports the last back edge met. */
  class DepthFirstSearch {
    const g: Graph
    var color: seq<Color>
    var finished: seq<nat>
    var hasCycle: bool
    var edge: (nat, nat)

    /** `stack` holds the vertices being visited, outermost first. */
    ghost predicate Valid(stack: seq<nat>)
      reads this
    {
      && |color| == |g|
      && (forall u :: 0 <= u < |g| ==> (color[u] == Black <==> u in finished))
      && (forall u :: 0 <= u < |g| ==> (color[u] == Gray <==> u in stack))
      && Distinct(finished)
      && (forall i :: 0 <= i < |finished| ==> finished[i] < |g|)
      && (stack != [] ==> IsPath(g, stack))
      && (!hasCycle ==> Topological(g, finished))
      && (hasCycle ==> HasEdge(g, edge.0, edge.1) && OnCycle(g, edge.0, edge.1))
    }

    ghost function Unvisited(): set<nat>
      reads this
    {
      set u: nat | u < |color| && color[u] == White
    }

    constructor (g: Graph)
      ensures this.g == g && Valid([]) && finished == [] && !hasCycle
      ensures forall u :: 0 <= u < |g| ==> color[u] == White
    {
      this.g := g;
      color := seq(|g|, _ => White);
      finished, hasCycle, edge := [], false, (0, 0);
    }

    method Visit(u: nat, ghost stack: seq<nat>)
      requires Valid(stack) && u < |g| && color[u] == White
      requires stack != [] ==> HasEdge(g, stack[|stack| - 1], u)
      modifies this
      ensures Valid(stack) && color[u] == Black
      ensures old(finished) <= finished && (old(hasCycle) ==> hasCycle)
      ensures Unvisited() < old(Unvisited())
      decreases Unvisited()
    {
      color := color[u := Gray];
      ghost var deeper := stack + [u];
      assert Unvisited() < old(Unvisited()) by {
        assert u in old(Unvisited()) && u !in Unvisited();
      }
      assert Valid(deeper);
      for i := 0 to |g[u]|
        invariant Valid(deeper) && u < |g|
        invariant old(finished) <= finished && (old(hasCycle) ==> hasCycle)
        invariant Unvisited() < old(Unvisited())
        invariant !hasCycle ==> forall j :: 0 <= j < i ==> g[u][j] in finished
      {
        var v := g[u][i];
        assert HasEdge(g, u, v);
        if color[v] == White {
          Visit(v, deeper);
        } else if color[v] == Gray {
          BackEdge(g, deeper, v);
          hasCycle, edge := true, (u, v);
        }
      }
      FinishVertex(u, stack);
    }

    /** A vertex is finished once everything it depends on is. */
    method FinishVertex(u: nat, ghost stack: seq<nat>)
      requires Valid(stack + [u]) && u < |g| && u !in stack
      requires !hasCycle ==> forall j :: 0 <= j < |g[u]| ==> g[u][j] in finished
      modifies this`color, this`finished
      ensures Valid(stack) && color[u] == Black && finished == old(finished) + [u]
      ensures Unvisited() == old(Unvisited())
    {
      assert u in stack + [u];
      assert color[u] == Gray;
      ghost var before := finished;
      color := color[u := Black];
      finished := finished + [u];
      if stack != [] {
        forall i | 0 <= i < |stack| - 1 ensures HasEdge(g, stack[i], stack[i + 1]) {
          assert HasEdge(g, (stack + [u])[i], (stack + [u])[i + 1]);
        }
        forall i | 0 <= i < |stack| ensures stack[i] < |g| {
          assert (stack + [u])[i] < |g|;
        }
      }
      if !hasCycle {
        forall i, v | 0 <= i < |finished| && v in g[finished[i]] ensures v in finished[..i] {
          if i < |before| {
            assert finished[..i] == before[..i];
          } else {
            assert finished[..i] == before;
          }
        }
      }
    }

    /** Visits every vertex, in ascending order. */
    method Run()
      requires Valid([]) && finished == [] && !hasCycle && forall u :: 0 <= u < |g| ==> color[u] == White
      modifies this
      ensures hasCycle ==> HasEdge(g, edge.0, edge.1) && OnCycle(g, edge.0, edge.1)
      ensures !hasCycle ==> IsTopologicalOrder(g, finished)
    {
      for u := 0 to |g|
        invariant Valid([])
        invariant forall v :: 0 <= v < u ==> v in finished
      {
        if color[u] == White {
          Visit(u, []);
        }
      }
      AllFinished(finished, |g|);
    }
  }

  /** A distinct sequence that holds all of `0..n` and nothing else has length `n`. */
  lemma AllFinished(xs: seq<nat>, n: nat)
    requires Distinct(xs) && (forall i :: 0 <= i < |xs| ==> xs[i] < n) && forall v: nat :: v < n ==> v in xs
    ensures |xs| == n
  {
    DistinctSize(xs);
    assert Range(n) == Elements(xs);
  }

  ghost function Elements(xs: seq<nat>): (r: set<nat>)
    ensures forall x :: x in r <==> x in xs
  {
    set x | x in xs
  }

  lemma {:induction false} DistinctSize(xs: seq<nat>)
    requires Distinct(xs)
    ensures |Elements(xs)| == |xs|
  {
    if xs == [] {
      assert Elements(xs) == {};
    } else {
      DistinctSize(xs[1..]);
      assert xs[0] !in xs[1..];
      assert Elements(xs) == {xs[0]} + Elements(xs[1..]);
    }
  }

  ghost function Range(n: nat): (r: set<nat>)
    ensures |r| == n && forall v: nat :: v in r <==> v < n
  {
    if n == 0 then {} else {n - 1} + Range(n - 1)
  }

  /** An edge to a vertex that is still being visited closes a cycle. */
  lemma BackEdge(g: Graph, stack: seq<nat>, v: nat)
    requires IsPath(g, stack) && v in stack && HasEdge(g, stack[|stack| - 1], v)
    ensures OnCycle(g, stack[|stack| - 1], v)
  {
    var u := stack[|stack| - 1];
    var k :| 0 <= k < |stack| && stack[k] == v;
    var p := [u] + stack[k..];
    forall i | 0 <= i < |p| - 1 ensures HasEdge(g, p[i], p[i + 1]) {
      if i > 0 {
        assert HasEdge(g, stack[k + i - 1], stack[k + i]);
      }
    }
    assert IsCycle(g, p);
  }
}
