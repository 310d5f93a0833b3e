/** The order in which one pass first reaches the active phases below a mix phase. */
module PhaseVisits {
  import opened Scenario
  import opened PhaseSemantics

  /** The children a phase exposes as active: all of a mix phase, the first of a serial phase. */
  function ActiveChildren(d: Diagram, p: nat): (r: seq<nat>)
    requires p < |d.phases|
    ensures forall i :: 0 <= i < |r| ==> d.KidOK(p, r[i]) && r[i] in d.phases[p].children
  {
    CompositeHasChildren(d, p);
    assert forall i: nat :: i < |d.phases[p].children| ==> Child(d, p, i) == d.phases[p].children[i];
    match d.phases[p].kind
    case Mix => d.phases[p].children
    case Serial => [Child(d, p, 0)]
    case _ => []
  }

  /** `q` is reached from `s` through active children. */
  ghost predicate Active(d: Diagram, s: nat, q: nat)
    requires s < |d.phases| && q < |d.phases|
    decreases q
  {
    q == s ||
    (s < q && d.phases[q].parent.Some? && d.phases[q].parent.value < q
     && q in ActiveChildren(d, d.phases[q].parent.value) && Active(d, s, d.phases[q].parent.value))
  }

  predicate InSubtree(d: Diagram, p: nat, q: nat)
    requires p < |d.phases|
  {
    p <= q < d.phases[p].last
  }

  lemma {:induction false} ActiveIsBelow(d: Diagram, s: nat, q: nat)
    requires s < |d.phases| && q < |d.phases| && Active(d, s, q)
    ensures InSubtree(d, s, q) && d.phases[q].last <= d.phases[s].last
    decreases q
  {
    SubtreeBounds(d, s);
    if q != s {
      var p := d.phases[q].parent.value;
      ActiveIsBelow(d, s, p);
      var i :| 0 <= i < |ActiveChildren(d, p)| && ActiveChildren(d, p)[i] == q;
    }
  }

  // ---------------------------------------------------------------- visits

  type Orders = map<nat, seq<nat>>

  /** Orders for every active mix phase below `s`. */
  ghost predicate OrdersEverything(d: Diagram, s: nat, orders: Orders)
    requires s < |d.phases|
  {
    && OrdersOK(d, s, orders)
    && forall q: nat :: q < |d.phases| && Active(d, s, q) && d.phases[q].kind.Mix? ==> q in orders
  }

  /** The phases one pass reaches from `p`, in order, each before what lies below it. */
  function Visit(d: Diagram, orders: Orders, p: nat): (r: seq<nat>)
    requires p < |d.phases|
    decreases |d.phases| - p, 1, 0
  {
    match d.phases[p].kind
    case Mix => if p in orders then [p] + VisitChildren(d, orders, p, orders[p]) else [p]
    case Serial => CompositeHasChildren(d, p); [p] + Visit(d, orders, Child(d, p, 0))
    case _ => [p]
  }

  function VisitChildren(d: Diagram, orders: Orders, p: nat, order: seq<nat>): (r: seq<nat>)
    requires p < |d.phases|
    decreases |d.phases| - p, 0, |order|
  {
    if order == [] then []
    else if order[0] < |d.phases[p].children| then
      Visit(d, orders, Child(d, p, order[0])) + VisitChildren(d, orders, p, order[1..])
    else VisitChildren(d, orders, p, order[1..])
  }

  lemma {:induction false} VisitStaysBelow(d: Diagram, orders: Orders, p: nat)
    requires p < |d.phases|
    ensures forall x :: x in Visit(d, orders, p) ==> InSubtree(d, p, x)
    ensures p in Visit(d, orders, p)
    decreases |d.phases| - p, 1, 0
  {
    SubtreeBounds(d, p);
    match d.phases[p].kind {
      case Mix =>
        if p in orders {
          VisitChildrenStaysBelow(d, orders, p, orders[p]);
        }
      case Serial =>
        CompositeHasChildren(d, p);
        VisitStaysBelow(d, orders, Child(d, p, 0));
      case _ =>
    }
  }

  /** Every visited phase lies below one of the children named by the order. */
  lemma {:induction false} VisitChildrenStaysBelow(d: Diagram, orders: Orders, p: nat, order: seq<nat>)
    requires p < |d.phases|
    ensures forall x :: x in VisitChildren(d, orders, p, order) ==>
              exists k: nat :: k in order && k < |d.phases[p].children| && InSubtree(d, Child(d, p, k), x)
    decreases |d.phases| - p, 0, |order|
  {
    if order != [] {
      VisitChildrenStaysBelow(d, orders, p, order[1..]);
      if order[0] < |d.phases[p].children| {
        VisitStaysBelow(d, orders, Child(d, p, order[0]));
        assert order[0] in order;
      }
    }
  }

  /** No element of `xs` lies in the subtree of `q`. */
  ghost predicate Outside(d: Diagram, q: nat, xs: seq<nat>)
    requires q < |d.phases|
  {
    forall x :: x in xs ==> !InSubtree(d, q, x)
  }

  lemma OtherChildrenOutside(d: Diagram, orders: Orders, p: nat, order: seq<nat>, k: nat)
    requires p < |d.phases| && k < |d.phases[p].children| && k !in order
    ensures Outside(d, Child(d, p, k), VisitChildren(d, orders, p, order))
  {
    VisitChildrenStaysBelow(d, orders, p, order);
    forall x | x in VisitChildren(d, orders, p, order) ensures !InSubtree(d, Child(d, p, k), x) {
      var j: nat :| j in order && j < |d.phases[p].children| && InSubtree(d, Child(d, p, j), x);
      ChildrenApart(d, p, j, k);
    }
  }

  lemma {:induction false} VisitChildrenConcat(d: Diagram, orders: Orders, p: nat, a: seq<nat>, b: seq<nat>)
    requires p < |d.phases|
    ensures VisitChildren(d, orders, p, a + b) == VisitChildren(d, orders, p, a) + VisitChildren(d, orders, p, b)
    decreases |a|
  {
    if a == [] {
      assert a + b == b;
    } else {
      assert (a + b)[1..] == a[1..] + b;
      VisitChildrenConcat(d, orders, p, a[1..], b);
    }
  }

  // ---------------------------------------------------------------- before

  /** Both are visited, and `x` always before `y`. */
  ghost predicate Before(xs: seq<nat>, x: nat, y: nat) {
    x in xs && y in xs && forall i, j :: 0 <= i < |xs| && 0 <= j < |xs| && xs[i] == x && xs[j] == y ==> i < j
  }

  lemma BeforeIsStrict(xs: seq<nat>, x: nat, y: nat)
    requires Before(xs, x, y)
    ensures !Before(xs, y, x)
  {
    var i :| 0 <= i < |xs| && xs[i] == x;
    var j :| 0 <= j < |xs| && xs[j] == y;
  }

  lemma AtIndex(a: seq<nat>, b: seq<nat>, i: nat)
    requires i < |a + b|
    ensures if i < |a| then (a + b)[i] in a else (a + b)[i] in b
  {
  }

  lemma BeforeBySplit(a: seq<nat>, b: seq<nat>, x: nat, y: nat)
    requires x in a && y !in a && x !in b && y in b
    ensures Before(a + b, x, y)
  {
    forall i, j | 0 <= i < |a + b| && 0 <= j < |a + b| && (a + b)[i] == x && (a + b)[j] == y ensures i < j {
      AtIndex(a, b, i);
      AtIndex(a, b, j);
    }
  }

  lemma BeforeInside(a: seq<nat>, xs: seq<nat>, b: seq<nat>, x: nat, y: nat)
    requires Before(xs, x, y) && x !in a && y !in a && x !in b && y !in b
    ensures Before(a + xs + b, x, y)
  {
    var front, all := a + xs, a + xs + b;
    forall i, j | 0 <= i < |all| && 0 <= j < |all| && all[i] == x && all[j] == y ensures i < j {
      AtIndex(front, b, i);
      AtIndex(front, b, j);
      AtIndex(a, xs, i);
      AtIndex(a, xs, j);
      assert xs[i - |a|] == x && xs[j - |a|] == y;
    }
  }

  predicate Precedes(order: seq<nat>, x: nat, y: nat) {
    exists i, j :: 0 <= i < j < |order| && order[i] == x && order[j] == y
  }

  // ---------------------------------------------------------------- from siblings to the whole tree

  lemma {:induction false} ActiveIsTransitive(d: Diagram, s: nat, p: nat, q: nat)
    requires s < |d.phases| && p < |d.phases| && q < |d.phases| && Active(d, s, p) && Active(d, p, q)
    ensures Active(d, s, q)
    decreases q
  {
    ActiveIsBelow(d, s, p);
    ActiveIsBelow(d, p, q);
    if q != p {
      ActiveIsTransitive(d, s, p, d.phases[q].parent.value);
    }
  }

  /** What a pass reaches from `p` splits around what it reaches from an active phase below. */
  lemma {:induction false} VisitSplits(d: Diagram, orders: Orders, s: nat, p: nat, q: nat) returns (a: seq<nat>, b: seq<nat>)
    requires s < |d.phases| && p < |d.phases| && q < |d.phases| && OrdersEverything(d, s, orders)
    requires Active(d, s, p) && Active(d, p, q)
    ensures Visit(d, orders, p) == a + Visit(d, orders, q) + b
    ensures Outside(d, q, a) && Outside(d, q, b)
    decreases q
  {
    if q == p {
      a, b := [], [];
    } else {
      var r := d.phases[q].parent.value;
      ActiveIsTransitive(d, s, p, r);
      var a1, b1 := VisitSplits(d, orders, s, p, r);
      var a2, b2 := ChildSplits(d, orders, r, q);
      a, b := a1 + a2, b2 + b1;
      OutsideParent(d, r, q, a1);
      OutsideParent(d, r, q, b1);
      Regroup(a1, a2, Visit(d, orders, q), b2, b1);
    }
  }

  lemma OutsideParent(d: Diagram, r: nat, q: nat, xs: seq<nat>)
    requires r < |d.phases| && q < |d.phases| && q in ActiveChildren(d, r) && Outside(d, r, xs)
    ensures Outside(d, q, xs)
  {
    var i :| 0 <= i < |ActiveChildren(d, r)| && ActiveChildren(d, r)[i] == q;
    forall x | x in xs ensures !InSubtree(d, q, x) {
      assert !InSubtree(d, r, x);
    }
  }

  lemma Regroup(a1: seq<nat>, a2: seq<nat>, xs: seq<nat>, b2: seq<nat>, b1: seq<nat>)
    ensures a1 + (a2 + xs + b2) + b1 == (a1 + a2) + xs + (b2 + b1)
  {
  }

  lemma ChildSplits(d: Diagram, orders: Orders, p: nat, q: nat) returns (a: seq<nat>, b: seq<nat>)
    requires p < |d.phases| && q < |d.phases| && q in ActiveChildren(d, p) && p < q
    requires d.phases[p].kind.Mix? ==> p in orders && IsOrder(orders[p], |d.phases[p].children|)
    ensures Visit(d, orders, p) == a + Visit(d, orders, q) + b
    ensures Outside(d, q, a) && Outside(d, q, b)
  {
    if d.phases[p].kind.Mix? {
      var k: nat :| k < |d.phases[p].children| && d.phases[p].children[k] == q;
      a, b := MixSplits(d, orders, p, orders[p], k);
    } else {
      a, b := [p], [];
    }
  }

  lemma MixSplits(d: Diagram, orders: Orders, p: nat, order: seq<nat>, k: nat) returns (a: seq<nat>, b: seq<nat>)
    requires p < |d.phases| && k < |d.phases[p].children| && IsOrder(order, |d.phases[p].children|)
    ensures [p] + VisitChildren(d, orders, p, order) == a + Visit(d, orders, Child(d, p, k)) + b
    ensures Outside(d, Child(d, p, k), a) && Outside(d, Child(d, p, k), b)
  {
    assert k in order;
    var i :| 0 <= i < |order| && order[i] == k;
    var early, own, late := VisitChildren(d, orders, p, order[..i]), Visit(d, orders, Child(d, p, k)), VisitChildren(d, orders, p, order[i + 1..]);
    assert VisitChildren(d, orders, p, order) == early + own + late by {
      ChildBlock(d, orders, p, order, i);
    }
    a, b := [p] + early, late;
    OtherChildrenOutside(d, orders, p, order[..i], k);
    OtherChildrenOutside(d, orders, p, order[i + 1..], k);
  }

  lemma ChildBlock(d: Diagram, orders: Orders, p: nat, order: seq<nat>, i: nat)
    requires p < |d.phases| && i < |order| && order[i] < |d.phases[p].children|
    ensures VisitChildren(d, orders, p, order)
         == VisitChildren(d, orders, p, order[..i]) + Visit(d, orders, Child(d, p, order[i]))
            + VisitChildren(d, orders, p, order[i + 1..])
  {
    assert order == order[..i] + order[i..];
    VisitChildrenConcat(d, orders, p, order[..i], order[i..]);
    assert order[i..][1..] == order[i + 1..];
  }

  /** Ordering two children of a mix phase orders everything reached below them. */
  lemma SiblingOrder(d: Diagram, orders: Orders, g: nat, k1: nat, k2: nat, x: nat, y: nat)
    requires g < |d.phases| && d.phases[g].kind.Mix? && g in orders
    requires IsOrder(orders[g], |d.phases[g].children|) && k1 < |d.phases[g].children| && k2 < |d.phases[g].children|
    requires Precedes(orders[g], k1, k2) && k1 != k2
    requires x in Visit(d, orders, Child(d, g, k1)) && y in Visit(d, orders, Child(d, g, k2))
    ensures Before(Visit(d, orders, g), x, y)
  {
    var order := orders[g];
    var i, j :| 0 <= i < j < |order| && order[i] == k1 && order[j] == k2;
    SiblingBlocks(d, orders, g, order, i, j, x, y);
  }

  lemma SiblingBlocks(d: Diagram, orders: Orders, g: nat, order: seq<nat>, i: nat, j: nat, x: nat, y: nat)
    requires g < |d.phases| && i < j < |order| && order[i] < |d.phases[g].children| && order[j] < |d.phases[g].children|
    requires forall m, n :: 0 <= m < n < |order| ==> order[m] != order[n]
    requires x in Visit(d, orders, Child(d, g, order[i])) && y in Visit(d, orders, Child(d, g, order[j]))
    ensures Before([g] + VisitChildren(d, orders, g, order), x, y)
  {
    var front, back := order[..i], order[i + 1..];
    assert order[j] !in front && order[i] !in back;
    var early, own, late := VisitChildren(d, orders, g, front), Visit(d, orders, Child(d, g, order[i])), VisitChildren(d, orders, g, back);
    assert y in late by {
      assert back[j - i - 1] == order[j];
      ChildBlock(d, orders, g, back, j - i - 1);
    }
    assert [g] + VisitChildren(d, orders, g, order) == ([g] + early + own) + late by {
      ChildBlock(d, orders, g, order, i);
      Regroup([g], early, own, late, []);
    }
    assert Before(([g] + early + own) + late, x, y) by {
      BlocksApart(d, orders, g, order[i], order[j], front, back, x, y);
      BeforeBySplit([g] + early + own, late, x, y);
    }
  }

  lemma BlocksApart(d: Diagram, orders: Orders, g: nat, k1: nat, k2: nat, front: seq<nat>, back: seq<nat>, x: nat, y: nat)
    requires g < |d.phases| && k1 < |d.phases[g].children| && k2 < |d.phases[g].children| && k1 != k2
    requires x in Visit(d, orders, Child(d, g, k1)) && y in Visit(d, orders, Child(d, g, k2))
    requires k2 !in front && k1 !in back
    ensures y != g && y !in VisitChildren(d, orders, g, front) && y !in Visit(d, orders, Child(d, g, k1))
    ensures x !in VisitChildren(d, orders, g, back)
  {
    VisitStaysBelow(d, orders, Child(d, g, k1));
    VisitStaysBelow(d, orders, Child(d, g, k2));
    ChildrenApart(d, g, k1, k2);
    OtherChildrenOutside(d, orders, g, front, k2);
    OtherChildrenOutside(d, orders, g, back, k1);
  }

  /** Main result: the order of the two diverging children decides the global order. */
  lemma LocalOrderIsGlobal(d: Diagram, orders: Orders, s: nat, g: nat, k1: nat, k2: nat, x: nat, y: nat)
    requires s < |d.phases| && OrdersEverything(d, s, orders)
    requires g < |d.phases| && Active(d, s, g) && d.phases[g].kind.Mix?
    requires k1 < |d.phases[g].children| && k2 < |d.phases[g].children| && k1 != k2
    requires x < |d.phases| && y < |d.phases| && Active(d, s, x) && Active(d, s, y)
    requires Active(d, Child(d, g, k1), x) && Active(d, Child(d, g, k2), y)
    ensures Precedes(orders[g], k1, k2) ==> Before(Visit(d, orders, s), x, y)
    ensures Before(Visit(d, orders, s), x, y) ==> Precedes(orders[g], k1, k2)
  {
    var c1, c2 := Child(d, g, k1), Child(d, g, k2);
    ReachedBelow(d, orders, s, g, k1, x);
    ReachedBelow(d, orders, s, g, k2, y);
    var a, b := VisitSplits(d, orders, s, s, g);
    ActiveIsBelow(d, s, g);
    ActiveIsBelow(d, c1, x);
    ActiveIsBelow(d, c2, y);
    if Precedes(orders[g], k1, k2) {
      SiblingOrder(d, orders, g, k1, k2, x, y);
      BeforeInside(a, Visit(d, orders, g), b, x, y);
    } else {
      EitherPrecedes(orders[g], |d.phases[g].children|, k1, k2);
      SiblingOrder(d, orders, g, k2, k1, y, x);
      BeforeInside(a, Visit(d, orders, g), b, y, x);
      BeforeIsStrict(Visit(d, orders, s), y, x);
    }
  }

  lemma EitherPrecedes(order: seq<nat>, n: nat, x: nat, y: nat)
    requires IsOrder(order, n) && x < n && y < n && x != y
    ensures Precedes(order, x, y) || Precedes(order, y, x)
  {
    assert x in order && y in order;
    var i :| 0 <= i < |order| && order[i] == x;
    var j :| 0 <= j < |order| && order[j] == y;
  }

  /** An active phase below child `k` of an active mix phase is reached from that child. */
  lemma ReachedBelow(d: Diagram, orders: Orders, s: nat, g: nat, k: nat, x: nat)
    requires s < |d.phases| && OrdersEverything(d, s, orders)
    requires g < |d.phases| && Active(d, s, g) && d.phases[g].kind.Mix? && k < |d.phases[g].children|
    requires x < |d.phases| && Active(d, Child(d, g, k), x)
    ensures x in Visit(d, orders, Child(d, g, k))
  {
    var c := Child(d, g, k);
    ActiveIsBelow(d, s, g);
    assert Active(d, s, c);
    var a, b := VisitSplits(d, orders, s, c, x);
    VisitStaysBelow(d, orders, x);
  }
}
