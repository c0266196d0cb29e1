/** Dependency graphs as adjacency lists, cycles, and orders that list dependencies first. */
module Graphs {

  type Graph<T> = map<T, seq<T>>

  // A node that is no key of the graph has no successors (a dangling reference).
  function Succ<T(==)>(g: Graph<T>, v: T): seq<T> {
    if v in g then g[v] else []
  }

  predicate Edge<T(==)>(g: Graph<T>, u: T, v: T) {
    v in Succ(g, u)
  }

  ghost function Nodes<T>(g: Graph<T>): set<T> {
    g.Keys + set k, v | k in g && v in g[k] :: v
  }

  ghost predicate Walk<T>(g: Graph<T>, p: seq<T>) {
    forall i, j :: 0 <= i < j < |p| && j == i + 1 ==> Edge(g, p[i], p[j])
  }

  /** A walk of at least one edge leads from u to v. */
  ghost predicate Reaches<T(!new)>(g: Graph<T>, u: T, v: T) {
    exists p: seq<T> :: |p| >= 2 && p[0] == u && p[|p| - 1] == v && Walk(g, p)
  }

  ghost predicate HasCycle<T(!new)>(g: Graph<T>) {
    exists v: T :: Reaches(g, v, v)
  }

  lemma EdgeReaches<T(!new)>(g: Graph<T>, u: T, v: T)
    requires Edge(g, u, v)
    ensures Reaches(g, u, v)
  {
    assert Walk(g, [u, v]);
  }

  lemma ReachesThenEdge<T(!new)>(g: Graph<T>, u: T, v: T, w: T)
    requires Reaches(g, u, v) && Edge(g, v, w)
    ensures Reaches(g, u, w)
  {
    var p :| |p| >= 2 && p[0] == u && p[|p| - 1] == v && Walk(g, p);
    assert Walk(g, p + [w]);
    assert (p + [w])[|p + [w]| - 1] == w;
  }

  lemma EdgeThenReaches<T(!new)>(g: Graph<T>, u: T, v: T, w: T)
    requires Edge(g, u, v) && Reaches(g, v, w)
    ensures Reaches(g, u, w)
  {
    var p: seq<T> :| |p| >= 2 && p[0] == v && p[|p| - 1] == w && Walk(g, p);
    assert Walk(g, [u] + p);
    assert ([u] + p)[|[u] + p| - 1] == w;
  }

  predicate StepAt<T(==)>(g: Graph<T>, p: seq<T>, i: nat) {
    i + 1 < |p| && Edge(g, p[i], p[i + 1])
  }

  lemma WalkStep<T(!new)>(g: Graph<T>, p: seq<T>, i: nat)
    requires Walk(g, p) && i + 1 < |p|
    ensures StepAt(g, p, i)
  {
  }

  lemma {:induction false} StepsReach<T(!new)>(g: Graph<T>, p: seq<T>, n: nat)
    requires 0 < n < |p| && forall i :: 0 <= i < n ==> StepAt(g, p, i)
    ensures Reaches(g, p[0], p[n])
  {
    hide Reaches;
    assert StepAt(g, p, n - 1);
    if n == 1 {
      EdgeReaches(g, p[0], p[1]);
    } else {
      StepsReach(g, p, n - 1);
      ReachesThenEdge(g, p[0], p[n - 1], p[n]);
    }
  }

  lemma CycleCarries<T(!new)>(g: Graph<T>, h: Graph<T>)
    requires forall u, v :: Edge(g, u, v) ==> Edge(h, u, v)
    ensures HasCycle(g) ==> HasCycle(h)
  {
    if v :| Reaches(g, v, v) {
      var p: seq<T> :| |p| >= 2 && p[0] == v && p[|p| - 1] == v && Walk(g, p);
      assert Walk(h, p);
      assert Reaches(h, v, v);
    }
  }

  predicate Distinct<T(==)>(s: seq<T>) {
    forall i, j :: 0 <= i < j < |s| ==> s[i] != s[j]
  }

  lemma DistinctJoin<T>(a: seq<T>, b: seq<T>)
    requires Distinct(a) && Distinct(b) && forall x :: x in a ==> x !in b
    ensures Distinct(a + b)
  {
    var s := a + b;
    forall i, j | 0 <= i < j < |s| ensures s[i] != s[j] {
      if i < |a| <= j {
        assert s[i] in a && s[j] in b;
      }
    }
  }

  /** Every successor of a listed node is listed earlier. */
  ghost predicate DependenciesFirst<T>(g: Graph<T>, order: seq<T>) {
    forall i, v :: 0 <= i < |order| && v in Succ(g, order[i]) ==> v in order[..i]
  }

  ghost function Position<T>(order: seq<T>, v: T): (i: nat)
    requires v in order
    ensures i < |order| && order[i] == v
  {
    var i :| 0 <= i < |order| && order[i] == v; i
  }

  lemma PositionDrops<T(!new)>(g: Graph<T>, order: seq<T>, u: T, v: T)
    requires Distinct(order) && DependenciesFirst(g, order)
    requires u in order && Edge(g, u, v)
    ensures v in order && Position(order, v) < Position(order, u)
  {
    var i := Position(order, u);
    assert v in order[..i];
    var k :| 0 <= k < i && order[k] == v;
  }

  // Positions fall along a walk that stays inside the order.
  lemma {:induction false} PositionDropsAlong<T(!new)>(g: Graph<T>, order: seq<T>, p: seq<T>, n: nat)
    requires Distinct(order) && DependenciesFirst(g, order)
    requires Walk(g, p) && n < |p| && p[0] in order
    ensures p[n] in order && Position(order, p[n]) + n <= Position(order, p[0])
  {
    if n > 0 {
      PositionDropsAlong(g, order, p, n - 1);
      assert Edge(g, p[n - 1], p[n]);
      PositionDrops(g, order, p[n - 1], p[n]);
    }
  }

  /** An order that lists dependencies first rules out every cycle. */
  lemma OrderedIsAcyclic<T(!new)>(g: Graph<T>, order: seq<T>)
    requires Distinct(order) && DependenciesFirst(g, order)
    requires forall v :: v in g ==> v in order
    ensures !HasCycle(g)
  {
    if v :| Reaches(g, v, v) {
      var p :| |p| >= 2 && p[0] == v && p[|p| - 1] == v && Walk(g, p);
      assert Edge(g, p[0], p[1]);
      PositionDropsAlong(g, order, p, |p| - 1);
      assert false;
    }
  }

  // Pigeonhole: distinct elements of a finite set.
  lemma {:induction false} DistinctFits<T>(s: seq<T>, u: set<T>)
    requires Distinct(s) && forall x :: x in s ==> x in u
    ensures |s| <= |u|
  {
    if s != [] {
      var last := s[|s| - 1];
      var front := s[..|s| - 1];
      forall x | x in front ensures x in u - {last} {
        var i :| 0 <= i < |front| && front[i] == x;
        assert s[i] == x;
      }
      DistinctFits(front, u - {last});
    }
  }

  ghost predicate LeadsInto<T>(g: Graph<T>, u: set<T>, x: T) {
    exists y :: y in u && y in Succ(g, x)
  }

  ghost predicate Sinkless<T>(g: Graph<T>, u: set<T>) {
    forall x {:trigger LeadsInto(g, u, x)} :: x in u ==> LeadsInto(g, u, x)
  }

  lemma {:induction false} WalkInside<T(!new)>(g: Graph<T>, u: set<T>, start: T, n: nat) returns (p: seq<T>)
    requires start in u
    requires Sinkless(g, u)
    ensures |p| == n + 1 && Walk(g, p) && forall x :: x in p ==> x in u
  {
    if n == 0 {
      p := [start];
    } else {
      var q := WalkInside(g, u, start, n - 1);
      assert LeadsInto(g, u, q[|q| - 1]);
      var y :| y in u && y in Succ(g, q[|q| - 1]);
      p := q + [y];
    }
  }

  /** A non-empty finite set in which every node has a successor contains a cycle. */
  lemma SinklessHasCycle<T(!new)>(g: Graph<T>, u: set<T>)
    requires u != {}
    requires Sinkless(g, u)
    ensures HasCycle(g)
  {
    var start :| start in u;
    var p := WalkInside(g, u, start, |u|);
    if Distinct(p) {
      DistinctFits(p, u);
      assert false;
    }
    var i, j :| 0 <= i < j < |p| && p[i] == p[j];
    var c := p[i..j + 1];
    assert Walk(g, c) by {
      forall k, l | 0 <= k < l < |c| && l == k + 1 ensures Edge(g, c[k], c[l]) {
        assert Edge(g, p[i + k], p[i + l]);
      }
    }
    assert c[0] == p[i] && c[|c| - 1] == p[j];
    assert Reaches(g, p[i], p[i]);
  }

  lemma AppendLast<T(!new)>(g: Graph<T>, order: seq<T>, x: T)
    requires DependenciesFirst(g, order) && forall v :: v in Succ(g, x) ==> v in order
    ensures DependenciesFirst(g, order + [x])
  {
    var longer := order + [x];
    forall i, v | 0 <= i < |longer| && v in Succ(g, longer[i]) ensures v in longer[..i] {
      assert longer[..i] == order[..i];
    }
  }

  lemma FreeNode<T(!new)>(g: Graph<T>, order: seq<T>, rest: set<T>) returns (x: T)
    requires !HasCycle(g) && rest != {}
    requires rest == Nodes(g) - set v | v in order
    ensures x in rest && forall y :: y in Succ(g, x) ==> y in order
  {
    if Sinkless(g, rest) {
      SinklessHasCycle(g, rest);
      assert false;
    }
    x :| x in rest && !LeadsInto(g, rest, x);
    forall y | y in Succ(g, x) ensures y in order {
      assert y in Nodes(g);
    }
  }

  lemma {:induction false} ExtendOrder<T(!new)>(g: Graph<T>, order: seq<T>) returns (full: seq<T>)
    requires !HasCycle(g)
    requires Distinct(order) && DependenciesFirst(g, order)
    requires forall v :: v in order ==> v in Nodes(g)
    ensures Distinct(full) && DependenciesFirst(g, full)
    ensures forall v :: v in full <==> v in Nodes(g)
    decreases |Nodes(g) - set v | v in order|
  {
    var rest := Nodes(g) - set v | v in order;
    if rest == {} {
      full := order;
      forall v | v in Nodes(g) ensures v in full {
        assert v !in rest;
      }
    } else {
      var x := FreeNode(g, order, rest);
      var longer := order + [x];
      assert (set v | v in longer) == (set v | v in order) + {x};
      assert Nodes(g) - (set v | v in longer) == rest - {x};
      AppendLast(g, order, x);
      full := ExtendOrder(g, longer);
    }
  }

  /** A graph has no cycle exactly when its nodes can be listed dependencies first. */
  lemma AcyclicIffOrdered<T(!new)>(g: Graph<T>)
    ensures !HasCycle(g) <==>
      exists order: seq<T> :: Distinct(order) && DependenciesFirst(g, order) && forall v :: v in g ==> v in order
  {
    if !HasCycle(g) {
      var order := ExtendOrder(g, []);
    }
    if order: seq<T> :| Distinct(order) && DependenciesFirst(g, order) && forall v :: v in g ==> v in order {
      OrderedIsAcyclic(g, order);
    }
  }
}
