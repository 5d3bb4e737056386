/** Finite dependency graphs: a node is mapped to the list of nodes it depends on. */
module Graphs {

  type Graph<T(==)> = map<T, seq<T>>

  predicate Edge<T(==)>(g: Graph<T>, a: T, b: T) {
    a in g && b in g[a]
  }

  predicate IsWalk<T(==)>(g: Graph<T>, w: seq<T>) {
    w != [] && forall i :: 0 <= i < |w| - 1 ==> Edge(g, w[i], w[i + 1])
  }

  ghost predicate WalkFromTo<T>(g: Graph<T>, w: seq<T>, a: T, b: T) {
    IsWalk(g, w) && |w| >= 2 && w[0] == a && w[|w| - 1] == b
  }

  /** a depends on b, directly or through others. */
  ghost predicate Reaches<T(!new)>(g: Graph<T>, a: T, b: T) {
    exists w :: WalkFromTo(g, w, a, b)
  }

  ghost predicate Acyclic<T(!new)>(g: Graph<T>) {
    forall a :: !Reaches(g, a, a)
  }

  lemma CycleWitness<T(!new)>(g: Graph<T>) returns (a: T)
    requires !Acyclic(g)
    ensures Reaches(g, a, a)
  {
    a :| Reaches(g, a, a);
  }

  lemma EdgeReaches<T(!new)>(g: Graph<T>, a: T, b: T)
    requires Edge(g, a, b)
    ensures Reaches(g, a, b)
  {
    assert WalkFromTo(g, [a, b], a, b);
  }

  lemma ReachesThenEdge<T(!new)>(g: Graph<T>, a: T, b: T, c: T)
    requires Reaches(g, a, b) && Edge(g, b, c)
    ensures Reaches(g, a, c)
  {
    var w :| WalkFromTo(g, w, a, b);
    assert WalkFromTo(g, w + [c], a, c);
  }

  lemma EdgeThenReaches<T(!new)>(g: Graph<T>, a: T, b: T, c: T)
    requires Edge(g, a, b) && Reaches(g, b, c)
    ensures Reaches(g, a, c)
  {
    var w :| WalkFromTo(g, w, b, c);
    var v := [a] + w;
    forall i | 0 <= i < |v| - 1 ensures Edge(g, v[i], v[i + 1]) {
      if i > 0 { assert v[i] == w[i - 1] && v[i + 1] == w[i]; }
    }
    assert WalkFromTo(g, v, a, c);
  }

  /** A set that holds the direct dependencies of a and is closed under dependency holds all it reaches. */
  lemma {:induction false} ClosedHoldsReachable<T(!new)>(g: Graph<T>, a: T, s: set<T>, c: T)
    requires forall x :: Edge(g, a, x) ==> x in s
    requires forall x, y :: x in s && Edge(g, x, y) ==> y in s
    requires Reaches(g, a, c)
    ensures c in s
  {
    var w :| WalkFromTo(g, w, a, c);
    assert Edge(g, w[0], w[1]);
    StayInside(g, w, 1, s);
  }

  lemma {:induction false} StayInside<T(!new)>(g: Graph<T>, w: seq<T>, i: nat, s: set<T>)
    requires IsWalk(g, w) && i < |w| && w[i] in s
    requires forall x, y :: x in s && Edge(g, x, y) ==> y in s
    ensures w[|w| - 1] in s
    decreases |w| - i
  {
    if i + 1 < |w| {
      assert Edge(g, w[i], w[i + 1]);
      StayInside(g, w, i + 1, s);
    }
  }

  /** Every edge of g is an edge of h. */
  ghost predicate Extends<T(!new)>(h: Graph<T>, g: Graph<T>) {
    forall a, b :: Edge(g, a, b) ==> Edge(h, a, b)
  }

  lemma ReachesMore<T(!new)>(g: Graph<T>, h: Graph<T>, a: T, b: T)
    requires Extends(h, g) && Reaches(g, a, b)
    ensures Reaches(h, a, b)
  {
    var w :| WalkFromTo(g, w, a, b);
    assert WalkFromTo(h, w, a, b);
  }

  /** A walk longer than the number of nodes visits some node twice. */
  lemma {:induction false} Pigeonhole<T>(w: seq<T>, s: set<T>)
    requires (forall i :: 0 <= i < |w| ==> w[i] in s) && |w| > |s|
    ensures exists i, j :: 0 <= i < j < |w| && w[i] == w[j]
  {
    if forall j :: 1 <= j < |w| ==> w[j] != w[0] {
      var rest := w[1..];
      forall i | 0 <= i < |rest| ensures rest[i] in s - {w[0]} {
        assert rest[i] == w[i + 1];
      }
      Pigeonhole(rest, s - {w[0]});
      var i, j :| 0 <= i < j < |rest| && rest[i] == rest[j];
      assert w[i + 1] == w[j + 1];
    } else {
      var j :| 1 <= j < |w| && w[j] == w[0];
      assert w[0] == w[j];
    }
  }

  lemma WalkSlice<T(!new)>(g: Graph<T>, w: seq<T>, i: nat, j: nat)
    requires IsWalk(g, w) && i < j < |w|
    ensures Reaches(g, w[i], w[j])
  {
    var v := w[i..j + 1];
    forall k | 0 <= k < |v| - 1 ensures Edge(g, v[k], v[k + 1]) {
      assert v[k] == w[i + k] && v[k + 1] == w[i + k + 1];
    }
    assert WalkFromTo(g, v, w[i], w[j]);
  }
}
