/** Dependency graphs: the mathematics shared by the backend's validator, the
    builder's cycle check and the execution engine. */
module Dag {

  /** Task names are only ever compared for equality, so any countable set of
      identifiers will do. */
  type Name = nat

  /** Maps every task to the list of tasks it depends on (repeats allowed). */
  type Graph = map<Name, seq<Name>>

  /** `b` depends directly on `a`. */
  predicate Edge(g: Graph, a: Name, b: Name) {
    b in g && a in g[b]
  }

  /** Every dependency names a task of the graph. */
  ghost predicate Known(g: Graph) {
    forall n, d :: n in g && d in g[n] ==> d in g
  }

  ghost predicate IsPath(g: Graph, p: seq<Name>) {
    forall i :: 0 <= i < |p| - 1 ==> Edge(g, p[i], p[i + 1])
  }

  /** `b` is downstream of `a`: one or more dependency edges lead from `a` to `b`. */
  ghost predicate Reaches(g: Graph, a: Name, b: Name) {
    exists p: seq<Name> :: |p| >= 2 && p[0] == a && p[|p| - 1] == b && IsPath(g, p)
  }

  ghost predicate Acyclic(g: Graph) {
    forall n :: !Reaches(g, n, n)
  }

  predicate Distinct(s: seq<Name>) {
    forall i, j :: 0 <= i < j < |s| ==> s[i] != s[j]
  }

  function Elements(s: seq<Name>): set<Name> {
    set n | n in s
  }

  /** A dependencies-first listing: each listed task comes after everything it depends on. */
  ghost predicate DependenciesFirst(g: Graph, order: seq<Name>) {
    && Distinct(order)
    && (forall i :: 0 <= i < |order| ==> order[i] in g)
    && (forall i, d :: 0 <= i < |order| && d in g[order[i]] ==> d in order[..i])
  }

  ghost predicate Lists(g: Graph, order: seq<Name>) {
    forall n :: n in g <==> n in order
  }

  lemma EdgeReaches(g: Graph, a: Name, b: Name)
    requires Edge(g, a, b)
    ensures Reaches(g, a, b)
  {
    var p := [a, b];
    assert IsPath(g, p);
  }

  lemma ReachesTransitive(g: Graph, a: Name, b: Name, c: Name)
    requires Reaches(g, a, b) && Reaches(g, b, c)
    ensures Reaches(g, a, c)
  {
    var p: seq<Name> :| |p| >= 2 && p[0] == a && p[|p| - 1] == b && IsPath(g, p);
    var q: seq<Name> :| |q| >= 2 && q[0] == b && q[|q| - 1] == c && IsPath(g, q);
    var r := p + q[1..];
    forall i | 0 <= i < |r| - 1
      ensures Edge(g, r[i], r[i + 1])
    {
      if i >= |p| - 1 {
        assert r[i] == q[i - |p| + 1] && r[i + 1] == q[i - |p| + 2];
      }
    }
    assert r[|r| - 1] == c;
  }

  /** Reachability splits at its last edge. */
  lemma ReachesLastEdge(g: Graph, a: Name, b: Name)
    requires Reaches(g, a, b)
    ensures b in g && exists d :: d in g[b] && (d == a || Reaches(g, a, d))
  {
    var p: seq<Name> :| |p| >= 2 && p[0] == a && p[|p| - 1] == b && IsPath(g, p);
    var d := p[|p| - 2];
    assert Edge(g, d, b);
    if |p| > 2 {
      var q := p[..|p| - 1];
      assert IsPath(g, q) by {
        forall i | 0 <= i < |q| - 1 ensures Edge(g, q[i], q[i + 1]) { assert Edge(g, p[i], p[i + 1]); }
      }
      assert Reaches(g, a, d);
    }
  }

  // ---- a set of tasks each waiting for another of the set contains a cycle ----

  lemma {:induction false} Pigeonhole(p: seq<Name>, s: set<Name>)
    requires forall n :: n in p ==> n in s
    requires |p| > |s|
    ensures !Distinct(p)
  {
    if Distinct(p) {
      var last := p[|p| - 1];
      var front := p[..|p| - 1];
      assert last in p;
      forall n | n in front ensures n in s - {last} {
        assert n in p;
      }
      if |front| > |s - {last}| {
        Pigeonhole(front, s - {last});
      }
      assert false;
    }
  }

  /** `n` depends on some member of `s`. */
  ghost predicate WaitsFor(g: Graph, s: set<Name>, n: Name) {
    n in g && exists d :: d in g[n] && d in s
  }

  /** Every member of `s` depends on another member of `s`. */
  ghost predicate MutualWait(g: Graph, s: set<Name>) {
    s != {} && forall n {:trigger WaitsFor(g, s, n)} :: n in s ==> WaitsFor(g, s, n)
  }

  /** Walking from a task to one it waits for, `k` times, never leaves the set. */
  lemma {:induction false} BackwardWalk(g: Graph, s: set<Name>, k: nat) returns (p: seq<Name>)
    requires MutualWait(g, s)
    ensures |p| == k + 1 && IsPath(g, p) && forall n :: n in p ==> n in s
  {
    if k == 0 {
      var n :| n in s;
      p := [n];
    } else {
      var q := BackwardWalk(g, s, k - 1);
      assert q[0] in s && WaitsFor(g, s, q[0]);
      var d :| d in g[q[0]] && d in s;
      p := [d] + q;
      forall i | 0 <= i < |p| - 1 ensures Edge(g, p[i], p[i + 1]) {
        if i > 0 { assert Edge(g, q[i - 1], q[i]); }
      }
    }
  }

  lemma MutualWaitIsCycle(g: Graph, s: set<Name>)
    requires MutualWait(g, s)
    ensures !Acyclic(g)
  {
    var p := BackwardWalk(g, s, |s|);
    Pigeonhole(p, s);
    var i, j :| 0 <= i < j < |p| && p[i] == p[j];
    var c := p[i..j + 1];
    forall k | 0 <= k < |c| - 1 ensures Edge(g, c[k], c[k + 1]) {
      assert Edge(g, p[i + k], p[i + k + 1]);
    }
    assert Reaches(g, p[i], p[i]);
  }

  lemma {:induction false} DistinctCount(p: seq<Name>)
    requires Distinct(p)
    ensures |Elements(p)| == |p|
  {
    if p == [] {
    } else {
      var front := p[..|p| - 1];
      var last := p[|p| - 1];
      DistinctCount(front);
      assert last !in Elements(front);
      assert Elements(p) == Elements(front) + {last};
    }
  }

  // ---- listings and acyclicity ----

  lemma {:induction false} PathAscends(g: Graph, order: seq<Name>, p: seq<Name>)
    requires DependenciesFirst(g, order) && Lists(g, order)
    requires |p| >= 2 && IsPath(g, p)
    ensures exists i, j :: 0 <= i < j < |order| && order[i] == p[0] && order[j] == p[|p| - 1]
  {
    var b := p[|p| - 1];
    var a := p[|p| - 2];
    assert Edge(g, a, b);
    var j :| 0 <= j < |order| && order[j] == b;
    var k :| 0 <= k < j && order[k] == a;
    if |p| > 2 {
      var q := p[..|p| - 1];
      forall i | 0 <= i < |q| - 1 ensures Edge(g, q[i], q[i + 1]) { assert Edge(g, p[i], p[i + 1]); }
      PathAscends(g, order, q);
      var i, k' :| 0 <= i < k' < |order| && order[i] == q[0] && order[k'] == q[|q| - 1];
      assert k' == k;
      assert order[i] == p[0] && order[j] == p[|p| - 1] && i < j;
    }
  }

  lemma ListingMeansAcyclic(g: Graph, order: seq<Name>)
    requires DependenciesFirst(g, order) && Lists(g, order)
    ensures Acyclic(g)
  {
    forall n ensures !Reaches(g, n, n) {
      if Reaches(g, n, n) {
        var p: seq<Name> :| |p| >= 2 && p[0] == n && p[|p| - 1] == n && IsPath(g, p);
        PathAscends(g, order, p);
        assert false;
      }
    }
  }

  lemma {:induction false} ExtendListing(g: Graph, order: seq<Name>, left: set<Name>) returns (full: seq<Name>)
    requires Acyclic(g) && Known(g) && DependenciesFirst(g, order)
    requires left == set n | n in g && n !in order
    ensures DependenciesFirst(g, full) && Lists(g, full)
    decreases left
  {
    if left == {} {
      full := order;
      forall n ensures n in g <==> n in full {
        assert n !in left;
      }
    } else {
      if MutualWait(g, left) {
        MutualWaitIsCycle(g, left);
        assert false;
      }
      var n :| n in left && !WaitsFor(g, left, n);
      var more := order + [n];
      forall i, d | 0 <= i < |more| && d in g[more[i]] ensures d in more[..i] {
        if i < |order| {
          assert more[..i] == order[..i];
        } else {
          assert more[..i] == order;
          assert d in g && d !in left;
        }
      }
      assert left - {n} == set m | m in g && m !in more;
      full := ExtendListing(g, more, left - {n});
    }
  }

  /** A valid graph can always be listed dependencies-first. */
  lemma AcyclicMeansListing(g: Graph) returns (order: seq<Name>)
    requires Acyclic(g) && Known(g)
    ensures DependenciesFirst(g, order) && Lists(g, order)
  {
    order := ExtendListing(g, [], set n | n in g);
  }
}
