/** The two graph walks of the execution service: which tasks lie below one, and which fail with one. */
module Downstream {
  import opened Dag
  import opened E = ExecutionState
  import opened Readiness

  // ---- failing what lies below ----

  /** Some of the tasks that must fail have failed, and nothing else has changed. */
  ghost predicate Partly(g: Graph, st0: States, st: States) {
    && st.Keys == st0.Keys
    && forall n :: n in st ==> st[n] == st0[n] || (st[n] == Failure && st0[n] == Pending && Doomed(g, st0, n))
  }

  lemma PartlyMore(g: Graph, st0: States, st: States, n: Name)
    requires Partly(g, st0, st) && n in g && n in st && st[n] == Pending && SomeDep(g, st, n, Failure)
    ensures Partly(g, st0, st[n := Failure])
  {
    var d :| d in g[n] && d in st && st[d] == Failure;
    assert Edge(g, d, n);
    if st0[d] == Failure {
      var p := [d, n];
      assert DoomPath(g, st0, p) && p[1] == n;
    } else {
      var p: seq<Name> :| DoomPath(g, st0, p) && p[|p| - 1] == d;
      DoomPathOn(g, st0, p, n);
    }
    assert Doomed(g, st0, n);
    hide Doomed;
  }

  lemma PartlyDone(g: Graph, st0: States, st: States)
    requires Partly(g, st0, st) && forall n :: n in st && n in g && st[n] == Pending ==> !SomeDep(g, st, n, Failure)
    ensures st == FailDownstream(g, st0)
  {
    var failed := set n | n in st && st[n] == Failure;
    FailDownstreamIsLeast(g, st0, failed);
    forall n | n in st0 ensures st[n] == FailDownstream(g, st0)[n] {
      if Doomed(g, st0, n) { assert n in failed; }
    }
  }

  function PendingOf(st: States): set<Name> { set n | n in st && st[n] == Pending }

  lemma FewerLeft(st: States, n: Name)
    requires n in st && st[n] == Pending
    ensures PendingOf(st[n := Failure]) < PendingOf(st) && |PendingOf(st[n := Failure])| < |PendingOf(st)|
  {
    assert PendingOf(st) == PendingOf(st[n := Failure]) + {n};
  }

  // ---- listing what lies below ----

  function ChildrenOf(children: map<Name, seq<Name>>, n: Name): seq<Name> { if n in children then children[n] else [] }

  /** `children` lists, for every task, exactly those that depend on it. */
  ghost predicate ListsChildren(g: Graph, children: map<Name, seq<Name>>) {
    forall n, c {:trigger c in ChildrenOf(children, n)} :: c in ChildrenOf(children, n) <==> Edge(g, n, c)
  }

  /** The first `i` rows, and of the next row the first `j` dependencies, are entered. */
  ghost predicate Entered(g: Graph, order: seq<Name>, children: map<Name, seq<Name>>, i: nat, j: nat) {
    && i <= |order| && (i < |order| ==> order[i] in g && j <= |g[order[i]]|)
    && forall n, c {:trigger c in ChildrenOf(children, n)} :: c in ChildrenOf(children, n) <==>
         (c in g && ((c in order[..i] && n in g[c]) || (i < |order| && c == order[i] && n in g[c][..j])))
  }

  lemma RowsInGraph(g: Graph, order: seq<Name>)
    requires g.Keys == Elements(order)
    ensures forall i :: 0 <= i < |order| ==> order[i] in g
  {
    forall i | 0 <= i < |order| ensures order[i] in g { assert order[i] in Elements(order); }
  }

  method Children(order: seq<Name>, graph: Graph) returns (children: map<Name, seq<Name>>)
    requires graph.Keys == Elements(order)
    ensures ListsChildren(graph, children)
  {
    RowsInGraph(graph, order);
    children := map[];
    for i := 0 to |order|
      invariant Entered(graph, order, children, i, 0)
    {
      assert order[i] in Elements(order);
      var dependencies := graph[order[i]];
      for j := 0 to |dependencies|
        invariant Entered(graph, order, children, i, j)
      {
        EnterOne(graph, order, children, i, j);
        children := children[dependencies[j] := ChildrenOf(children, dependencies[j]) + [order[i]]];
      }
      EnterNext(graph, order, children, i);
    }
    AllEntered(graph, order, children);
  }

  lemma EnterOne(g: Graph, order: seq<Name>, children: map<Name, seq<Name>>, i: nat, j: nat)
    requires i < |order| && order[i] in g && j < |g[order[i]]| && Entered(g, order, children, i, j)
    ensures var d := g[order[i]][j]; Entered(g, order, children[d := ChildrenOf(children, d) + [order[i]]], i, j + 1)
  {
    var deps := g[order[i]];
    var d := deps[j];
    var children' := children[d := ChildrenOf(children, d) + [order[i]]];
    assert deps[..j + 1] == deps[..j] + [d];
    forall n, c ensures c in ChildrenOf(children', n) <==>
      c in g && ((c in order[..i] && n in g[c]) || (c == order[i] && n in g[c][..j + 1]))
    {
      assert c in ChildrenOf(children, n) <==>
        c in g && ((c in order[..i] && n in g[c]) || (c == order[i] && n in g[c][..j]));
      assert ChildrenOf(children', n)
        == if n == d then ChildrenOf(children, d) + [order[i]] else ChildrenOf(children, n);
    }
  }

  lemma EnterNext(g: Graph, order: seq<Name>, children: map<Name, seq<Name>>, i: nat)
    requires i < |order| && order[i] in g && Entered(g, order, children, i, |g[order[i]]|)
    requires i + 1 < |order| ==> order[i + 1] in g
    ensures Entered(g, order, children, i + 1, 0)
  {
    assert g[order[i]][..|g[order[i]]|] == g[order[i]];
    assert order[..i + 1] == order[..i] + [order[i]];
    forall n, c ensures c in ChildrenOf(children, n) <==>
      c in g && ((c in order[..i + 1] && n in g[c]) || (i + 1 < |order| && c == order[i + 1] && n in g[c][..0]))
    {
    }
  }

  lemma AllEntered(g: Graph, order: seq<Name>, children: map<Name, seq<Name>>)
    requires g.Keys == Elements(order) && Entered(g, order, children, |order|, 0)
    ensures ListsChildren(g, children)
  {
    assert order[..|order|] == order;
    forall n, c ensures c in ChildrenOf(children, n) <==> Edge(g, n, c) {
      assert c in g <==> c in Elements(order);
    }
  }

  /** What was found or is still to be looked at is below `n`, and holds all children of `n` and of what was found. */
  ghost predicate Exploring(g: Graph, n: Name, found: set<Name>, stack: seq<Name>) {
    && (forall m :: m in found || m in stack ==> Reaches(g, n, m))
    && (forall c :: Edge(g, n, c) ==> c in found || c in stack)
    && (forall m, c :: m in found && Edge(g, m, c) ==> c in found || c in stack)
    && found <= g.Keys
  }

  /** `_downstream_names`: exactly the tasks one or more dependency edges below `n`, on any graph, cyclic or not. */
  method DownstreamNames(order: seq<Name>, graph: Graph, n: Name) returns (found: set<Name>)
    requires graph.Keys == Elements(order)
    ensures forall m :: m in found <==> Reaches(graph, n, m)
  {
    var children := Children(order, graph);
    found := {};
    var stack := ChildrenOf(children, n);
    StartExploring(graph, n, children);
    hide Exploring, Reaches;
    while stack != []
      invariant Exploring(graph, n, found, stack)
      decreases |graph.Keys - found|, |stack|
    {
      var current := stack[|stack| - 1];
      var rest := stack[..|stack| - 1];
      assert stack == rest + [current];
      if current in found {
        SkipFound(graph, n, found, rest, current);
        stack := rest;
      } else {
        Explore(graph, n, found, rest, current, ChildrenOf(children, current));
        FewerUnfound(graph.Keys, found, current);
        found := found + {current};
        stack := rest + ChildrenOf(children, current);
      }
    }
    FoundAll(graph, n, found);
  }

  lemma StartExploring(g: Graph, n: Name, children: map<Name, seq<Name>>)
    requires ListsChildren(g, children)
    ensures Exploring(g, n, {}, ChildrenOf(children, n))
  {
    forall c | c in ChildrenOf(children, n) ensures Reaches(g, n, c) { EdgeReaches(g, n, c); }
    hide Reaches;
  }

  lemma SkipFound(g: Graph, n: Name, found: set<Name>, rest: seq<Name>, current: Name)
    requires Exploring(g, n, found, rest + [current]) && current in found
    ensures Exploring(g, n, found, rest)
  {
    hide Reaches;
  }

  lemma FewerUnfound(all: set<Name>, found: set<Name>, current: Name)
    requires current in all && current !in found
    ensures |all - (found + {current})| < |all - found|
  {
    assert all - found == (all - (found + {current})) + {current};
  }

  lemma Explore(g: Graph, n: Name, found: set<Name>, rest: seq<Name>, current: Name, below: seq<Name>)
    requires Exploring(g, n, found, rest + [current]) && forall c :: c in below <==> Edge(g, current, c)
    ensures Exploring(g, n, found + {current}, rest + below) && current in g
  {
    assert current in rest + [current];
    ReachesLastEdge(g, n, current);
    forall c | c in below ensures Reaches(g, n, c) {
      EdgeReaches(g, current, c);
      ReachesTransitive(g, n, current, c);
    }
    hide Reaches;
  }

  lemma {:induction false} PathFound(g: Graph, n: Name, found: set<Name>, p: seq<Name>, i: nat)
    requires Exploring(g, n, found, []) && IsPath(g, p) && 1 <= i < |p| && p[0] == n
    ensures p[i] in found
  {
    assert Edge(g, p[i - 1], p[i]);
    if i > 1 { PathFound(g, n, found, p, i - 1); }
  }

  lemma FoundAll(g: Graph, n: Name, found: set<Name>)
    requires Exploring(g, n, found, [])
    ensures forall m :: m in found <==> Reaches(g, n, m)
  {
    forall m | Reaches(g, n, m) ensures m in found {
      var p: seq<Name> :| |p| >= 2 && p[0] == n && p[|p| - 1] == m && IsPath(g, p);
      PathFound(g, n, found, p, |p| - 1);
    }
  }
}
