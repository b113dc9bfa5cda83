/** The cycle check of the workflow builder, `validateTasks` in `frontend/src/pages/WorkflowBuilderPage.jsx`. */
module BuilderCheck {
  import opened Dag
  import opened Tasks
  import D = DagService

  /** The builder keeps only dependencies that name a task. */
  function KnownOnly(dependencies: seq<Name>, known: set<Name>): seq<Name> {
    if dependencies == [] then []
    else if dependencies[0] in known then [dependencies[0]] + KnownOnly(dependencies[1..], known)
    else KnownOnly(dependencies[1..], known)
  }

  /** The graph the builder searches; a later task of the same name replaces an earlier one. */
  function BuilderGraph(doc: Document, known: set<Name>): Graph {
    if doc == [] then map[]
    else
      var last := doc[|doc| - 1];
      BuilderGraph(doc[..|doc| - 1], known)[last.name := KnownOnly(last.dependencies, known)]
  }

  lemma {:induction false} KnownOnlyIs(dependencies: seq<Name>, known: set<Name>)
    ensures forall d :: d in KnownOnly(dependencies, known) <==> d in dependencies && d in known
    ensures (forall d :: d in dependencies ==> d in known) ==> KnownOnly(dependencies, known) == dependencies
  {
    if dependencies != [] {
      KnownOnlyIs(dependencies[1..], known);
      assert dependencies == [dependencies[0]] + dependencies[1..];
    }
  }

  lemma {:induction false} BuilderGraphIs(doc: Document, known: set<Name>)
    requires NamesOf(doc) <= known
    ensures BuilderGraph(doc, known).Keys == NamesOf(doc)
    ensures forall n, d :: n in BuilderGraph(doc, known) && d in BuilderGraph(doc, known)[n] ==> d in known
  {
    if doc != [] {
      var front, last := doc[..|doc| - 1], doc[|doc| - 1];
      assert NamesOf(doc) == NamesOf(front) + {last.name};
      BuilderGraphIs(front, known);
      KnownOnlyIs(last.dependencies, known);
    }
  }

  /** With unique names, each task has exactly those of its own dependencies that are known. */
  lemma {:induction false} BuilderGraphAt(doc: Document, known: set<Name>, i: nat)
    requires UniqueNames(doc) && i < |doc|
    ensures doc[i].name in BuilderGraph(doc, known)
    ensures forall d :: d in BuilderGraph(doc, known)[doc[i].name] <==> d in doc[i].dependencies && d in known
  {
    if i < |doc| - 1 {
      BuilderGraphAt(doc[..|doc| - 1], known, i);
    } else {
      KnownOnlyIs(doc[i].dependencies, known);
    }
  }

  /** With all dependencies known, the builder's graph is the document's. */
  lemma {:induction false} SameGraph(doc: Document, known: set<Name>)
    requires forall i, j :: 0 <= i < |doc| && 0 <= j < |doc[i].dependencies| ==> doc[i].dependencies[j] in known
    ensures BuilderGraph(doc, known) == GraphOf(doc)
  {
    if doc != [] {
      var front, last := doc[..|doc| - 1], doc[|doc| - 1];
      SameGraph(front, known);
      forall d | d in last.dependencies ensures d in known {
        var j :| 0 <= j < |last.dependencies| && last.dependencies[j] == d;
        assert doc[|doc| - 1].dependencies[j] in known;
      }
      KnownOnlyIs(last.dependencies, known);
    }
  }

  // ---- the search ----

  /** The search's two sets of names, and, for the proof, the visited names in the order they were finished. */
  class CycleFinder {
    const graph: Graph
    var visiting: set<Name>
    var visited: set<Name>
    ghost var finished: seq<Name>

    /** Everything visited is finished, dependencies first, and nothing is both visited and being visited. */
    ghost predicate Valid()
      reads this
    {
      && Known(graph) && visiting <= graph.Keys && visiting !! visited
      && Elements(finished) == visited && DependenciesFirst(graph, finished)
    }

    constructor (graph: Graph)
      requires Known(graph)
      ensures Valid() && this.graph == graph && visiting == {} && visited == {}
    {
      this.graph := graph;
      visiting, visited, finished := {}, {}, [];
      new;
      assert Elements([]) == {};
    }

    /** Everything being visited depends, directly or not, on `name`. */
    ghost predicate Trail(name: Name)
      reads this
    {
      forall v :: v in visiting ==> Reaches(graph, name, v)
    }

    /** Finds a cycle among the tasks `name` depends on, or visits them all. */
    method HasCycle(name: Name) returns (cycle: bool)
      requires Valid() && name in graph && Trail(name)
      modifies this
      ensures cycle ==> !Acyclic(graph)
      ensures !cycle ==> Valid() && visiting == old(visiting) && visited >= old(visited) && name in visited
      decreases |graph.Keys - visiting|
    {
      if name in visiting {
        return true;
      }
      if name in visited {
        return false;
      }
      visiting := visiting + {name};
      ghost var trail := visiting;
      assert graph.Keys - trail < graph.Keys - old(visiting) by { assert name in graph.Keys - old(visiting); }
      Smaller(graph.Keys - trail, graph.Keys - old(visiting));
      var dependencies := graph[name];
      for i := 0 to |dependencies|
        invariant Valid() && visiting == trail && visited >= old(visited)
        invariant forall k :: 0 <= k < i ==> dependencies[k] in visited
      {
        StillTrail(graph, old(visiting), name, dependencies[i]);
        var found := HasCycle(dependencies[i]);
        if found {
          return true;
        }
      }
      visiting := visiting - {name};
      assert visiting == old(visiting);
      ListNext(graph, finished, name);
      finished := finished + [name];
      visited := visited + {name};
      return false;
    }
  }

  lemma Smaller(a: set<Name>, b: set<Name>)
    requires a < b
    ensures |a| < |b|
  {
    assert b == a + (b - a) && |b| == |a| + |b - a|;
  }

  lemma StillTrail(g: Graph, visiting: set<Name>, name: Name, d: Name)
    requires name in g && d in g[name] && forall v :: v in visiting ==> Reaches(g, name, v)
    ensures forall v :: v in visiting + {name} ==> Reaches(g, d, v)
  {
    EdgeReaches(g, d, name);
    forall v | v in visiting ensures Reaches(g, d, v) {
      ReachesTransitive(g, d, name, v);
    }
  }

  lemma ListNext(g: Graph, order: seq<Name>, n: Name)
    requires DependenciesFirst(g, order) && n in g && n !in order
      && forall k :: 0 <= k < |g[n]| ==> g[n][k] in Elements(order)
    ensures DependenciesFirst(g, order + [n]) && Elements(order + [n]) == Elements(order) + {n}
  {
    var more := order + [n];
    forall i, d | 0 <= i < |more| && d in g[more[i]] ensures d in more[..i] {
      if i < |order| {
        assert more[..i] == order[..i];
      } else {
        assert more[..i] == order && d in Elements(order);
      }
    }
  }

  /** The builder complains about a cycle exactly when the graph it built has one. */
  method ReportsCycle(doc: Document) returns (cycle: bool)
    ensures cycle <==> !Acyclic(BuilderGraph(doc, NamesOf(doc)))
  {
    var known := NamesOf(doc);
    var graph := BuildGraph(doc, known);
    BuilderGraphIs(doc, known);
    var finder := new CycleFinder(graph);
    hide Acyclic, DependenciesFirst, Known;
    for i := 0 to |doc|
      invariant finder.Valid() && finder.visiting == {} && finder.graph == graph
      invariant forall k :: 0 <= k < i ==> doc[k].name in finder.visited
    {
      assert doc[i].name in NamesOf(doc);
      var found := finder.HasCycle(doc[i].name);
      if found {
        return true;
      }
    }
    AllVisited(doc, graph, finder.finished);
    return false;
  }

  method BuildGraph(doc: Document, known: set<Name>) returns (graph: Graph)
    ensures graph == BuilderGraph(doc, known)
  {
    graph := map[];
    for i := 0 to |doc|
      invariant graph == BuilderGraph(doc[..i], known)
    {
      graph := graph[doc[i].name := KnownOnly(doc[i].dependencies, known)];
      assert doc[..i + 1][..i] == doc[..i];
    }
    assert doc[..|doc|] == doc;
  }

  lemma AllVisited(doc: Document, graph: Graph, finished: seq<Name>)
    requires graph.Keys == NamesOf(doc) && DependenciesFirst(graph, finished)
    requires forall k :: 0 <= k < |doc| ==> doc[k].name in Elements(finished)
    ensures Acyclic(graph)
  {
    forall n ensures n in graph <==> n in finished {
      if n in graph { assert n in Elements(finished); }
    }
    ListingMeansAcyclic(graph, finished);
  }

  /** For task lists with unique names and known dependencies, the builder reports a cycle if and only if the backend's
      validator rejects the document for one. */
  method ChecksAgree(doc: Document) returns (cycle: bool, verdict: D.Verdict)
    ensures UniqueNames(doc) && KnownDependencies(doc) ==> (cycle <==> verdict.HasCycle?)
  {
    cycle := ReportsCycle(doc);
    verdict := D.Validate(doc);
    if UniqueNames(doc) && KnownDependencies(doc) { SameGraph(doc, NamesOf(doc)); }
  }
}
