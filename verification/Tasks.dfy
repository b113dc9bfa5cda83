/** Workflow documents: the task definitions a user submits. */
module Tasks {
  import opened Dag

  /** The lifecycle part of a task's configuration. */
  datatype Config = Config(
    maxRetries: nat,
    failFirstN: nat,
    allowFailure: bool,
    priority: int,
    delaySeconds: real,
    backoffSeconds: real)

  datatype TaskDef = TaskDef(name: Name, dependencies: seq<Name>, config: Config)

  type Document = seq<TaskDef>

  function NamesOf(doc: Document): set<Name> {
    set i | 0 <= i < |doc| :: doc[i].name
  }

  predicate UniqueNames(doc: Document) {
    forall i, j :: 0 <= i < j < |doc| ==> doc[i].name != doc[j].name
  }

  predicate KnownDependencies(doc: Document) {
    forall i, j :: 0 <= i < |doc| && 0 <= j < |doc[i].dependencies| ==> doc[i].dependencies[j] in NamesOf(doc)
  }

  /** The dependency graph a document describes; a later definition of a name replaces an earlier one. */
  function GraphOf(doc: Document): Graph {
    if doc == [] then map[]
    else
      var last := doc[|doc| - 1];
      GraphOf(doc[..|doc| - 1])[last.name := last.dependencies]
  }

  /** What the validator promises about an accepted document. */
  ghost predicate ValidDocument(doc: Document) {
    UniqueNames(doc) && KnownDependencies(doc) && Acyclic(GraphOf(doc))
  }

  lemma {:induction false} GraphKeys(doc: Document)
    ensures GraphOf(doc).Keys == NamesOf(doc)
  {
    if doc == [] {
    } else {
      var front := doc[..|doc| - 1];
      GraphKeys(front);
      assert NamesOf(doc) == NamesOf(front) + {doc[|doc| - 1].name};
    }
  }

  lemma {:induction false} GraphAt(doc: Document, i: nat)
    requires UniqueNames(doc) && i < |doc|
    ensures doc[i].name in GraphOf(doc) && GraphOf(doc)[doc[i].name] == doc[i].dependencies
  {
    if i < |doc| - 1 {
      GraphAt(doc[..|doc| - 1], i);
    }
  }

  lemma KnownGraph(doc: Document)
    requires UniqueNames(doc)
    ensures KnownDependencies(doc) <==> Known(GraphOf(doc))
  {
    var g := GraphOf(doc);
    GraphKeys(doc);
    forall i | 0 <= i < |doc| ensures doc[i].name in g && g[doc[i].name] == doc[i].dependencies {
      GraphAt(doc, i);
    }
    if KnownDependencies(doc) {
      forall n, d | n in g && d in g[n] ensures d in g {
        var i :| 0 <= i < |doc| && doc[i].name == n;
      }
    }
    if Known(g) {
      forall i, j | 0 <= i < |doc| && 0 <= j < |doc[i].dependencies| ensures doc[i].dependencies[j] in NamesOf(doc) {
        assert doc[i].dependencies[j] in g[doc[i].name];
      }
    }
  }

  /** Counting names detects duplicates. */
  lemma {:induction false} NameCount(doc: Document)
    ensures |NamesOf(doc)| <= |doc|
    ensures |NamesOf(doc)| == |doc| <==> UniqueNames(doc)
  {
    if doc == [] {
    } else {
      var front := doc[..|doc| - 1];
      var last := doc[|doc| - 1].name;
      NameCount(front);
      assert NamesOf(doc) == NamesOf(front) + {last};
      if last in NamesOf(front) {
        var i :| 0 <= i < |front| && front[i].name == last;
        assert doc[i].name == doc[|doc| - 1].name;
      }
    }
  }
}
