/** `backend/services/dag_service.py`: Kahn's algorithm with an indegree counter. */
module DagService {
  import opened Dag
  import opened Tasks

  datatype Verdict = Valid | DuplicateNames | MissingDependency(dependency: Name) | HasCycle

  /** Position of the first dependency, in list order, that names no task. */
  ghost predicate FirstUnknown(doc: Document, i: int, j: int) {
    && 0 <= i < |doc| && 0 <= j < |doc[i].dependencies| && doc[i].dependencies[j] !in NamesOf(doc)
    && (forall k, l :: 0 <= k < i && 0 <= l < |doc[k].dependencies| ==> doc[k].dependencies[l] in NamesOf(doc))
    && (forall l :: 0 <= l < j ==> doc[i].dependencies[l] in NamesOf(doc))
  }

  /** `adjacency[d]` of a defaultdict(list). */
  function Listed(adjacency: map<Name, seq<Name>>, d: Name): seq<Name> {
    if d in adjacency then adjacency[d] else []
  }

  /** `adjacency` is `h` reversed, repeats included, and `indegree` counts each task's dependencies. */
  ghost predicate Mirrors(h: Graph, adjacency: map<Name, seq<Name>>, indegree: map<Name, nat>) {
    && indegree.Keys == h.Keys
    && (forall n :: n in h ==> indegree[n] == |h[n]|)
    && (forall d, n :: n in h ==> multiset(Listed(adjacency, d))[n] == multiset(h[n])[d])
    && (forall d, n :: n in Listed(adjacency, d) ==> n in h)
  }

  /** How many entries of `deps` are not in `done`. */
  function Waiting(deps: seq<Name>, done: set<Name>): nat {
    if deps == [] then 0
    else Waiting(deps[..|deps| - 1], done) + if deps[|deps| - 1] in done then 0 else 1
  }

  lemma {:induction false} WaitingZero(deps: seq<Name>, done: set<Name>)
    ensures Waiting(deps, done) == 0 <==> forall d :: d in deps ==> d in done
  {
    if deps == [] {
    } else {
      WaitingZero(deps[..|deps| - 1], done);
      assert deps == deps[..|deps| - 1] + [deps[|deps| - 1]];
    }
  }

  lemma {:induction false} WaitingNone(deps: seq<Name>)
    ensures Waiting(deps, {}) == |deps|
  {
    if deps == [] {
    } else {
      WaitingNone(deps[..|deps| - 1]);
    }
  }

  lemma {:induction false} WaitingFewer(deps: seq<Name>, done: set<Name>, c: Name)
    requires c !in done
    ensures Waiting(deps, done) == Waiting(deps, done + {c}) + multiset(deps)[c]
  {
    if deps == [] {
    } else {
      WaitingFewer(deps[..|deps| - 1], done, c);
      assert deps == deps[..|deps| - 1] + [deps[|deps| - 1]];
    }
  }

  lemma MirrorsArrow(h: Graph, adjacency: map<Name, seq<Name>>, indegree: map<Name, nat>, n: Name, d: Name)
    requires Mirrors(h, adjacency, indegree) && n in h
    ensures Mirrors(h[n := h[n] + [d]], adjacency[d := Listed(adjacency, d) + [n]], indegree[n := indegree[n] + 1])
  {
    ArrowCounts(h, adjacency, n, d);
    var a' := adjacency[d := Listed(adjacency, d) + [n]];
    forall e, m | m in Listed(a', e) ensures m in h {
      assert m == n || m in Listed(adjacency, e);
    }
    hide Listed;
  }

  lemma ArrowCounts(h: Graph, adjacency: map<Name, seq<Name>>, n: Name, d: Name)
    requires n in h && forall e, m :: m in h ==> multiset(Listed(adjacency, e))[m] == multiset(h[m])[e]
    ensures var h', a' := h[n := h[n] + [d]], adjacency[d := Listed(adjacency, d) + [n]];
      forall e, m :: m in h' ==> multiset(Listed(a', e))[m] == multiset(h'[m])[e]
  {
    var h', a' := h[n := h[n] + [d]], adjacency[d := Listed(adjacency, d) + [n]];
    forall e, m | m in h' ensures multiset(Listed(a', e))[m] == multiset(h'[m])[e] {
      assert multiset(Listed(adjacency, e))[m] == multiset(h[m])[e];
    }
  }

  /** The dependencies of the first `i` tasks are in, those of the others are not. */
  ghost predicate BuiltTo(doc: Document, h: Graph, i: int) {
    forall k :: 0 <= k < |doc| ==> doc[k].name in h && h[doc[k].name] == if k < i then doc[k].dependencies else []
  }

  lemma BuiltNext(doc: Document, before: Graph, h: Graph, i: int)
    requires UniqueNames(doc) && 0 <= i < |doc| && before.Keys == NamesOf(doc) && BuiltTo(doc, before, i)
    requires h == before[doc[i].name := doc[i].dependencies[..|doc[i].dependencies|]]
    ensures h.Keys == NamesOf(doc) && BuiltTo(doc, h, i + 1)
  {
    assert doc[i].dependencies[..|doc[i].dependencies|] == doc[i].dependencies;
    assert doc[i].name in NamesOf(doc);
    forall k | 0 <= k < |doc| ensures h[doc[k].name] == if k < i + 1 then doc[k].dependencies else [] {
      if k != i {
        assert doc[k].name != doc[i].name;
      }
    }
  }

  lemma BuiltAll(doc: Document, h: Graph)
    requires UniqueNames(doc) && h.Keys == NamesOf(doc) && BuiltTo(doc, h, |doc|)
    ensures h == GraphOf(doc)
  {
    var g := GraphOf(doc);
    GraphKeys(doc);
    forall n | n in h ensures h[n] == g[n] {
      var k :| 0 <= k < |doc| && doc[k].name == n;
      GraphAt(doc, k);
    }
  }

  /** Enters one task's dependencies into both maps; `known` is false when one of them names no task. */
  method AddTask(names: set<Name>, task: TaskDef, adjacency: map<Name, seq<Name>>, indegree: map<Name, nat>,
                 ghost h: Graph)
    returns (adjacency': map<Name, seq<Name>>, indegree': map<Name, nat>, j: nat)
    requires Mirrors(h, adjacency, indegree) && task.name in h && h[task.name] == []
    ensures j <= |task.dependencies| && forall l :: 0 <= l < j ==> task.dependencies[l] in names
    ensures j < |task.dependencies| ==> task.dependencies[j] !in names
    ensures Mirrors(h[task.name := task.dependencies[..j]], adjacency', indegree')
  {
    var n := task.name;
    adjacency', indegree', j := adjacency, indegree, 0;
    assert h[n := task.dependencies[..0]] == h;
    while j < |task.dependencies| && task.dependencies[j] in names
      invariant j <= |task.dependencies| && forall l :: 0 <= l < j ==> task.dependencies[l] in names
      invariant Mirrors(h[n := task.dependencies[..j]], adjacency', indegree')
    {
      var d := task.dependencies[j];
      ghost var h' := h[n := task.dependencies[..j]];
      MirrorsArrow(h', adjacency', indegree', n, d);
      assert task.dependencies[..j + 1] == task.dependencies[..j] + [d];
      assert h'[n := h'[n] + [d]] == h[n := task.dependencies[..j + 1]];
      adjacency' := adjacency'[d := Listed(adjacency', d) + [n]];
      indegree' := indegree'[n := indegree'[n] + 1];
      j := j + 1;
    }
  }

  ghost predicate KnownTo(doc: Document, i: int)
    requires i <= |doc|
  {
    forall k, l :: 0 <= k < i && 0 <= l < |doc[k].dependencies| ==> doc[k].dependencies[l] in NamesOf(doc)
  }

  /** The first `i` tasks have been entered into both maps. */
  ghost predicate Building(doc: Document, h: Graph, adjacency: map<Name, seq<Name>>, indegree: map<Name, nat>, i: int) {
    && i <= |doc| && h.Keys == NamesOf(doc)
    && Mirrors(h, adjacency, indegree) && BuiltTo(doc, h, i) && KnownTo(doc, i)
  }

  function NoArrows(names: set<Name>): Graph { map n | n in names :: [] }

  function Zeroes(names: set<Name>): map<Name, nat> { map n | n in names :: 0 }

  lemma StartBuilding(doc: Document)
    ensures Building(doc, NoArrows(NamesOf(doc)), map[], Zeroes(NamesOf(doc)), 0)
  {
  }

  lemma BuildStep(doc: Document, h: Graph, adjacency: map<Name, seq<Name>>, indegree: map<Name, nat>, i: int)
    requires Building(doc, h, adjacency, indegree, i) && 0 <= i < |doc|
    ensures Mirrors(h, adjacency, indegree) && doc[i].name in h && h[doc[i].name] == []
  {
  }

  lemma BuildNext(doc: Document, h: Graph, a: map<Name, seq<Name>>, indegree: map<Name, nat>,
                  a': map<Name, seq<Name>>, indegree': map<Name, nat>, i: int, j: int)
    requires UniqueNames(doc) && Building(doc, h, a, indegree, i) && 0 <= i < |doc| && j == |doc[i].dependencies|
    requires Mirrors(h[doc[i].name := doc[i].dependencies[..j]], a', indegree')
    requires forall l :: 0 <= l < j ==> doc[i].dependencies[l] in NamesOf(doc)
    ensures Building(doc, h[doc[i].name := doc[i].dependencies[..j]], a', indegree', i + 1)
  {
    var h' := h[doc[i].name := doc[i].dependencies[..j]];
    BuiltNext(doc, h, h', i);
    assert KnownTo(doc, i + 1);
  }

  lemma BuildDone(doc: Document, h: Graph, adjacency: map<Name, seq<Name>>, indegree: map<Name, nat>)
    requires UniqueNames(doc) && Building(doc, h, adjacency, indegree, |doc|)
    ensures KnownDependencies(doc) && Mirrors(GraphOf(doc), adjacency, indegree)
  {
    BuiltAll(doc, h);
  }

  /** The two maps the algorithm starts from, or the position of the first unknown dependency. */
  method BuildMaps(doc: Document)
    returns (adjacency: map<Name, seq<Name>>, indegree: map<Name, nat>, i: nat, j: nat)
    requires UniqueNames(doc)
    ensures i < |doc| ==> FirstUnknown(doc, i, j)
    ensures i >= |doc| ==> KnownDependencies(doc) && Mirrors(GraphOf(doc), adjacency, indegree)
  {
    var names := NamesOf(doc);
    adjacency, i, j := map[], 0, 0;
    hide *;
    indegree := Zeroes(names);
    ghost var h: Graph := NoArrows(names);
    StartBuilding(doc);
    while i < |doc|
      invariant i <= |doc| && Building(doc, h, adjacency, indegree, i)
    {
      BuildStep(doc, h, adjacency, indegree, i);
      ghost var a, d := adjacency, indegree;
      adjacency, indegree, j := AddTask(names, doc[i], adjacency, indegree, h);
      if j < |doc[i].dependencies| {
        UnknownFound(doc, h, a, d, i, j);
        return;
      }
      BuildNext(doc, h, a, d, adjacency, indegree, i, j);
      h := h[doc[i].name := doc[i].dependencies[..j]];
      i := i + 1;
    }
    BuildDone(doc, h, adjacency, indegree);
  }

  lemma UnknownFound(doc: Document, h: Graph, adjacency: map<Name, seq<Name>>, indegree: map<Name, nat>, i: int, j: int)
    requires Building(doc, h, adjacency, indegree, i)
    requires 0 <= i < |doc| && 0 <= j < |doc[i].dependencies| && doc[i].dependencies[j] !in NamesOf(doc)
    requires forall l :: 0 <= l < j ==> doc[i].dependencies[l] in NamesOf(doc)
    ensures FirstUnknown(doc, i, j)
  {
  }

  /** The work queue: `seen` are the tasks ever put on it, which are the tasks nothing is waited for by. */
  ghost predicate Frontier(h: Graph, indegree: map<Name, nat>, seen: seq<Name>) {
    && indegree.Keys == h.Keys
    && Distinct(seen)
    && (forall n :: n in seen <==> n in h && indegree[n] == 0)
  }

  ghost predicate Counts(h: Graph, indegree: map<Name, nat>, done: set<Name>) {
    indegree.Keys == h.Keys && forall n :: n in h ==> indegree[n] == Waiting(h[n], done)
  }

  /** `neighbors` holds each task once for every time it lists `current` as a dependency. */
  ghost predicate Dependents(h: Graph, current: Name, neighbors: seq<Name>) {
    && (forall n :: n in neighbors ==> n in h)
    && (forall n :: n in h ==> multiset(neighbors)[n] == multiset(h[n])[current])
  }

  lemma DistinctAppend(s: seq<Name>, x: Name)
    requires Distinct(s) && x !in s
    ensures Distinct(s + [x])
  {
  }

  /** Decrements the tasks that depended on `current` and queues those that become free. */
  method Release(ghost h: Graph, neighbors: seq<Name>, ghost current: Name, indegree: map<Name, nat>, queue: seq<Name>,
                 ghost done: set<Name>, ghost seen: seq<Name>)
    returns (indegree': map<Name, nat>, queue': seq<Name>, ghost freed: seq<Name>)
    requires Frontier(h, indegree, seen) && Counts(h, indegree, done) && current !in done
    requires Dependents(h, current, neighbors)
    ensures queue' == queue + freed
    ensures Frontier(h, indegree', seen + freed) && Counts(h, indegree', done + {current})
  {
    indegree', queue', freed := indegree, queue, [];
    StartReleasing(h, neighbors, current, indegree, done);
    hide *;
    ghost var done' := done + {current};
    ghost var seen' := seen;
    assert Grown(seen, queue, seen', queue', []) by { GrownNone(seen, queue); }
    var k := 0;
    ghost var todo := neighbors;
    while k < |neighbors|
      invariant k <= |neighbors| && todo == neighbors[k..]
      invariant Grown(seen, queue, seen', queue', freed)
      invariant Frontier(h, indegree', seen') && Releasing(h, indegree', done', todo)
    {
      var neighbor := neighbors[k];
      KeepReleasing(h, indegree', done', neighbor, todo, seen');
      indegree' := indegree'[neighbor := indegree'[neighbor] - 1];
      if indegree'[neighbor] == 0 {
        GrownMore(seen, queue, seen', queue', freed, neighbor);
        queue', seen', freed := queue' + [neighbor], seen' + [neighbor], freed + [neighbor];
      }
      todo := todo[1..];
      k := k + 1;
    }
    DoneReleasing(h, indegree', done', todo);
    GrownMeans(seen, queue, seen', queue', freed);
  }

  /** Both the queue and the record of all queued tasks have gained `freed` at the end. */
  ghost predicate Grown(seen: seq<Name>, queue: seq<Name>, seen': seq<Name>, queue': seq<Name>, freed: seq<Name>) {
    seen' == seen + freed && queue' == queue + freed
  }

  lemma GrownNone(seen: seq<Name>, queue: seq<Name>)
    ensures Grown(seen, queue, seen, queue, [])
  {
  }

  lemma GrownMore(seen: seq<Name>, queue: seq<Name>, seen': seq<Name>, queue': seq<Name>, freed: seq<Name>, n: Name)
    requires Grown(seen, queue, seen', queue', freed)
    ensures Grown(seen, queue, seen' + [n], queue' + [n], freed + [n])
  {
  }

  lemma GrownMeans(seen: seq<Name>, queue: seq<Name>, seen': seq<Name>, queue': seq<Name>, freed: seq<Name>)
    requires Grown(seen, queue, seen', queue', freed)
    ensures seen' == seen + freed && queue' == queue + freed
  {
  }

  /** `todo` are the decrements still to come before the counts match `done`. */
  ghost predicate Releasing(h: Graph, indegree: map<Name, nat>, done: set<Name>, todo: seq<Name>) {
    && indegree.Keys == h.Keys
    && (forall n :: n in todo ==> n in h)
    && (forall n :: n in h ==> indegree[n] == Waiting(h[n], done) + multiset(todo)[n])
  }

  lemma StartReleasing(h: Graph, neighbors: seq<Name>, current: Name, indegree: map<Name, nat>, done: set<Name>)
    requires Counts(h, indegree, done) && current !in done && Dependents(h, current, neighbors)
    ensures Releasing(h, indegree, done + {current}, neighbors)
  {
    forall n | n in h ensures indegree[n] == Waiting(h[n], done + {current}) + multiset(neighbors)[n] {
      WaitingFewer(h[n], done, current);
    }
  }

  lemma KeepReleasing(h: Graph, indegree: map<Name, nat>, done: set<Name>, neighbor: Name, todo: seq<Name>,
                      seen: seq<Name>)
    requires todo != [] && todo[0] == neighbor && Releasing(h, indegree, done, todo) && Frontier(h, indegree, seen)
    ensures neighbor in indegree && indegree[neighbor] >= 1
    ensures Releasing(h, indegree[neighbor := indegree[neighbor] - 1], done, todo[1..])
    ensures Frontier(h, indegree[neighbor := indegree[neighbor] - 1],
                     if indegree[neighbor] == 1 then seen + [neighbor] else seen)
  {
    assert todo == [neighbor] + todo[1..] && neighbor in todo;
    assert multiset(todo) == multiset{neighbor} + multiset(todo[1..]);
    if indegree[neighbor] == 1 {
      DistinctAppend(seen, neighbor);
    }
  }

  lemma DoneReleasing(h: Graph, indegree: map<Name, nat>, done: set<Name>, todo: seq<Name>)
    requires Releasing(h, indegree, done, todo) && todo == []
    ensures Counts(h, indegree, done)
  {
  }

  lemma StuckWaits(h: Graph, done: set<Name>, n: Name)
    requires Known(h) && n in h && Waiting(h[n], done) != 0
    ensures WaitsFor(h, h.Keys - done, n)
  {
    WaitingZero(h[n], done);
  }

  /** When the work queue runs dry early, the tasks not visited wait for each other. */
  lemma StuckMeansCycle(h: Graph, indegree: map<Name, nat>, order: seq<Name>)
    requires Known(h) && Frontier(h, indegree, order) && Counts(h, indegree, Elements(order))
    requires |order| != |h.Keys|
    ensures !Acyclic(h)
  {
    var stuck := h.Keys - Elements(order);
    DistinctCount(order);
    assert Elements(order) <= h.Keys;
    assert |h.Keys| == |stuck| + |Elements(order)|;
    hide Acyclic, Known, Distinct;
    forall n | n in stuck ensures WaitsFor(h, stuck, n) {
      StuckWaits(h, Elements(order), n);
    }
    MutualWaitIsCycle(h, stuck);
  }

  method FreeTasks(doc: Document, ghost h: Graph, indegree: map<Name, nat>) returns (queue: seq<Name>)
    requires UniqueNames(doc) && h.Keys == NamesOf(doc) == indegree.Keys
    ensures Frontier(h, indegree, queue)
  {
    queue := [];
    for i := 0 to |doc|
      invariant Distinct(queue)
      invariant forall n :: n in queue <==> exists k :: 0 <= k < i && doc[k].name == n && indegree[n] == 0
    {
      if indegree[doc[i].name] == 0 {
        assert doc[i].name !in queue;
        queue := queue + [doc[i].name];
      }
    }
  }

  /** Accepts exactly the valid documents, and names what is wrong with the others. */
  method Validate(doc: Document) returns (r: Verdict)
    ensures r.DuplicateNames? <==> !UniqueNames(doc)
    ensures r.MissingDependency? <==> UniqueNames(doc) && !KnownDependencies(doc)
    ensures r.MissingDependency? ==> exists i, j :: FirstUnknown(doc, i, j) && r.dependency == doc[i].dependencies[j]
    ensures r.HasCycle? <==> UniqueNames(doc) && KnownDependencies(doc) && !Acyclic(GraphOf(doc))
    ensures r.Valid? <==> ValidDocument(doc)
  {
    NameCount(doc);
    if |NamesOf(doc)| != |doc| {
      return DuplicateNames;
    }
    var adjacency, indegree, i, j := BuildMaps(doc);
    if i < |doc| {
      return MissingDependency(doc[i].dependencies[j]);
    }
    var acyclic := Drain(doc, adjacency, indegree);
    return if acyclic then Valid else HasCycle;
  }

  lemma Prepared(doc: Document, adjacency: map<Name, seq<Name>>, indegree: map<Name, nat>)
    requires UniqueNames(doc) && KnownDependencies(doc) && Mirrors(GraphOf(doc), adjacency, indegree)
    ensures GraphOf(doc).Keys == NamesOf(doc) == indegree.Keys && |NamesOf(doc)| == |doc| && Known(GraphOf(doc))
    ensures Counts(GraphOf(doc), indegree, Elements([])) && DependenciesFirst(GraphOf(doc), [])
    ensures forall d :: Dependents(GraphOf(doc), d, Listed(adjacency, d))
  {
    var h := GraphOf(doc);
    KnownGraph(doc);
    GraphKeys(doc);
    NameCount(doc);
    assert Elements([]) == {};
    forall n | n in h ensures indegree[n] == Waiting(h[n], {}) {
      WaitingNone(h[n]);
    }
    forall d ensures Dependents(h, d, Listed(adjacency, d)) {
    }
  }

  /** The loop's state: `queue` is the part of `seen` not visited yet. */
  ghost predicate Draining(h: Graph, indegree: map<Name, nat>, seen: seq<Name>, visited: nat) {
    && visited <= |seen| && |seen| <= |h.Keys|
    && Frontier(h, indegree, seen) && Counts(h, indegree, Elements(seen[..visited]))
    && DependenciesFirst(h, seen[..visited])
  }

  /** Visits tasks in dependency order until the queue is empty and compares the visit count. */
  method Drain(doc: Document, adjacency: map<Name, seq<Name>>, indegree0: map<Name, nat>) returns (acyclic: bool)
    requires UniqueNames(doc) && KnownDependencies(doc) && Mirrors(GraphOf(doc), adjacency, indegree0)
    ensures acyclic <==> Acyclic(GraphOf(doc))
  {
    ghost var h := GraphOf(doc);
    Prepared(doc, adjacency, indegree0);
    hide *;
    var indegree := indegree0;
    var queue := FreeTasks(doc, h, indegree);
    ghost var seen := queue;
    var visited: nat := 0;
    StartDraining(h, indegree, seen);
    while queue != []
      invariant visited <= |seen| && queue == seen[visited..] && Draining(h, indegree, seen, visited)
      decreases |h.Keys| - visited
    {
      var current := queue[0];
      VisitNext(h, indegree, seen, visited);
      ghost var freed;
      indegree, queue, freed :=
        Release(h, Listed(adjacency, current), current, indegree, queue[1..], Elements(seen[..visited]), seen);
      KeepDraining(h, indegree, seen, freed, visited);
      visited := visited + 1;
      seen := seen + freed;
    }
    DrainVerdict(h, indegree, seen, visited);
    return visited == |doc|;
  }

  lemma StartDraining(h: Graph, indegree: map<Name, nat>, seen: seq<Name>)
    requires Frontier(h, indegree, seen) && Counts(h, indegree, Elements([]))
    ensures seen[0..] == seen && Draining(h, indegree, seen, 0)
  {
    assert seen[..0] == [];
    if |seen| > |h.Keys| {
      Pigeonhole(seen, h.Keys);
    }
  }

  lemma KeepDraining(h: Graph, indegree: map<Name, nat>, seen: seq<Name>, freed: seq<Name>, visited: nat)
    requires visited < |seen| && DependenciesFirst(h, seen[..visited + 1])
    requires Frontier(h, indegree, seen + freed) && Counts(h, indegree, Elements(seen[..visited]) + {seen[visited]})
    ensures Draining(h, indegree, seen + freed, visited + 1)
    ensures (seen + freed)[visited + 1..] == seen[visited..][1..] + freed
  {
    var more := seen + freed;
    assert more[..visited + 1] == seen[..visited + 1] == seen[..visited] + [seen[visited]];
    assert Elements(more[..visited + 1]) == Elements(seen[..visited]) + {seen[visited]};
    if |more| > |h.Keys| {
      Pigeonhole(more, h.Keys);
    }
  }

  lemma DrainVerdict(h: Graph, indegree: map<Name, nat>, seen: seq<Name>, visited: nat)
    requires Draining(h, indegree, seen, visited) && visited == |seen| && Known(h)
    ensures visited == |h.Keys| <==> Acyclic(h)
  {
    hide Acyclic;
    assert seen[..visited] == seen;
    if visited != |h.Keys| {
      StuckMeansCycle(h, indegree, seen);
    } else {
      VisitedAll(h, seen);
      ListingMeansAcyclic(h, seen);
    }
  }

  lemma VisitNext(h: Graph, indegree: map<Name, nat>, seen: seq<Name>, visited: nat)
    requires Draining(h, indegree, seen, visited) && visited < |seen|
    ensures Frontier(h, indegree, seen) && Counts(h, indegree, Elements(seen[..visited]))
    ensures seen[visited] !in Elements(seen[..visited]) && visited + 1 <= |h.Keys|
    ensures DependenciesFirst(h, seen[..visited + 1])
  {
    var c := seen[visited];
    assert c in seen;
    WaitingZero(h[c], Elements(seen[..visited]));
    var order, next := seen[..visited], seen[..visited + 1];
    assert next == order + [c];
    forall i, d | 0 <= i < |next| && d in h[next[i]] ensures d in next[..i] {
      assert next[..i] == order[..i];
      if i < visited { assert next[i] == order[i]; }
    }
  }

  lemma VisitedAll(h: Graph, order: seq<Name>)
    requires DependenciesFirst(h, order) && |order| == |h.Keys|
    ensures Lists(h, order)
  {
    DistinctCount(order);
    var done := Elements(order);
    assert done <= h.Keys;
    assert |h.Keys| == |h.Keys - done| + |done|;
    assert h.Keys == done;
  }
}
