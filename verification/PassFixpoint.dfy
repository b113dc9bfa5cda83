/** Exactly when one pass of `enqueue_ready_tasks` is enough. */
module PassFixpoint {
  import opened Dag
  import opened Q = QueueRecords
  import opened E = ExecutionState
  import opened Readiness

  predicate Lost(x: TaskState) { x == Failure || x == Stopped }

  /** A dependency of `n` is missing, was failed or cancelled before the pass, or is among those sunk so far. */
  predicate Blocked(g: Graph, st: States, sunk: set<Name>, n: Name)
    requires n in g
  {
    exists d | d in g[n] :: d !in st || Lost(st[d]) || d in sunk
  }

  /** The tasks the pass fails or cancels, read off the rows before it: going through the list, a pending task sinks
      if it is blocked by then. */
  function Sunk(g: Graph, st: States, sunk: set<Name>, names: seq<Name>): set<Name>
    requires forall n :: n in names ==> n in g && n in st
    decreases |names|
  {
    if names == [] then sunk
    else
      var n := names[0];
      Sunk(g, st, if st[n] == Pending && Blocked(g, st, sunk, n) then sunk + {n} else sunk, names[1..])
  }

  /** How far the pass has got: `sunk` are lost, other tasks are as before or queued. */
  ghost predicate Passing(st0: States, st: States, sunk: set<Name>) {
    && st.Keys == st0.Keys && sunk <= st0.Keys
    && (forall n :: n in sunk ==> st0[n] == Pending && Lost(st[n]))
    && (forall n :: n in st0 && n !in sunk ==> st[n] == st0[n] || (st0[n] == Pending && st[n] == Enqueued))
  }

  lemma RuleSinks(g: Graph, st0: States, st: States, sunk: set<Name>, n: Name)
    requires Passing(st0, st, sunk) && n in g
    ensures Lost(Rule(g, st, n)) <==> Blocked(g, st0, sunk, n)
  {
    forall d | d in g[n] ensures (d !in st || Lost(st[d])) <==> (d !in st0 || Lost(st0[d]) || d in sunk) {}
    if Blocked(g, st0, sunk, n) {
      var d :| d in g[n] && (d !in st0 || Lost(st0[d]) || d in sunk);
      assert d !in st || st[d] == Failure || st[d] == Stopped;
    }
    if Lost(Rule(g, st, n)) {
      var d :| d in g[n] && (d !in st || st[d] == Failure || st[d] == Stopped);
    }
  }

  /** A dependency was neither missing nor lost before the pass. */
  ghost predicate Unblocked(g: Graph, st: States, n: Name)
    requires n in g
  {
    forall d :: d in g[n] ==> d in st && !Lost(st[d])
  }

  lemma PassingOne(db: Db, st0: States, sunk: set<Name>, n: Name, now: Time, maxAttempts: nat)
    requires Rows(db.ex) && n in db.ex.state && n in db.ex.graph && Passing(st0, db.ex.state, sunk) && n !in sunk
    requires db.ex.state[n] == st0[n]
    ensures var st' := EnqueueOne(db, n, now, maxAttempts).ex.state;
      && Passing(st0, st', if st0[n] == Pending && Blocked(db.ex.graph, st0, sunk, n) then sunk + {n} else sunk)
      && (st'[n] == Pending ==> Unblocked(db.ex.graph, st0, n))
  {
    if st0[n] == Pending {
      RuleSinks(db.ex.graph, st0, db.ex.state, sunk, n);
      RuleStates(db.ex.graph, db.ex.state, n);
      hide Rule, FirstJob, Rows;
    }
  }

  lemma RuleStates(g: Graph, st: States, n: Name)
    requires n in g
    ensures var x := Rule(g, st, n); x == Failure || x == Stopped || x == Enqueued || x == Pending
  {
  }

  /** What the pass leaves behind. */
  lemma {:induction false} PassSinks(db: Db, st0: States, sunk: set<Name>, names: seq<Name>, now: Time,
                                     maxAttempts: nat)
    requires Rows(db.ex) && Elements(names) <= Elements(db.ex.order) && Distinct(names)
    requires Passing(st0, db.ex.state, sunk)
      && forall n :: n in names ==> n !in sunk && n in st0 && db.ex.state[n] == st0[n]
    requires forall n :: n in names ==> n in db.ex.graph
    ensures var r, g := EnqueueAll(db, names, now, maxAttempts), db.ex.graph;
      && Passing(st0, r.ex.state, Sunk(g, st0, sunk, names))
      && (forall n :: n in db.ex.state && n !in names ==> r.ex.state[n] == db.ex.state[n])
      && (forall n :: n in names && r.ex.state[n] == Pending ==> Unblocked(g, st0, n))
    decreases |names|
  {
    if names != [] {
      var n, rest := names[0], names[1..];
      assert n in Elements(names) && Elements(rest) <= Elements(names) && names == [n] + rest && n !in rest;
      var db1 := EnqueueOne(db, n, now, maxAttempts);
      PassingOne(db, st0, sunk, n, now, maxAttempts);
      OneRows(db, n, now, maxAttempts);
      assert forall m :: m in db.ex.state && m != n ==>
        db1.ex.state[m] == db.ex.state[m] by { hide Rule, Rows, FirstJob; }
      hide EnqueueOne, Passing, Unblocked, Rows, Elements, Blocked, Distinct;
      assert Distinct(rest) by { DistinctRest(names); }
      PassSinks(db1, st0, if st0[n] == Pending && Blocked(db.ex.graph, st0, sunk, n) then sunk + {n} else sunk, rest,
                now, maxAttempts);
    }
  }

  lemma DistinctRest(names: seq<Name>)
    requires Distinct(names) && names != []
    ensures Distinct(names[1..])
  {
  }

  lemma OneRows(db: Db, n: Name, now: Time, maxAttempts: nat)
    requires Rows(db.ex) && n in db.ex.state
    ensures var ex := EnqueueOne(db, n, now, maxAttempts).ex;
      Rows(ex) && ex.graph == db.ex.graph && ex.order == db.ex.order
  {
    hide Rule, FirstJob;
  }

  /** A pending task with a lost dependency does not survive a pass. */
  lemma {:induction false} LostDependencyDecides(db: Db, names: seq<Name>, m: Name, d: Name, now: Time,
      maxAttempts: nat)
    requires Rows(db.ex) && Elements(names) <= Elements(db.ex.order) && m in names && m in db.ex.graph
      && d in db.ex.graph[m]
    requires m in db.ex.state && d in db.ex.state && Lost(db.ex.state[d])
    ensures var r := EnqueueAll(db, names, now, maxAttempts); m in r.ex.state && r.ex.state[m] != Pending
    decreases |names|
  {
    var n, rest := names[0], names[1..];
    assert n in Elements(names) && Elements(rest) <= Elements(names) && (m == n || m in rest);
    var db1 := EnqueueOne(db, n, now, maxAttempts);
    OneRows(db, n, now, maxAttempts);
    if n == m {
      if db.ex.state[n] == Pending { LostRule(db.ex.graph, db.ex.state, m, d); }
      assert m in db1.ex.state && db1.ex.state[m] != Pending by { hide Rule, FirstJob; }
      hide EnqueueOne, Rows, Elements;
      DecidedStays(db1, rest, m, now, maxAttempts);
    } else {
      assert db1.ex.state[d] == db.ex.state[d] && m in db1.ex.state by { hide Rule, FirstJob; }
      hide EnqueueOne, Rows, Elements;
      LostDependencyDecides(db1, rest, m, d, now, maxAttempts);
    }
  }

  lemma LostRule(g: Graph, st: States, m: Name, d: Name)
    requires m in g && d in g[m] && d in st && Lost(st[d])
    ensures Rule(g, st, m) != Pending
  {
  }

  lemma {:induction false} DecidedStays(db: Db, names: seq<Name>, m: Name, now: Time, maxAttempts: nat)
    requires Rows(db.ex) && Elements(names) <= Elements(db.ex.order) && m in db.ex.state && db.ex.state[m] != Pending
    ensures var r := EnqueueAll(db, names, now, maxAttempts); m in r.ex.state && r.ex.state[m] != Pending
    decreases |names|
  {
    if names != [] {
      assert names[0] in Elements(names) && Elements(names[1..]) <= Elements(names);
      OneRows(db, names[0], now, maxAttempts);
      var db1 := EnqueueOne(db, names[0], now, maxAttempts);
      assert m in db1.ex.state && db1.ex.state[m] != Pending by { hide Rule, FirstJob; }
      hide EnqueueOne, Rows, Elements;
      DecidedStays(db1, names[1..], m, now, maxAttempts);
    }
  }

  // ---- the exact condition ----

  /** Read off the rows before the pass: some task will stay pending although it waits for one that sinks. */
  predicate Misses(g: Graph, st: States, order: seq<Name>)
    requires forall n :: n in order ==> n in g && n in st
  {
    var sunk := Sunk(g, st, {}, order);
    exists m | m in order :: st[m] == Pending && m !in sunk && !Ready(g, st, m) && WaitsForAny(g, sunk, m)
  }

  predicate WaitsForAny(g: Graph, sunk: set<Name>, m: Name)
    requires m in g
  {
    exists d | d in g[m] :: d in sunk
  }

  lemma RowsListed(ex: Execution)
    requires Rows(ex)
    ensures forall n :: n in ex.order ==> n in ex.graph && n in ex.state
    ensures forall n :: n in ex.state ==> n in ex.order
  {
    forall n | n in ex.order ensures n in ex.graph && n in ex.state { assert n in Elements(ex.order); }
    forall n | n in ex.state ensures n in ex.order { assert n in Elements(ex.order); }
  }

  /** The rows after a pass. */
  lemma PassLeaves(db: Db, now: Time, maxAttempts: nat)
    requires Rows(db.ex) && Distinct(db.ex.order)
    ensures forall n :: n in db.ex.order ==> n in db.ex.graph && n in db.ex.state
    ensures var r, g, st := EnqueueAll(db, db.ex.order, now, maxAttempts), db.ex.graph, db.ex.state;
      && r.ex.order == db.ex.order && r.ex.graph == g && Rows(r.ex)
      && Passing(st, r.ex.state, Sunk(g, st, {}, db.ex.order))
      && (forall n :: n in r.ex.state && n in g && r.ex.state[n] == Pending ==>
        Unblocked(g, st, n) && !Ready(g, st, n) && n in db.ex.order)
      && (forall n :: n in db.ex.order && st[n] == Pending && n !in Sunk(g, st, {}, db.ex.order) && !Ready(g, st, n) ==>
        r.ex.state[n] == Pending)
      && SameSatisfied(st, r.ex.state)
  {
    RowsListed(db.ex);
    assert Passing(db.ex.state, db.ex.state, {});
    PassSinks(db, db.ex.state, {}, db.ex.order, now, maxAttempts);
    PassQueuesReady(db, db.ex.order, now, maxAttempts);
    var r := EnqueueAll(db, db.ex.order, now, maxAttempts);
    RowsListed(r.ex);
    assert db.ex.state.Keys <= db.ex.graph.Keys;
    DecidedSatisfied(db.ex.graph, db.ex.state, r.ex.state, db.ex.order);
    hide Rows, Distinct, EnqueueAll, Sunk, Ready, Unblocked, SameSatisfied, FirstJobs, ReadyNames;
  }

  lemma LeftIsQuiet(g: Graph, st0: States, st: States, sunk: set<Name>, m: Name)
    requires Passing(st0, st, sunk) && SameSatisfied(st0, st) && m in g && m in st
    requires st[m] == Pending ==> Unblocked(g, st0, m) && !Ready(g, st0, m) && !WaitsForAny(g, sunk, m)
    ensures Quiet(g, st, m)
  {
    if st[m] == Pending {
      ReadySame(g, st0, st, m);
      RuleSinks(g, st0, st, sunk, m);
      RuleQueues(g, st, m);
      RuleStates(g, st, m);
      hide Ready, Rule;
    }
  }

  /** For every list order: a second pass changes nothing if and only if the rows before the first one do not make it
      miss anything. */
  lemma PassSufficesExactly(db: Db, now: Time, maxAttempts: nat)
    requires Rows(db.ex) && Distinct(db.ex.order)
    ensures forall n :: n in db.ex.order ==> n in db.ex.graph && n in db.ex.state
    ensures var r := EnqueueAll(db, db.ex.order, now, maxAttempts);
      r.ex.order == db.ex.order && (EnqueueAll(r, db.ex.order, now, maxAttempts) == r <==>
        !Misses(db.ex.graph, db.ex.state, db.ex.order))
  {
    PassLeaves(db, now, maxAttempts);
    hide Rows, Distinct, EnqueueAll, Passing, SameSatisfied, Unblocked, Ready, WaitsForAny;
    if Misses(db.ex.graph, db.ex.state, db.ex.order) {
      MissChanges(db, now, maxAttempts);
    } else {
      NoMissStays(db, now, maxAttempts);
    }
  }

  lemma MissChanges(db: Db, now: Time, maxAttempts: nat)
    requires Rows(db.ex) && Distinct(db.ex.order)
      && (forall n :: n in db.ex.order ==> n in db.ex.graph && n in db.ex.state)
    requires Misses(db.ex.graph, db.ex.state, db.ex.order)
    ensures var r := EnqueueAll(db, db.ex.order, now, maxAttempts); EnqueueAll(r, db.ex.order, now, maxAttempts) != r
  {
    PassLeaves(db, now, maxAttempts);
    var r, g, st := EnqueueAll(db, db.ex.order, now, maxAttempts), db.ex.graph, db.ex.state;
    var sunk := Sunk(g, st, {}, db.ex.order);
    var m :| m in db.ex.order && st[m] == Pending && m !in sunk && !Ready(g, st, m) && WaitsForAny(g, sunk, m);
    var d :| d in g[m] && d in sunk;
    assert r.ex.state[m] == Pending && d in r.ex.state && Lost(r.ex.state[d]) && m in r.ex.state;
    hide Rows, Distinct, EnqueueAll, Passing, SameSatisfied, Unblocked, Ready, Sunk;
    LostDependencyDecides(r, db.ex.order, m, d, now, maxAttempts);
  }

  lemma NoMissStays(db: Db, now: Time, maxAttempts: nat)
    requires Rows(db.ex) && Distinct(db.ex.order)
      && (forall n :: n in db.ex.order ==> n in db.ex.graph && n in db.ex.state)
    requires !Misses(db.ex.graph, db.ex.state, db.ex.order)
    ensures var r := EnqueueAll(db, db.ex.order, now, maxAttempts); EnqueueAll(r, db.ex.order, now, maxAttempts) == r
  {
    PassLeaves(db, now, maxAttempts);
    var r, g, st := EnqueueAll(db, db.ex.order, now, maxAttempts), db.ex.graph, db.ex.state;
    var sunk := Sunk(g, st, {}, db.ex.order);
    assert r.ex.state.Keys == st.Keys && forall n :: n in sunk ==> Lost(r.ex.state[n]);
    hide Rows, Distinct, EnqueueAll, Passing, SameSatisfied, Unblocked, Ready, Sunk, Quiet, WaitsForAny;
    forall m | m in db.ex.order ensures Quiet(g, r.ex.state, m) {
      PendingBefore(st, r.ex.state, sunk, m);
      LeftIsQuiet(g, st, r.ex.state, sunk, m);
    }
    QuietPass(r, db.ex.order, now, maxAttempts);
  }

  lemma PendingBefore(st0: States, st: States, sunk: set<Name>, m: Name)
    requires Passing(st0, st, sunk) && m in st
    ensures m in st0 && (st[m] == Pending ==> st0[m] == Pending && m !in sunk)
  {
  }
}
