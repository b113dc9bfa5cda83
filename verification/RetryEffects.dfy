/** What `retry_task` makes of any rows, column by column. */
module RetryEffects {
  import opened Dag
  import opened Q = QueueRecords
  import opened E = ExecutionState
  import opened Effects
  import R = EngineRetry

  ghost predicate InBranch(g: Graph, n: Name, m: Name) { m == n || Reaches(g, n, m) }

  /** A retry of `n` makes this row pending again: it is `n` or below it, and neither at work nor successful. */
  ghost predicate Revived(ex: Execution, n: Name, m: Name) {
    InBranch(ex.graph, n, m) && m in ex.state && ex.state[m] in {Failure, Stopped, Skipped, Pending}
  }

  /** The row is up for the pass: it was pending, or is again. */
  ghost predicate UpForPass(ex: Execution, n: Name, m: Name) {
    m in ex.state && (Revived(ex, n, m) || ex.state[m] == Pending)
  }

  /** Every dependency has succeeded, or was skipped and stays so. */
  ghost predicate DependenciesStand(ex: Execution, n: Name, m: Name)
    requires m in ex.graph
  {
    forall d :: d in ex.graph[m] ==> d in ex.state && ex.state[d] in {Success, Skipped} && !Revived(ex, n, d)
  }

  /** What becomes of a row. Failed or cancelled it can only be because a dependency is, after the call. */
  ghost predicate RowRetried(ex: Execution, n: Name, r: Execution, m: Name)
    requires Rows(ex) && r.state.Keys == r.retries.Keys == ex.state.Keys && m in ex.state
  {
    && r.retries[m] == (if Revived(ex, n, m) then 0 else ex.retries[m])
    && (!UpForPass(ex, n, m) ==> r.state[m] == ex.state[m])
    && (UpForPass(ex, n, m) ==>
         && r.state[m] in {Pending, Enqueued, Failure, Stopped}
         && (r.state[m] == Enqueued <==> DependenciesStand(ex, n, m))
         && (r.state[m] == Failure ==> exists d :: d in ex.graph[m] && (d in r.state ==> r.state[d] == Failure))
         && (r.state[m] == Stopped ==> exists d :: d in ex.graph[m] && d in r.state && r.state[d] == Stopped))
  }

  /** The `k`-th job is new, and the first of a task queued by the call. */
  ghost predicate NewFirst(db: Db, n: Name, r: Db, k: JobId, now: Time, maxAttempts: nat) {
    && |db.jobs| <= k < |r.jobs|
    && var m := r.jobs[k].task;
    && UpForPass(db.ex, n, m) && m in r.ex.state && r.ex.state[m] == Enqueued && m in db.ex.config && m in r.ex.retries
    && Fills(r.jobs[k], db.ex, m, now + db.ex.config[m].delaySeconds, now, r.ex.retries[m], maxAttempts)
  }

  /** What `retry_task` makes of the rows and the table. */
  ghost predicate RetriedAs(db: Db, n: Name, r: Db, now: Time, maxAttempts: nat)
    requires Rows(db.ex)
  {
    if !Changeable(db.ex, n) then r == db
    else
      && r.ex.state.Keys == r.ex.retries.Keys == db.ex.state.Keys && SameDefinitions(db.ex, r.ex)
      && !r.ex.cancellationRequested && StatusFits(r.ex.status, r.ex.state, false)
      && (forall m :: m in db.ex.state ==> RowRetried(db.ex, n, r.ex, m))
      && |db.jobs| <= |r.jobs| && r.jobs[..|db.jobs|] == db.jobs
      && (forall k: JobId :: |db.jobs| <= k < |r.jobs| ==> NewFirst(db, n, r, k, now, maxAttempts))
      && (forall m :: UpForPass(db.ex, n, m) && r.ex.state[m] == Enqueued ==>
           exists k: JobId :: |db.jobs| <= k < |r.jobs| && r.jobs[k].task == m)
      && (forall k, l :: |db.jobs| <= k < l < |r.jobs| ==> r.jobs[k].task != r.jobs[l].task)
  }

  // ---- proof ----

  /** What a pass makes of a row, in terms of the rows after it. */
  lemma RowAfterPass(g: Graph, order: seq<Name>, st: States, st': States, n: Name)
    requires DecidedInOrder(g, order, st, st') && n in order && n in g && n in st
    requires forall d :: d in st ==> d in order
    ensures st[n] != Pending ==> st'[n] == st[n]
    ensures st[n] == Pending ==>
      && st'[n] in {Failure, Stopped, Enqueued, Pending}
      && (st'[n] == Enqueued <==> forall d :: d in g[n] ==> d in st && st[d] in {Success, Skipped})
      && (st'[n] == Failure ==> exists d :: d in g[n] && (d in st' ==> st'[d] == Failure))
      && (st'[n] == Stopped ==> exists d :: d in g[n] && d in st' && st'[d] == Stopped)
  {
    var i: nat :| i < |order| && order[i] == n;
    assert DecidedAt(g, order, st, st', i);
    if st[n] == Pending && (st'[n] == Failure || st'[n] == Stopped) {
      assert SeesDep(g, order, st, st', i, st'[n]) || exists d :: d in g[n] && d !in st;
      if SeesDep(g, order, st, st', i, st'[n]) {
        var d :| d in g[n] && d in st && d in st' && Seen(order, st, st', i, d) == st'[n];
        var k: nat :| k < |order| && order[k] == d;
        assert DecidedAt(g, order, st, st', k);
        assert st'[d] == st'[n];
      }
    }
  }

  lemma ResetColumns(ex: Execution, n: Name)
    requires Rows(ex)
    ensures var ex1 := ResetBranch(ex, n);
      && Rows(ex1) && SameDefinitions(ex, ex1) && !ex1.cancellationRequested
      && ex1.state.Keys == ex.state.Keys
      && (forall m :: m in ex.state ==>
           ex1.state[m] == (if Revived(ex, n, m) then Pending else ex.state[m])
           && ex1.retries[m] == (if Revived(ex, n, m) then 0 else ex.retries[m]))
  {
    R.ResetRows(ex, n);
    hide Reaches, Elements;
  }

  lemma RowIsRetried(ex: Execution, n: Name, ex1: Execution, r: Execution, m: Name)
    requires Rows(ex) && Rows(ex1) && SameDefinitions(ex, ex1) && ex1.state.Keys == ex.state.Keys
    requires forall d :: d in ex.state ==>
      ex1.state[d] == (if Revived(ex, n, d) then Pending else ex.state[d])
      && ex1.retries[d] == (if Revived(ex, n, d) then 0 else ex.retries[d])
    requires r.retries == ex1.retries && DecidedInOrder(ex.graph, ex.order, ex1.state, r.state) && m in ex.state
    ensures RowRetried(ex, n, r, m)
  {
    hide Rows, DecidedInOrder, InBranch;
    RowsInOrder(ex);
    RowAfterPass(ex.graph, ex.order, ex1.state, r.state, m);
    assert r.state.Keys == ex1.state.Keys by { DecidedKeys(ex.graph, ex.order, ex1.state, r.state); }
    if UpForPass(ex, n, m) {
      assert ex1.state[m] == Pending;
      assert DependenciesStand(ex, n, m) <==>
        forall d :: d in ex.graph[m] ==> d in ex1.state && ex1.state[d] in {Success, Skipped};
    }
  }

  lemma DecidedKeys(g: Graph, order: seq<Name>, st: States, st': States)
    requires DecidedInOrder(g, order, st, st')
    ensures st'.Keys == st.Keys
  {
  }

  lemma RowsInOrder(ex: Execution)
    requires Rows(ex)
    ensures ex.graph.Keys == ex.state.Keys == ex.config.Keys == ex.retries.Keys
    ensures forall d :: d in ex.state <==> d in ex.order
  {
    forall d ensures d in ex.state <==> d in ex.order { assert d in Elements(ex.order) <==> d in ex.order; }
  }

  /** Every accepted retry, on any rows: the task and what is below it start over, cancelled and skipped rows included,
      everything else is as the pass finds it, and each task queued by it has one new job. A refused one changes
      nothing. */
  lemma RetryTaskEffect(db: Db, n: Name, now: Time, maxAttempts: nat)
    requires Rows(db.ex) && Distinct(db.ex.order)
    ensures RetriedAs(db, n, RetryTask(db, n, now, maxAttempts), now, maxAttempts)
  {
    hide Rows, Distinct, ResetBranch, EnqueueReady, PassedOn, Revived, RowRetried, NewFirst, UpForPass, StatusFits;
    if MayRetry(db.ex, n) {
      var db1 := db.(ex := ResetBranch(db.ex, n));
      ResetColumns(db.ex, n);
      EnqueueReadyEffect(db1, now, maxAttempts);
      ResetThenPass(db, n, db1, EnqueueReady(db1, now, maxAttempts), now, maxAttempts);
    }
  }

  lemma ResetThenPass(db: Db, n: Name, db1: Db, r: Db, now: Time, maxAttempts: nat)
    requires Rows(db.ex) && Rows(db1.ex) && SameDefinitions(db.ex, db1.ex) && db1.ex.state.Keys == db.ex.state.Keys
    requires !db1.ex.cancellationRequested && db1.jobs == db.jobs && Changeable(db.ex, n)
    requires forall d :: d in db.ex.state ==>
      db1.ex.state[d] == (if Revived(db.ex, n, d) then Pending else db.ex.state[d])
      && db1.ex.retries[d] == (if Revived(db.ex, n, d) then 0 else db.ex.retries[d])
    requires PassedOn(db1, r, now, maxAttempts)
    ensures RetriedAs(db, n, r, now, maxAttempts)
  {
    hide Rows, DecidedInOrder, Revived, StatusFits, Queues, RowRetried, NewFirst, UpForPass;
    DecidedKeys(db1.ex.graph, db1.ex.order, db1.ex.state, r.ex.state);
    assert r.ex.retries == db1.ex.retries && SameDefinitions(db.ex, r.ex);
    RowsInOrder(db.ex);
    RowsInOrder(db1.ex);
    forall m | m in db.ex.state ensures RowRetried(db.ex, n, r.ex, m) {
      RowIsRetried(db.ex, n, db1.ex, r.ex, m);
    }
    ResetThenQueued(db, n, db1, r, now, maxAttempts);
  }

  lemma ResetThenQueued(db: Db, n: Name, db1: Db, r: Db, now: Time, maxAttempts: nat)
    requires db1.jobs == db.jobs && SameDefinitions(db.ex, db1.ex) && db1.ex.state.Keys == db.ex.state.Keys
    requires r.ex.state.Keys == r.ex.retries.Keys == db.ex.state.Keys && r.ex.retries == db1.ex.retries
    requires forall d :: d in db.ex.state ==>
      db1.ex.state[d] == (if Revived(db.ex, n, d) then Pending else db.ex.state[d])
    requires Queues(db1, r, now, maxAttempts)
    ensures |db.jobs| <= |r.jobs| && r.jobs[..|db.jobs|] == db.jobs
    ensures forall k: JobId :: |db.jobs| <= k < |r.jobs| ==> NewFirst(db, n, r, k, now, maxAttempts)
    ensures forall m :: UpForPass(db.ex, n, m) && r.ex.state[m] == Enqueued ==>
      exists k: JobId :: |db.jobs| <= k < |r.jobs| && r.jobs[k].task == m
    ensures forall k, l :: |db.jobs| <= k < l < |r.jobs| ==> r.jobs[k].task != r.jobs[l].task
  {
    hide Revived;
    forall m ensures NewlyQueued(db1.ex.state, r.ex.state, m) <==>
        UpForPass(db.ex, n, m) && m in r.ex.state && r.ex.state[m] == Enqueued {
    }
    hide NewlyQueued, UpForPass;
    forall k: JobId | |db.jobs| <= k < |r.jobs| ensures NewFirst(db, n, r, k, now, maxAttempts) {
      assert FirstOf(db1, r, k, now, maxAttempts);
    }
    forall m | UpForPass(db.ex, n, m) && r.ex.state[m] == Enqueued
      ensures exists k: JobId :: |db.jobs| <= k < |r.jobs| && r.jobs[k].task == m {
      assert NewlyQueued(db1.ex.state, r.ex.state, m);
    }
  }

  // ---- what an operator gets ----

  /** In a graph without cycles no dependency of `n` lies in its own branch. */
  lemma DependenciesApart(g: Graph, n: Name)
    requires Acyclic(g) && n in g
    ensures forall d :: d in g[n] ==> !InBranch(g, n, d)
  {
    forall d | d in g[n] ensures !InBranch(g, n, d) {
      EdgeReaches(g, d, n);
      if Reaches(g, n, d) { ReachesTransitive(g, n, d, n); }
    }
  }

  /** Of the jobs added to the table, exactly the `k`-th is for `n`. */
  ghost predicate OnlyNewJob(db: Db, n: Name, r: Db, k: JobId) {
    && |db.jobs| <= k < |r.jobs| && r.jobs[k].task == n
    && forall l :: |db.jobs| <= l < |r.jobs| && r.jobs[l].task == n ==> l == k
  }

  /** Retrying a failed, cancelled or pending task whose dependencies have succeeded or were skipped queues it, with no
      retries counted and exactly one new job, that waits for the task's delay. */
  lemma RetriedTaskIsQueued(db: Db, n: Name, now: Time, maxAttempts: nat)
    requires Rows(db.ex) && Distinct(db.ex.order) && Acyclic(db.ex.graph)
    requires n in db.ex.state && n in db.ex.graph && n in db.ex.config && db.ex.state[n] in {Failure, Stopped, Pending}
    requires forall d :: d in db.ex.graph[n] ==> d in db.ex.state && db.ex.state[d] in {Success, Skipped}
    ensures var r := RetryTask(db, n, now, maxAttempts);
      && n in r.ex.state && r.ex.state[n] == Enqueued && n in r.ex.retries && r.ex.retries[n] == 0
      && |db.jobs| < |r.jobs| && r.jobs[..|db.jobs|] == db.jobs
      && exists k: JobId :: OnlyNewJob(db, n, r, k)
           && Fills(r.jobs[k], db.ex, n, now + db.ex.config[n].delaySeconds, now, 0, maxAttempts)
  {
    hide Rows, Distinct, RetryTask, Acyclic, Reaches, StatusFits, Fills;
    RetryTaskEffect(db, n, now, maxAttempts);
    DependenciesApart(db.ex.graph, n);
    var r := RetryTask(db, n, now, maxAttempts);
    assert RowRetried(db.ex, n, r.ex, n);
    assert UpForPass(db.ex, n, n) && DependenciesStand(db.ex, n, n);
    hide RowRetried, UpForPass, DependenciesStand;
    var k: JobId :| |db.jobs| <= k < |r.jobs| && r.jobs[k].task == n;
    assert NewFirst(db, n, r, k, now, maxAttempts);
    assert OnlyNewJob(db, n, r, k);
  }

  function In(st: States, x: TaskState): set<Name> { set m | m in st && st[m] == x }

  /** After the call a failed task waits for a failed one, a cancelled task for a cancelled one. */
  lemma LostWaits(db: Db, n: Name, r: Execution, m: Name, x: TaskState)
    requires Rows(db.ex) && Known(db.ex.graph) && r.state.Keys == r.retries.Keys == db.ex.state.Keys == db.ex.graph.Keys
    requires m in r.state && r.state[m] == x && x in {Failure, Stopped} && RowRetried(db.ex, n, r, m)
    requires db.ex.state[m] in {Failure, Stopped} ==> InBranch(db.ex.graph, n, m)
    ensures WaitsFor(db.ex.graph, In(r.state, x), m)
  {
    hide Rows, InBranch;
    var d :| d in db.ex.graph[m] && (d in r.state ==> r.state[d] == x);
    assert d in db.ex.graph;
  }

  lemma NoneLost(db: Db, n: Name, r: Execution, x: TaskState)
    requires Rows(db.ex) && Known(db.ex.graph) && Acyclic(db.ex.graph) && x in {Failure, Stopped}
    requires r.state.Keys == r.retries.Keys == db.ex.state.Keys == db.ex.graph.Keys
    requires forall m :: m in db.ex.state ==> RowRetried(db.ex, n, r, m)
    requires forall m :: m in db.ex.state && db.ex.state[m] in {Failure, Stopped} ==> InBranch(db.ex.graph, n, m)
    ensures In(r.state, x) == {}
  {
    hide Rows, Acyclic, Known, InBranch, RowRetried, WaitsFor;
    if In(r.state, x) != {} {
      forall m | m in In(r.state, x) ensures WaitsFor(db.ex.graph, In(r.state, x), m) {
        LostWaits(db, n, r, m, x);
      }
      MutualWaitIsCycle(db.ex.graph, In(r.state, x));
    }
  }

  /** If every failed or cancelled task lies in the branch of the retried one, none is left: a cancelled execution comes
      back to life. */
  lemma RetryRevives(db: Db, n: Name, now: Time, maxAttempts: nat)
    requires Rows(db.ex) && Distinct(db.ex.order) && Known(db.ex.graph) && Acyclic(db.ex.graph)
    requires n in db.ex.state && db.ex.state[n] in {Failure, Stopped, Pending}
    requires forall m :: m in db.ex.state && db.ex.state[m] in {Failure, Stopped} ==> InBranch(db.ex.graph, n, m)
    ensures var r := RetryTask(db, n, now, maxAttempts);
      && !r.ex.cancellationRequested && forall m :: m in r.ex.state ==> r.ex.state[m] !in {Failure, Stopped}
  {
    var r := RetryTask(db, n, now, maxAttempts);
    RowsInOrder(db.ex);
    hide Rows, Distinct, RetryTask, Known, Acyclic, InBranch, RowRetried, StatusFits, In, NewFirst, UpForPass;
    RetryTaskEffect(db, n, now, maxAttempts);
    NoneLost(db, n, r.ex, Failure);
    NoneLost(db, n, r.ex, Stopped);
    forall m | m in r.ex.state ensures r.ex.state[m] !in {Failure, Stopped} {
      NotIn(r.ex.state, Failure, m);
      NotIn(r.ex.state, Stopped, m);
    }
  }

  lemma NotIn(st: States, x: TaskState, m: Name)
    requires In(st, x) == {} && m in st
    ensures st[m] != x
  {
    assert m !in In(st, x);
  }
}
