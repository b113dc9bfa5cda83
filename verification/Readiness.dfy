/** What one pass of `enqueue_ready_tasks` and one run of `_fail_downstream` achieve. */
module Readiness {
  import opened Dag
  import opened Q = QueueRecords
  import opened E = ExecutionState

  /** The tasks of the list that are pending and ready, in list order. */
  function ReadyNames(g: Graph, st: States, names: seq<Name>): seq<Name>
    requires forall n :: n in names ==> n in g && n in st
  {
    if names == [] then []
    else if st[names[0]] == Pending && Ready(g, st, names[0]) then [names[0]] + ReadyNames(g, st, names[1..])
    else ReadyNames(g, st, names[1..])
  }

  function FirstJobs(ex: Execution, names: seq<Name>, now: Time, maxAttempts: nat): Jobs
    requires forall n :: n in names ==> n in ex.config && n in ex.retries
  {
    if names == [] then [] else [FirstJob(ex, names[0], now, maxAttempts)] + FirstJobs(ex, names[1..], now, maxAttempts)
  }

  lemma {:induction false} FirstJobsAre(ex: Execution, names: seq<Name>, now: Time, maxAttempts: nat)
    requires forall n :: n in names ==> n in ex.config && n in ex.retries
    ensures var r := FirstJobs(ex, names, now, maxAttempts);
      |r| == |names| && forall i :: 0 <= i < |names| ==> r[i] == FirstJob(ex, names[i], now, maxAttempts)
  {
    if names != [] {
      hide FirstJob;
      FirstJobsAre(ex, names[1..], now, maxAttempts);
    }
  }

  lemma {:induction false} ReadyNamesAre(g: Graph, st: States, names: seq<Name>)
    requires Distinct(names) && forall n :: n in names ==> n in g && n in st
    ensures Distinct(ReadyNames(g, st, names))
    ensures forall n :: n in ReadyNames(g, st, names) <==> n in names && st[n] == Pending && Ready(g, st, n)
  {
    if names == [] {
    } else {
      ReadyNamesAre(g, st, names[1..]);
      hide Ready;
      var rest := ReadyNames(g, st, names[1..]);
      assert names == [names[0]] + names[1..];
      assert names[0] !in rest;
    }
  }

  /** The same tasks count as satisfied. */
  ghost predicate SameSatisfied(st: States, st': States) {
    st.Keys == st'.Keys && forall d :: d in st ==> (Satisfied(st[d]) <==> Satisfied(st'[d]))
  }

  lemma ReadySame(g: Graph, st: States, st': States, n: Name)
    requires SameSatisfied(st, st') && n in g
    ensures Ready(g, st, n) <==> Ready(g, st', n)
  {
  }

  lemma {:induction false} ReadyNamesSame(g: Graph, st: States, st': States, names: seq<Name>)
    requires SameSatisfied(st, st') && forall n :: n in names ==> n in g && n in st
    requires forall n :: n in names ==> st[n] == st'[n]
    ensures ReadyNames(g, st, names) == ReadyNames(g, st', names)
  {
    if names != [] {
      ReadySame(g, st, st', names[0]);
      ReadyNamesSame(g, st, st', names[1..]);
    }
  }

  lemma {:induction false} FirstJobsSame(ex: Execution, ex': Execution, names: seq<Name>, now: Time, maxAttempts: nat)
    requires ex' == ex.(state := ex'.state)
    requires forall n :: n in names ==> n in ex.config && n in ex.retries
    ensures FirstJobs(ex, names, now, maxAttempts) == FirstJobs(ex', names, now, maxAttempts)
  {
    if names != [] {
      FirstJobsSame(ex, ex', names[1..], now, maxAttempts);
    }
  }

  /** The loop has turned `st` into `st'` by deciding the listed tasks. */
  ghost predicate Decided(g: Graph, st: States, st': States, names: seq<Name>) {
    && st'.Keys == st.Keys
    && (forall n :: n in st && (n !in names || st[n] != Pending) ==> st'[n] == st[n])
    && (forall n :: n in st && n in g && n in names && st[n] == Pending ==>
          && (st'[n] == Pending || st'[n] == Enqueued || st'[n] == Failure || st'[n] == Stopped)
          && (st'[n] == Enqueued <==> Ready(g, st, n)))
  }

  lemma RuleQueues(g: Graph, st: States, n: Name)
    requires n in g
    ensures Rule(g, st, n) == Enqueued <==> Ready(g, st, n)
  {
  }

  lemma DecidedOne(g: Graph, st: States, n: Name)
    requires n in g && n in st && st[n] == Pending
    ensures SameSatisfied(st, st[n := Rule(g, st, n)]) && Decided(g, st, st[n := Rule(g, st, n)], [n])
  {
    RuleQueues(g, st, n);
    hide Ready, Missing, SomeDep;
  }

  lemma DecidedSatisfied(g: Graph, st: States, st': States, names: seq<Name>)
    requires Decided(g, st, st', names) && st.Keys <= g.Keys
    ensures SameSatisfied(st, st')
  {
    hide Ready;
  }

  lemma DecidedThen(g: Graph, st: States, st1: States, st2: States, n: Name, names: seq<Name>)
    requires Decided(g, st, st1, [n]) && SameSatisfied(st, st1) && Decided(g, st1, st2, names) && n !in names
      && st.Keys <= g.Keys
    ensures Decided(g, st, st2, [n] + names)
  {
    forall m | m in st && m in g ensures Ready(g, st, m) <==> Ready(g, st1, m) {
      ReadySame(g, st, st1, m);
    }
    hide Ready;
  }

  /** Whatever the list order, a pass queues exactly the tasks that were ready when it began, one fresh job each. */
  lemma {:induction false} PassQueuesReady(db: Db, names: seq<Name>, now: Time, maxAttempts: nat)
    requires Rows(db.ex) && Elements(names) <= Elements(db.ex.order) && Distinct(names)
    ensures forall n :: n in names ==> n in db.ex.graph && n in db.ex.state && n in db.ex.config && n in db.ex.retries
    ensures forall n :: n in ReadyNames(db.ex.graph, db.ex.state, names) ==> n in names
    ensures var r := EnqueueAll(db, names, now, maxAttempts);
      && r.ex == db.ex.(state := r.ex.state)
      && Decided(db.ex.graph, db.ex.state, r.ex.state, names)
      && r.jobs == db.jobs + FirstJobs(db.ex, ReadyNames(db.ex.graph, db.ex.state, names), now, maxAttempts)
    decreases |names|, 1
  {
    forall n | n in names ensures n in db.ex.graph && n in db.ex.state && n in db.ex.config && n in db.ex.retries {
      assert n in Elements(names);
    }
    ReadyNamesAre(db.ex.graph, db.ex.state, names);
    if names != [] {
      PassStep(db, names, now, maxAttempts);
    }
  }

  lemma {:induction false} PassStep(db: Db, names: seq<Name>, now: Time, maxAttempts: nat)
    requires Rows(db.ex) && Elements(names) <= Elements(db.ex.order) && Distinct(names) && names != []
    requires forall n :: n in names ==> n in db.ex.graph && n in db.ex.state && n in db.ex.config && n in db.ex.retries
    requires forall n :: n in ReadyNames(db.ex.graph, db.ex.state, names) ==> n in names
    ensures var r := EnqueueAll(db, names, now, maxAttempts);
      && r.ex == db.ex.(state := r.ex.state)
      && Decided(db.ex.graph, db.ex.state, r.ex.state, names)
      && r.jobs == db.jobs + FirstJobs(db.ex, ReadyNames(db.ex.graph, db.ex.state, names), now, maxAttempts)
    decreases |names|, 0
  {
    var n, rest, g, st := names[0], names[1..], db.ex.graph, db.ex.state;
    var db1 := EnqueueOne(db, n, now, maxAttempts);
    assert names == [n] + rest && n !in rest;
    assert forall m :: m in rest ==> m in names;
    assert Elements(rest) <= Elements(names);
    var r := EnqueueAll(db1, rest, now, maxAttempts);
    assert EnqueueAll(db, names, now, maxAttempts) == r;
    hide EnqueueAll, Distinct, Elements, ReadyNames, FirstJobs, FirstJob, Ready;
    if st[n] == Pending {
      DecidedOne(g, st, n);
    }
    assert db1.ex == db.ex.(state := db1.ex.state);
    assert SameSatisfied(st, db1.ex.state) && Decided(g, st, db1.ex.state, [n]) && st.Keys <= g.Keys;
    hide Ready, Rule, Distinct, Elements, FirstJob, FirstJobs, ReadyNames, EnqueueAll, EnqueueOne, Decided,
      SameSatisfied;
    PassQueuesReady(db1, rest, now, maxAttempts);
    StepJobs(db, n, rest, now, maxAttempts);
    DecidedThen(g, st, db1.ex.state, r.ex.state, n, rest);
  }

  lemma StepJobs(db: Db, n: Name, rest: seq<Name>, now: Time, maxAttempts: nat)
    requires Rows(db.ex) && n !in rest
    requires forall m :: m in [n] + rest ==>
      m in db.ex.graph && m in db.ex.state && m in db.ex.config && m in db.ex.retries
    requires forall m :: m in ReadyNames(db.ex.graph, db.ex.state, [n] + rest) ==> m in [n] + rest
    ensures var db1, g, st := EnqueueOne(db, n, now, maxAttempts), db.ex.graph, db.ex.state;
      && (forall m :: m in ReadyNames(g, db1.ex.state, rest) ==> m in db.ex.config && m in db.ex.retries)
      && db.jobs + FirstJobs(db.ex, ReadyNames(g, st, [n] + rest), now, maxAttempts)
         == db1.jobs + FirstJobs(db1.ex, ReadyNames(g, db1.ex.state, rest), now, maxAttempts)
  {
    var db1, g, st := EnqueueOne(db, n, now, maxAttempts), db.ex.graph, db.ex.state;
    assert ([n] + rest)[0] == n && ([n] + rest)[1..] == rest;
    if st[n] == Pending {
      DecidedOne(g, st, n);
      RuleQueues(g, st, n);
    }
    ReadyNamesSame(g, st, db1.ex.state, rest);
    var later := ReadyNames(g, st, rest);
    var ready := st[n] == Pending && Ready(g, st, n);
    assert ReadyNames(g, st, [n] + rest) == if ready then [n] + later else later;
    assert db1.jobs == if ready then db.jobs + [FirstJob(db.ex, n, now, maxAttempts)] else db.jobs;
    hide EnqueueOne, Rule, Ready, Decided, SameSatisfied, Rows, ReadyNames;
    if ready { assert forall m :: m in later ==> m in [n] + later; }
    FirstJobsSame(db.ex, db1.ex, later, now, maxAttempts);
    if ready { FirstJobsMore(db, n, later, now, maxAttempts); }
  }

  lemma FirstJobsMore(db: Db, n: Name, later: seq<Name>, now: Time, maxAttempts: nat)
    requires forall m :: m in [n] + later ==> m in db.ex.config && m in db.ex.retries
    requires n in db.ex.config && n in db.ex.retries
      && forall m :: m in later ==> m in db.ex.config && m in db.ex.retries
    ensures db.jobs + FirstJobs(db.ex, [n] + later, now, maxAttempts)
         == (db.jobs + [FirstJob(db.ex, n, now, maxAttempts)]) + FirstJobs(db.ex, later, now, maxAttempts)
  {
    assert ([n] + later)[1..] == later && ([n] + later)[0] == n;
    hide FirstJob;
  }

  // ---- when one pass is enough ----

  /** No pending task has a missing, failed or cancelled dependency. */
  ghost predicate Clean(g: Graph, st: States) {
    forall n :: n in st && n in g && st[n] == Pending ==>
      !Missing(g, st, n) && !SomeDep(g, st, n, Failure) && !SomeDep(g, st, n, Stopped)
  }

  lemma CleanOne(g: Graph, st: States, n: Name)
    requires Clean(g, st) && n in st && n in g && st[n] == Pending
    ensures Clean(g, st[n := Rule(g, st, n)]) && (Rule(g, st, n) == Pending || Rule(g, st, n) == Enqueued)
  {
    var st' := st[n := Rule(g, st, n)];
    forall m | m in st' && m in g && st'[m] == Pending
      ensures !Missing(g, st', m) && !SomeDep(g, st', m, Failure) && !SomeDep(g, st', m, Stopped)
    {
      assert !Missing(g, st, m) && !SomeDep(g, st, m, Failure) && !SomeDep(g, st, m, Stopped);
    }
  }

  lemma {:induction false} CleanPass(db: Db, names: seq<Name>, now: Time, maxAttempts: nat)
    requires Rows(db.ex) && Elements(names) <= Elements(db.ex.order) && Clean(db.ex.graph, db.ex.state)
    ensures var r := EnqueueAll(db, names, now, maxAttempts);
      r.ex.graph == db.ex.graph && r.ex.state.Keys == db.ex.state.Keys && Clean(db.ex.graph, r.ex.state)
      && forall n :: n in db.ex.state ==> r.ex.state[n] == db.ex.state[n] || r.ex.state[n] == Enqueued
    decreases |names|
  {
    if names != [] {
      var n := names[0];
      assert n in Elements(names) && Elements(names[1..]) <= Elements(names);
      if db.ex.state[n] == Pending { CleanOne(db.ex.graph, db.ex.state, n); }
      hide Clean, Rule, FirstJob, Elements;
      CleanPass(EnqueueOne(db, n, now, maxAttempts), names[1..], now, maxAttempts);
    }
  }

  /** After a pass over clean rows no pending task is ready or blocked. */
  lemma CleanPassSettles(db: Db, now: Time, maxAttempts: nat)
    requires Rows(db.ex) && Distinct(db.ex.order) && Clean(db.ex.graph, db.ex.state)
    ensures var r := EnqueueAll(db, db.ex.order, now, maxAttempts);
      forall n :: n in r.ex.state && n in db.ex.graph && r.ex.state[n] == Pending ==>
        !SomeDep(db.ex.graph, r.ex.state, n, Failure) && !Ready(db.ex.graph, r.ex.state, n)
  {
    var r, g, st := EnqueueAll(db, db.ex.order, now, maxAttempts), db.ex.graph, db.ex.state;
    CleanPass(db, db.ex.order, now, maxAttempts);
    PassQueuesReady(db, db.ex.order, now, maxAttempts);
    DecidedSatisfied(g, st, r.ex.state, db.ex.order);
    forall n | n in r.ex.state && n in g && r.ex.state[n] == Pending
      ensures !SomeDep(g, r.ex.state, n, Failure) && !Ready(g, r.ex.state, n)
    {
      assert n in Elements(db.ex.order);
      ReadySame(g, st, r.ex.state, n);
    }
  }

  lemma RuleLocal(g: Graph, st: States, st': States, n: Name)
    requires n in g && forall d :: d in g[n] ==> (d in st <==> d in st') && (d in st ==> st[d] == st'[d])
    ensures Rule(g, st, n) == Rule(g, st', n)
  {
    assert Missing(g, st, n) == Missing(g, st', n);
    assert SomeDep(g, st, n, Failure) == SomeDep(g, st', n, Failure);
    assert SomeDep(g, st, n, Stopped) == SomeDep(g, st', n, Stopped);
    assert Ready(g, st, n) == Ready(g, st', n);
  }

  /** The rules leave a task alone. */
  predicate Quiet(g: Graph, st: States, n: Name) {
    n in g && n in st && (st[n] == Pending ==> Rule(g, st, n) == Pending)
  }

  lemma QuietStays(g: Graph, st: States, done: seq<Name>, n: Name, x: TaskState)
    requires DependenciesFirst(g, done) && n !in done && n in st && (forall m :: m in done ==> Quiet(g, st, m))
    ensures forall m :: m in done ==> Quiet(g, st[n := x], m)
  {
    forall m | m in done ensures Quiet(g, st[n := x], m) {
      assert Quiet(g, st, m);
      var i :| 0 <= i < |done| && done[i] == m;
      forall d | d in g[m] ensures d != n { assert d in done[..i]; }
      RuleLocal(g, st, st[n := x], m);
    }
  }

  lemma {:induction false} PassQuiets(db: Db, done: seq<Name>, names: seq<Name>, now: Time, maxAttempts: nat)
    requires Rows(db.ex) && Elements(names) <= Elements(db.ex.order)
    requires DependenciesFirst(db.ex.graph, done + names)
    requires forall m :: m in done ==> Quiet(db.ex.graph, db.ex.state, m)
    ensures var r := EnqueueAll(db, names, now, maxAttempts);
      r.ex.graph == db.ex.graph && forall m :: m in done + names ==> Quiet(db.ex.graph, r.ex.state, m)
    decreases |names|
  {
    if names == [] {
      assert done + names == done;
    } else {
      var n, g, st := names[0], db.ex.graph, db.ex.state;
      assert n in Elements(names) && Elements(names[1..]) <= Elements(names);
      var db1 := EnqueueOne(db, n, now, maxAttempts);
      assert done + names == (done + [n]) + names[1..];
      FirstPart(g, done, n, names[1..]);
      QuietStays(g, st, done, n, Rule(g, st, n));
      assert Quiet(g, db1.ex.state, n);
      assert db1.ex.state == st || db1.ex.state == st[n := Rule(g, st, n)];
      hide Quiet, DependenciesFirst, Rule, Elements;
      PassQuiets(db1, done + [n], names[1..], now, maxAttempts);
    }
  }

  lemma FirstPart(g: Graph, done: seq<Name>, n: Name, rest: seq<Name>)
    requires DependenciesFirst(g, done + [n] + rest)
    ensures DependenciesFirst(g, done) && n !in done
  {
    var all := done + [n] + rest;
    assert done == all[..|done|] && all[|done|] == n;
    forall i, d | 0 <= i < |done| && d in g[done[i]] ensures d in done[..i] {
      assert all[i] == done[i] && all[..i] == done[..i];
    }
    forall i, j | 0 <= i < j < |done| ensures done[i] != done[j] { assert all[i] == done[i] && all[j] == done[j]; }
    forall i | 0 <= i < |done| ensures done[i] in g && done[i] != n { assert all[i] == done[i]; }
  }

  lemma {:induction false} QuietPass(db: Db, names: seq<Name>, now: Time, maxAttempts: nat)
    requires Rows(db.ex) && Elements(names) <= Elements(db.ex.order)
    requires forall m :: m in names ==> Quiet(db.ex.graph, db.ex.state, m)
    ensures EnqueueAll(db, names, now, maxAttempts) == db
    decreases |names|
  {
    if names != [] {
      assert names[0] in Elements(names) && Elements(names[1..]) <= Elements(names);
      assert Quiet(db.ex.graph, db.ex.state, names[0]);
      assert db.ex.state[names[0] := db.ex.state[names[0]]] == db.ex.state;
      QuietPass(db, names[1..], now, maxAttempts);
    }
  }

  /** When the rows are listed dependencies-first, a second pass would change nothing. */
  lemma OnePassIsEnough(db: Db, now: Time, maxAttempts: nat)
    requires Rows(db.ex) && Distinct(db.ex.order) && DependenciesFirst(db.ex.graph, db.ex.order)
    ensures var r := EnqueueAll(db, db.ex.order, now, maxAttempts);
      r.ex.order == db.ex.order && EnqueueAll(r, db.ex.order, now, maxAttempts) == r
  {
    assert [] + db.ex.order == db.ex.order;
    hide DependenciesFirst, Quiet, Rows, Elements, Decided;
    PassQuiets(db, [], db.ex.order, now, maxAttempts);
    PassQueuesReady(db, db.ex.order, now, maxAttempts);
    QuietPass(EnqueueAll(db, db.ex.order, now, maxAttempts), db.ex.order, now, maxAttempts);
  }

  // ---- failure propagation ----

  lemma FailedDepDooms(g: Graph, st: States, n: Name)
    requires n in st && n in g && st[n] == Pending && SomeDep(g, FailDownstream(g, st), n, Failure)
    ensures Doomed(g, st, n)
  {
    var st' := FailDownstream(g, st);
    var d :| d in g[n] && d in st' && st'[d] == Failure;
    assert Edge(g, d, n);
    if st[d] == Failure {
      var p := [d, n];
      assert DoomPath(g, st, p) && p[1] == n;
    } else {
      var p: seq<Name> :| DoomPath(g, st, p) && p[|p| - 1] == d;
      DoomPathOn(g, st, p, n);
    }
  }

  /** Nothing that is still pending after `_fail_downstream` depends on a failed task. */
  lemma FailDownstreamCloses(g: Graph, st: States)
    ensures forall n :: n in st && n in g && FailDownstream(g, st)[n] == Pending ==>
      !SomeDep(g, FailDownstream(g, st), n, Failure)
  {
    var st' := FailDownstream(g, st);
    forall n | n in st && n in g && st'[n] == Pending ensures !SomeDep(g, st', n, Failure) {
      if SomeDep(g, st', n, Failure) {
        FailedDepDooms(g, st, n);
      }
    }
  }

  lemma DoomPathOn(g: Graph, st: States, p: seq<Name>, n: Name)
    requires DoomPath(g, st, p) && Edge(g, p[|p| - 1], n) && n in st && st[n] == Pending
    ensures DoomPath(g, st, p + [n]) && Doomed(g, st, n)
  {
    var q := p + [n];
    forall i | 0 <= i < |q| - 1 ensures Edge(g, q[i], q[i + 1]) {
      if i < |p| - 1 { assert Edge(g, p[i], p[i + 1]); }
    }
    assert q[|q| - 1] == n;
  }

  lemma {:induction false} DoomPathInside(g: Graph, st: States, failed: set<Name>, p: seq<Name>, i: nat)
    requires DoomPath(g, st, p) && i < |p|
    requires forall n :: n in st && st[n] == Failure ==> n in failed
    requires forall n, d :: n in g && n in st && st[n] == Pending && d in g[n] && d in failed ==> n in failed
    ensures p[i] in failed
  {
    if i > 0 {
      DoomPathInside(g, st, failed, p, i - 1);
      assert Edge(g, p[i - 1], p[i]);
    }
  }

  /** `_fail_downstream` fails no more than it must: any set of tasks that holds the failed ones and is
      closed under "a pending task with a failed dependency fails" holds everything it fails. */
  lemma FailDownstreamIsLeast(g: Graph, st: States, failed: set<Name>)
    requires forall n :: n in st && st[n] == Failure ==> n in failed
    requires forall n, d :: n in g && n in st && st[n] == Pending && d in g[n] && d in failed ==> n in failed
    ensures forall n :: n in st && FailDownstream(g, st)[n] == Failure ==> n in failed
  {
    forall n | n in st && FailDownstream(g, st)[n] == Failure ensures n in failed {
      if Doomed(g, st, n) {
        var p: seq<Name> :| DoomPath(g, st, p) && p[|p| - 1] == n;
        DoomPathInside(g, st, failed, p, |p| - 1);
      }
    }
  }
}
