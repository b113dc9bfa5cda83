/** Every transaction keeps the core invariant of the engine. */
module EngineCore {
  import opened Dag
  import opened Q = QueueRecords
  import opened E = ExecutionState
  import opened Engine

  // ---- how a view may change ----

  lemma DoneStays(g: Graph, v: View, v': View)
    requires DepsDone(g, v) && forall n :: n in v'.tasks ==> n in v.tasks
    requires forall d {:trigger Done(v', d)} :: Done(v, d) ==> Done(v', d)
    ensures DepsDone(g, v')
  {
    forall n, d | n in v'.tasks && n in g && d in g[n] ensures Done(v', d) {
      assert Done(v, d);
    }
  }

  /** Nothing that has a job depends on a task that is not done. */
  lemma NotDone(g: Graph, v: View, v': View, n: Name)
    requires DepsDone(g, v) && !Done(v, n)
    requires forall m :: m in v'.tasks ==> m in v.tasks
    requires forall d :: Done(v, d) && d != n ==> Done(v', d)
    ensures DepsDone(g, v')
  {
    DoneStays(g, v, v');
  }

  lemma ViewStart(g: Graph, v: View, n: Name)
    requires ViewOk(g, false, v) && n in v.tasks && (v.st[n] == Enqueued || v.st[n] == Running)
    ensures ViewOk(g, false, v.(st := v.st[n := Running], inside := v.inside + {n}))
  {
    var v' := v.(st := v.st[n := Running], inside := v.inside + {n});
    hide DepsDone, CaredFor;
    NotDone(g, v, v', n);
    assert Worked(v') by { hide OneOwner; }
    assert OneOwner(v') by { hide Worked; }
    StartCared(v, n);
  }

  lemma StartCared(v: View, n: Name)
    requires CaredFor(v) && n in v.st && (v.st[n] == Enqueued || v.st[n] == Running)
    ensures CaredFor(v.(st := v.st[n := Running], inside := v.inside + {n}))
  {
    OwnedSame(v, v.(st := v.st[n := Running], inside := v.inside + {n}));
    hide Owned;
  }

  lemma OwnedSame(v: View, v': View)
    requires v'.tasks == v.tasks && v.owners <= v'.owners
    ensures forall n :: Owned(v, n) ==> Owned(v', n)
  {
  }

  /** The owner `j` of a task is done with it. */
  lemma ViewLeave(g: Graph, stop: bool, v: View, j: JobId, s: TaskState)
    requires ViewOk(g, stop, v) && j in v.owners && (v.tasks[j] in v.inside || !Satisfied(v.st[v.tasks[j]]))
    requires s == Success || s == Failure || (s == Stopped && stop)
    ensures ViewOk(g, stop, v.(st := v.st[v.tasks[j] := s], inside := v.inside - {v.tasks[j]},
      owners := v.owners - {j}))
  {
    hide CaredFor;
    var n := v.tasks[j];
    var v' := v.(st := v.st[n := s], inside := v.inside - {n}, owners := v.owners - {j});
    assert n in v.tasks;
    hide DepsDone;
    NotDone(g, v, v', n);
    assert Worked(v') by { hide OneOwner; }
    assert OneOwner(v') by { hide Worked; }
    if !stop {
      LeaveCared(v, j, s);
    }
  }

  lemma LeaveCared(v: View, j: JobId, s: TaskState)
    requires CaredFor(v) && j in v.owners && j < |v.tasks| && (s == Success || s == Failure)
    ensures CaredFor(v.(st := v.st[v.tasks[j] := s], inside := v.inside - {v.tasks[j]}, owners := v.owners - {j}))
  {
    var v' := v.(st := v.st[v.tasks[j] := s], inside := v.inside - {v.tasks[j]}, owners := v.owners - {j});
    forall m | m in v'.st && (v'.st[m] == Enqueued || v'.st[m] == Running) ensures Owned(v', m) {
      assert Owned(v, m);
      var k :| k in v.owners && k < |v.tasks| && v.tasks[k] == m;
      assert k in v'.owners;
    }
  }

  /** The owner `j` of a task hands it over to a new job. */
  lemma ViewRetry(g: Graph, stop: bool, v: View, j: JobId)
    requires ViewOk(g, stop, v) && j in v.owners && v.tasks[j] in v.inside
    ensures var n := v.tasks[j];
      ViewOk(g, stop, View(v.st[n := Enqueued], v.tasks + [n], v.inside - {n}, v.owners - {j} + {|v.tasks|}))
  {
    var n := v.tasks[j];
    var v' := View(v.st[n := Enqueued], v.tasks + [n], v.inside - {n}, v.owners - {j} + {|v.tasks|});
    assert n in v.tasks && v'.tasks[|v.tasks|] == n;
    assert forall m :: m in v'.tasks <==> m in v.tasks;
    hide DepsDone;
    NotDone(g, v, v', n);
    assert Worked(v') by { hide CaredFor, OneOwner; }
    assert OneOwner(v') by { hide CaredFor, Worked; }
    if !stop {
      forall m | m in v'.st && (v'.st[m] == Enqueued || v'.st[m] == Running) ensures Owned(v', m) {
        if m == n {
          assert |v.tasks| in v'.owners;
        } else {
          assert Owned(v, m);
          var k :| k in v.owners && k < |v.tasks| && v.tasks[k] == m;
          assert k in v'.owners && v'.tasks[k] == m;
        }
      }
      assert CaredFor(v') by { hide DepsDone, OneOwner, Worked; }
    }
  }

  /** A ready task gets its first job. */
  lemma ViewEnqueue(g: Graph, v: View, n: Name)
    requires ViewOk(g, false, v) && n in g && v.st[n] == Pending && Ready(g, v.st, n)
    ensures ViewOk(g, false, View(v.st[n := Enqueued], v.tasks + [n], v.inside, v.owners + {|v.tasks|}))
  {
    var v' := View(v.st[n := Enqueued], v.tasks + [n], v.inside, v.owners + {|v.tasks|});
    assert v'.tasks[|v.tasks|] == n;
    assert DepsDone(g, v') by { hide OneOwner, Worked; ViewEnqueueDeps(g, v, v', n); }
    assert Worked(v') by { hide CaredFor, DepsDone, OneOwner; }
    assert OneOwner(v') by { hide CaredFor, DepsDone; }
    forall m | m in v'.st && (v'.st[m] == Enqueued || v'.st[m] == Running) ensures Owned(v', m) {
      if m == n {
        assert |v.tasks| in v'.owners;
      } else {
        assert Owned(v, m);
        var k :| k in v.owners && k < |v.tasks| && v.tasks[k] == m;
        assert k in v'.owners && v'.tasks[k] == m;
      }
    }
    assert CaredFor(v') by { hide DepsDone, OneOwner, Worked; }
  }

  lemma ViewEnqueueDeps(g: Graph, v: View, v': View, n: Name)
    requires DepsDone(g, v) && Manned(v) && n in g && v.st.Keys == g.Keys && v.st[n] == Pending && Ready(g, v.st, n)
    requires v'.st == v.st[n := Enqueued] && v'.tasks == v.tasks + [n] && v'.inside == v.inside
    ensures DepsDone(g, v')
  {
    forall m, d | m in v'.tasks && m in g && d in g[m] ensures Done(v', d) {
      if m in v.tasks {
        assert Done(v, d);
      } else {
        assert m == n && Satisfied(v.st[d]);
      }
    }
  }

  /** Tasks no worker will touch any more may fail or stop. */
  lemma ViewDrop(g: Graph, stop: bool, v: View, st: States)
    requires ViewOk(g, stop, v) && st.Keys == v.st.Keys
    requires forall n :: n in st && st[n] != v.st[n] ==>
      !Satisfied(v.st[n]) && (st[n] == Failure || (st[n] == Stopped && stop) || st[n] == Skipped)
    requires !stop ==> forall n :: n in v.inside ==> st[n] == v.st[n]
    ensures ViewOk(g, stop, v.(st := st))
  {
    var v' := v.(st := st);
    hide DepsDone, CaredFor;
    DoneStays(g, v, v');
    assert Worked(v') && OneOwner(v');
    if !stop { DropCared(v, st); }
  }

  lemma DropCared(v: View, st: States)
    requires CaredFor(v) && st.Keys == v.st.Keys
    requires forall n :: n in st && st[n] != v.st[n] ==> st[n] == Failure || st[n] == Skipped
    requires forall n :: n in v.inside ==> st[n] == v.st[n]
    ensures CaredFor(v.(st := st))
  {
    OwnedSame(v, v.(st := st));
    hide Owned;
  }

  /** The task of job `j` is neither queued nor running. */
  ghost predicate Idle(v: View, j: JobId) {
    j < |v.tasks| && v.tasks[j] in v.st && v.st[v.tasks[j]] != Enqueued && v.st[v.tasks[j]] != Running
  }

  /** Owners may go once their task needs none, or when nothing is promised any more. */
  lemma ViewFewer(g: Graph, stop: bool, v: View, inside: set<Name>, owners: set<JobId>)
    requires ViewOk(g, stop, v) && inside <= v.inside && owners <= v.owners
    requires !stop ==> forall j :: j in v.owners && j !in owners ==> Idle(v, j)
    ensures ViewOk(g, stop, v.(inside := inside, owners := owners))
  {
    var v' := v.(inside := inside, owners := owners);
    hide DepsDone;
    DoneStays(g, v, v');
    if !stop {
      forall n | n in v'.st && (v'.st[n] == Enqueued || v'.st[n] == Running) ensures Owned(v', n) {
        assert Owned(v, n);
        var j :| j in v.owners && j < |v.tasks| && v.tasks[j] == n;
        assert j in owners;
      }
    }
  }

  // ---- how the queue's statements show in the view ----

  /** `j` gives up its run and its claim on the task. */
  lemma ViewAfterAck(s: Sys, j: JobId, now: Time)
    requires Core'(s) && OwnJob(s.db, j) && j in s.runs
    ensures var jobs := Acknowledge(s.db.jobs, j, now);
      && TasksOf(jobs) == TasksOf(s.db.jobs)
      && InsideTasks(jobs, s.runs - {j}) == ViewOf(s).inside - (if s.runs[j] == Inside then {s.db.jobs[j].task} else {})
      && Owners(jobs, s.runs - {j}, s.letters) == ViewOf(s).owners - {j}
      && RunsOk(s.db.ex.cancellationRequested, jobs, s.runs - {j})
      && LettersOk(jobs, s.letters, s.buffer)
  {
    InsideOnce(s, j);
    var jobs := Acknowledge(s.db.jobs, j, now);
    assert TasksOf(jobs) == TasksOf(s.db.jobs);
    forall n ensures n in InsideTasks(jobs, s.runs - {j}) <==>
        n in ViewOf(s).inside - (if s.runs[j] == Inside then {s.db.jobs[j].task} else {}) {
      if n in ViewOf(s).inside {
        var k :| k in s.runs && k < |s.db.jobs| && s.runs[k] == Inside && s.db.jobs[k].task == n;
        if k != j { assert k in s.runs - {j} && jobs[k].task == n; }
      }
    }
    assert Owners(jobs, s.runs - {j}, s.letters) == ViewOf(s).owners - {j};
  }

  ghost predicate Core'(s: Sys) {
    && RunsOk(s.db.ex.cancellationRequested, s.db.jobs, s.runs)
    && LettersOk(s.db.jobs, s.letters, s.buffer)
    && OneOwner(ViewOf(s))
  }

  /** At most one run or letter concerns a task. */
  lemma InsideOnce(s: Sys, j: JobId)
    requires Core'(s) && OwnJob(s.db, j) && (j in s.runs || j in s.letters)
    ensures forall k :: k in s.runs && k < |s.db.jobs| && s.db.jobs[k].task == s.db.jobs[j].task ==> k == j
  {
    var v := ViewOf(s);
    forall k | k in s.runs && k < |s.db.jobs| && s.db.jobs[k].task == s.db.jobs[j].task ensures k == j {
      assert k in v.owners && j in v.owners && v.tasks[k] == v.tasks[j];
    }
  }

  lemma InsideSame(jobs: Jobs, runs: map<JobId, Phase>, jobs': Jobs, runs': map<JobId, Phase>)
    requires |jobs| <= |jobs'| && forall k :: 0 <= k < |jobs| ==> jobs'[k].task == jobs[k].task
    requires forall k :: k in runs ==> k < |jobs|
    requires forall k :: k in runs && runs[k] == Inside <==> k in runs' && runs'[k] == Inside
    ensures InsideTasks(jobs', runs') == InsideTasks(jobs, runs)
  {
    forall n ensures n in InsideTasks(jobs', runs') <==> n in InsideTasks(jobs, runs) {
      if n in InsideTasks(jobs, runs) {
        var k :| k in runs && k < |jobs| && runs[k] == Inside && jobs[k].task == n;
        assert k in runs' && jobs'[k].task == n;
      }
      if n in InsideTasks(jobs', runs') {
        var k :| k in runs' && k < |jobs'| && runs'[k] == Inside && jobs'[k].task == n;
        assert k in runs && jobs[k].task == n;
      }
    }
  }

  // ---- steps that leave the task states alone ----

  lemma ClaimKeepsCore(c: Settings, s: Sys, j: JobId, worker: WorkerId, now: Time)
    requires Core(c, s) && Enabled(s, Step.Claim(j, worker, now))
    ensures Core(c, AfterClaim(c, s, j, worker, now))
    ensures ViewOf(AfterClaim(c, s, j, worker, now)) == ViewOf(s)
  {
    hide Shape, ViewOk;
    var s' := AfterClaim(c, s, j, worker, now);
    assert j !in s.runs;
    assert ViewOf(s') == ViewOf(s) by {
      hide JobsOk, LettersOk;
      InsideSame(s.db.jobs, s.runs, s'.db.jobs, s'.runs);
      assert TasksOf(s'.db.jobs) == TasksOf(s.db.jobs);
      assert Owners(s'.db.jobs, s'.runs, s'.letters) == Owners(s.db.jobs, s.runs, s.letters);
    }
    hide ViewOf;
    assert JobsOk(c, s'.db.ex.id, s'.db.jobs);
    assert RunsOk(s'.db.ex.cancellationRequested, s'.db.jobs, s'.runs);
    assert LettersOk(s'.db.jobs, s'.letters, s'.buffer);
  }

  lemma RenewKeepsCore(c: Settings, s: Sys, j: JobId, worker: WorkerId, now: Time)
    requires Core(c, s) && Enabled(s, Step.Renew(j, worker, now))
    ensures Core(c, AfterRenew(c, s, j, worker, now))
  {
    hide Shape, ViewOk;
    var s' := AfterRenew(c, s, j, worker, now);
    assert ViewOf(s') == ViewOf(s) by {
      hide JobsOk, LettersOk;
      InsideSame(s.db.jobs, s.runs, s'.db.jobs, s'.runs);
      assert TasksOf(s'.db.jobs) == TasksOf(s.db.jobs);
      assert Owners(s'.db.jobs, s'.runs, s'.letters) == Owners(s.db.jobs, s.runs, s.letters);
    }
    hide ViewOf;
    assert JobsOk(c, s'.db.ex.id, s'.db.jobs);
    assert RunsOk(s'.db.ex.cancellationRequested, s'.db.jobs, s'.runs);
    assert LettersOk(s'.db.jobs, s'.letters, s'.buffer);
  }

  lemma CrashKeepsCore(c: Settings, s: Sys, j: JobId)
    requires Core(c, s) && Enabled(s, Crash(j))
    ensures Core(c, s.(runs := s.runs - {j}))
  {
    var s' := s.(runs := s.runs - {j});
    hide Shape, ViewOk, JobsOk;
    var v, v' := ViewOf(s), ViewOf(s');
    assert v'.inside <= v.inside && v'.owners <= v.owners;
    if !s.db.ex.cancellationRequested { assert v'.owners == v.owners; }
    ViewFewer(s.db.ex.graph, s.db.ex.cancellationRequested, v, v'.inside, v'.owners);
    assert v' == v.(inside := v'.inside, owners := v'.owners);
  }

  lemma ReapLeasesKeepsCore(c: Settings, s: Sys, now: Time)
    requires Core(c, s) && Enabled(s, ReapLeases(now))
    ensures Core(c, AfterReapLeases(s, now))
    ensures ViewOf(AfterReapLeases(s, now)) == ViewOf(s)
  {
    var s' := AfterReapLeases(s, now);
    hide Shape, ViewOk;
    InsideSame(s.db.jobs, s.runs, s'.db.jobs, s'.runs);
    assert forall j :: j in s.runs ==> s'.db.jobs[j] == s.db.jobs[j];
    assert TasksOf(s'.db.jobs) == TasksOf(s.db.jobs);
    assert Owners(s'.db.jobs, s'.runs, s'.letters) == Owners(s.db.jobs, s.runs, s.letters);
  }

  // ---- steps that take one task further ----

  /** Only the rows of the execution and its status change. */
  lemma CoreRows(c: Settings, s: Sys, ex: Execution)
    requires Core(c, s) && Rows(ex)
    requires ex.graph == s.db.ex.graph && ex.order == s.db.ex.order && ex.id == s.db.ex.id
    requires s.db.ex.cancellationRequested ==> ex.cancellationRequested
    requires ViewOk(ex.graph, ex.cancellationRequested, ViewOf(s).(st := ex.state))
    ensures Core(c, s.(db := s.db.(ex := ex)))
  {
    hide ViewOk, Known, Acyclic, Distinct, TasksOf, InsideTasks, Owners, JobOk;
    var s' := s.(db := s.db.(ex := ex));
    assert ViewOf(s') == ViewOf(s).(st := ex.state);
  }

  lemma ShapeSame(c: Settings, ex: Execution, starts: map<Name, nat>, ex': Execution, starts': map<Name, nat>)
    requires Shape(c, ex, starts) && ex'.graph == ex.graph && ex'.order == ex.order && Rows(ex')
      && starts'.Keys == starts.Keys
    ensures Shape(c, ex', starts')
  {
    hide Known, Acyclic, Distinct, Elements;
  }

  /** What a transaction must leave true, piece by piece. */
  lemma Assemble(c: Settings, s: Sys, s': Sys, v': View)
    requires Core(c, s) && Shape(c, s'.db.ex, s'.starts) && s'.db.ex.id == s.db.ex.id && s'.db.ex.graph == s.db.ex.graph
    requires JobsOk(c, s.db.ex.id, s'.db.jobs)
    requires RunsOk(s'.db.ex.cancellationRequested, s'.db.jobs, s'.runs)
    requires LettersOk(s'.db.jobs, s'.letters, s'.buffer)
    requires ViewOf(s') == v' && ViewOk(s.db.ex.graph, s'.db.ex.cancellationRequested, v')
    ensures Core(c, s')
  {
    hide Shape, JobsOk, RunsOk, LettersOk, ViewOk, ViewOf;
  }

  lemma AckKeepsJobsOk(c: Settings, id: ExecutionId, jobs: Jobs, j: JobId, now: Time)
    requires JobsOk(c, id, jobs) && j < |jobs|
    ensures JobsOk(c, id, Acknowledge(jobs, j, now))
  {
  }

  lemma SetStateRows(ex: Execution, n: Name, x: TaskState)
    requires Rows(ex) && n in ex.state
    ensures Rows(SetState(ex, n, x))
  {
    assert ex.state[n := x].Keys == ex.state.Keys;
  }

  /** What the invariant says about a job that a worker or a letter holds. */
  lemma OwnerOf(c: Settings, s: Sys, j: JobId)
    requires Core(c, s) && OwnJob(s.db, j) && (j in s.runs || j in s.letters)
    ensures var v, n := ViewOf(s), s.db.jobs[j].task;
      && j in v.owners && j < |v.tasks| && v.tasks[j] == n && n in v.tasks && v.st == s.db.ex.state
      && n in v.st && v.st[n] != Pending && v.st[n] != Retrying
      && (j in s.runs && s.runs[j] == Inside <==> n in v.inside)
      && Core'(s)
  {
    InsideOnce(s, j);
  }

  lemma InsideMore(jobs: Jobs, runs: map<JobId, Phase>, j: JobId)
    requires j < |jobs|
    requires j in runs ==> runs[j] == Holding
    ensures InsideTasks(jobs, runs[j := Inside]) == InsideTasks(jobs, runs) + {jobs[j].task}
  {
    forall n ensures n in InsideTasks(jobs, runs[j := Inside]) <==> n in InsideTasks(jobs, runs) + {jobs[j].task} {
      if n in InsideTasks(jobs, runs) {
        var k :| k in runs && k < |jobs| && runs[k] == Inside && jobs[k].task == n;
        assert k in runs[j := Inside];
      }
      if n == jobs[j].task { assert j in runs[j := Inside]; }
    }
  }

  lemma StartRuns(c: Settings, s: Sys, j: JobId, now: Time)
    requires Rows(s.db.ex) && Core(c, s) && Enabled(s, Step.Start(j, now)) && Starts(s.db, j)
    ensures Core(c, AfterStart(s, j, now))
  {
    var s' := AfterStart(s, j, now);
    var n := s.db.jobs[j].task;
    hide Shape, JobsOk, ViewOk, InsideTasks, TasksOf;
    OwnerOf(c, s, j);
    ViewStart(s.db.ex.graph, ViewOf(s), n);
    SetStateRows(s.db.ex, n, Running);
    ShapeSame(c, s.db.ex, s.starts, s'.db.ex, s'.starts);
    InsideMore(s.db.jobs, s.runs, j);
    var v' := ViewOf(s).(st := s.db.ex.state[n := Running], inside := ViewOf(s).inside + {n});
    assert Owners(s.db.jobs, s'.runs, s.letters) == Owners(s.db.jobs, s.runs, s.letters);
    hide Owners;
    Assemble(c, s, s', v');
  }

  /** `j` ends its run, and its task, if any state is given, goes to that state. */
  function Left(s: Sys, j: JobId, ex: Execution, now: Time): Sys
    requires j < |s.db.jobs|
  {
    s.(db := Db(ex, Acknowledge(s.db.jobs, j, now)), runs := s.runs - {j})
  }

  lemma LeftKeepsCore(c: Settings, s: Sys, j: JobId, ex: Execution, x: TaskState, now: Time)
    requires Core(c, s) && OwnJob(s.db, j) && j in s.runs
    requires Rows(ex) && ex.graph == s.db.ex.graph && ex.order == s.db.ex.order && ex.id == s.db.ex.id
    requires ex.cancellationRequested == s.db.ex.cancellationRequested
    requires ex.state == s.db.ex.state[s.db.jobs[j].task := x]
    requires s.runs[j] == Inside || !Satisfied(s.db.ex.state[s.db.jobs[j].task])
    requires x == Success || x == Failure || (x == Stopped && ex.cancellationRequested)
    ensures Core(c, Left(s, j, ex, now))
  {
    var s', v, n := Left(s, j, ex, now), ViewOf(s), s.db.jobs[j].task;
    LeftShows(c, s, j, ex, x, now);
    LeftView(c, s, j, x);
    hide Shape, JobsOk, ViewOk, ViewOf, LettersOk, RunsOk, Acknowledge, Rows, Core;
    Assemble(c, s, s', v.(st := v.st[n := x], inside := v.inside - {n}, owners := v.owners - {j}));
  }

  /** The pieces but for the view. */
  lemma LeftShows(c: Settings, s: Sys, j: JobId, ex: Execution, x: TaskState, now: Time)
    requires Core(c, s) && OwnJob(s.db, j) && j in s.runs
    requires Rows(ex) && ex.graph == s.db.ex.graph && ex.order == s.db.ex.order && ex.id == s.db.ex.id
    requires ex.cancellationRequested == s.db.ex.cancellationRequested
      && ex.state == s.db.ex.state[s.db.jobs[j].task := x]
    ensures var s', v, n := Left(s, j, ex, now), ViewOf(s), s.db.jobs[j].task;
      && Shape(c, ex, s.starts) && JobsOk(c, s.db.ex.id, s'.db.jobs)
      && RunsOk(ex.cancellationRequested, s'.db.jobs, s'.runs) && LettersOk(s'.db.jobs, s'.letters, s'.buffer)
      && ViewOf(s') == v.(st := v.st[n := x], inside := v.inside - {n}, owners := v.owners - {j})
  {
    hide Shape, JobsOk, ViewOk, InsideTasks, TasksOf, Owners, LettersOk, RunsOk, Acknowledge, Rows;
    OwnerOf(c, s, j);
    ViewAfterAck(s, j, now);
    hide Core';
    AckKeepsJobsOk(c, s.db.ex.id, s.db.jobs, j, now);
    ShapeSame(c, s.db.ex, s.starts, ex, s.starts);
    var v, n := ViewOf(s), s.db.jobs[j].task;
    assert v.inside - (if s.runs[j] == Inside then {n} else {}) == v.inside - {n};
  }

  lemma LeftView(c: Settings, s: Sys, j: JobId, x: TaskState)
    requires Core(c, s) && OwnJob(s.db, j) && j in s.runs
    requires s.runs[j] == Inside || !Satisfied(s.db.ex.state[s.db.jobs[j].task])
    requires x == Success || x == Failure || (x == Stopped && s.db.ex.cancellationRequested)
    ensures var v, n := ViewOf(s), s.db.jobs[j].task;
      ViewOk(s.db.ex.graph, s.db.ex.cancellationRequested,
             v.(st := v.st[n := x], inside := v.inside - {n}, owners := v.owners - {j}))
  {
    hide Shape, JobsOk, ViewOk, InsideTasks, TasksOf, Owners, LettersOk, RunsOk;
    OwnerOf(c, s, j);
    hide Core';
    ViewLeave(s.db.ex.graph, s.db.ex.cancellationRequested, ViewOf(s), j, x);
  }

  lemma StartAcks(c: Settings, s: Sys, j: JobId, now: Time)
    requires Core(c, s) && OwnJob(s.db, j) && j in s.runs && s.runs[j] == Holding
    requires var x := s.db.ex.state[s.db.jobs[j].task]; x != Enqueued && x != Running
    ensures Core(c, Left(s, j, s.db.ex, now))
  {
    var s' := Left(s, j, s.db.ex, now);
    hide Shape, JobsOk, ViewOk, InsideTasks, TasksOf, Owners, LettersOk, RunsOk, Acknowledge;
    OwnerOf(c, s, j);
    ViewAfterAck(s, j, now);
    AckKeepsJobsOk(c, s.db.ex.id, s.db.jobs, j, now);
    var v := ViewOf(s);
    ViewFewer(s.db.ex.graph, s.db.ex.cancellationRequested, v, v.inside, v.owners - {j});
    Assemble(c, s, s', v.(owners := v.owners - {j}));
  }

  lemma RefreshRows(ex: Execution, now: Time)
    ensures var r := Refresh(ex, now); Rows(ex) ==> Rows(r)
    ensures var r := Refresh(ex, now); r == ex.(status := r.status, finishedAt := r.finishedAt, outbox := r.outbox)
  {
  }

  lemma RefreshKeepsCore(c: Settings, s: Sys, now: Time)
    requires Core(c, s)
    ensures Core(c, s.(db := s.db.(ex := Refresh(s.db.ex, now))))
  {
    hide Refresh, ViewOk, JobsOk, RunsOk, LettersOk, InsideTasks, TasksOf, Owners;
    RefreshRows(s.db.ex, now);
    ShapeSame(c, s.db.ex, s.starts, Refresh(s.db.ex, now), s.starts);
  }

  lemma StartKeepsCore(c: Settings, s: Sys, j: JobId, now: Time)
    requires Core(c, s) && Enabled(s, Step.Start(j, now))
    ensures Core(c, AfterStart(s, j, now))
  {
    hide Shape, JobsOk, ViewOk, ViewOf, RunsOk, LettersOk, Refresh, Acknowledge;
    CoreMeansRows(c, s);
    hide Core, Rows, Core';
    var n := s.db.jobs[j].task;
    var x := s.db.ex.state[n];
    OwnerOf(c, s, j);
    if Starts(s.db, j) {
      StartRuns(c, s, j, now);
    } else if Satisfied(x) || x == Failure || x == Stopped {
      StartAcks(c, s, j, now);
    } else {
      SetStateRows(s.db.ex, n, Stopped);
      LeftKeepsCore(c, s, j, SetState(s.db.ex, n, Stopped), Stopped, now);
      RefreshKeepsCore(c, Left(s, j, SetState(s.db.ex, n, Stopped), now), now);
    }
  }

  lemma InterruptKeepsCore(c: Settings, s: Sys, j: JobId, now: Time)
    requires Core(c, s) && IsInside(s, j) && s.db.ex.cancellationRequested
    ensures Core(c, AfterInterrupt(s, j, now))
  {
    assert Rows(s.db.ex);
    hide Shape, JobsOk, ViewOk, ViewOf, RunsOk, LettersOk, Refresh;
    var n := s.db.jobs[j].task;
    SetStateRows(s.db.ex, n, Stopped);
    LeftKeepsCore(c, s, j, SetState(s.db.ex, n, Stopped), Stopped, now);
    RefreshKeepsCore(c, Left(s, j, SetState(s.db.ex, n, Stopped), now), now);
  }

  /** A fresh job at the end of the table. */
  lemma AppendJob(jobs: Jobs, runs: map<JobId, Phase>, letters: set<JobId>, job: Job)
    requires Active(job)
    requires (forall j :: j in runs ==> j < |jobs|) && (forall j :: j in letters ==> j < |jobs|)
    ensures TasksOf(jobs + [job]) == TasksOf(jobs) + [job.task]
    ensures InsideTasks(jobs + [job], runs) == InsideTasks(jobs, runs)
    ensures Owners(jobs + [job], runs, letters) == Owners(jobs, runs, letters) + {|jobs|}
  {
    InsideSame(jobs, runs, jobs + [job], runs);
    hide InsideTasks;
    forall k: JobId ensures k in Owners(jobs + [job], runs, letters) <==> k in Owners(jobs, runs, letters) + {|jobs|} {
      if k < |jobs| { assert (jobs + [job])[k] == jobs[k]; }
    }
  }

  lemma AppendOk(c: Settings, id: ExecutionId, stop: bool, jobs: Jobs, runs: map<JobId, Phase>, letters: set<JobId>,
                 buffer: set<JobId>, job: Job)
    requires JobsOk(c, id, jobs) && RunsOk(stop, jobs, runs) && LettersOk(jobs, letters, buffer) && JobOk(c, id, job)
    ensures JobsOk(c, id, jobs + [job]) && RunsOk(stop, jobs + [job], runs) && LettersOk(jobs + [job], letters, buffer)
  {
    hide JobOk;
  }

  lemma RetryMakes(c: Settings, db: Db, j: JobId, now: Time)
    requires Rows(db.ex) && OwnJob(db, j) && c.maxAttempts >= 1
    ensures var r, jobs := E.Retry(db, j, now, c.maxAttempts), Acknowledge(db.jobs, j, now);
      && |r.jobs| == |jobs| + 1 && r.jobs == jobs + [r.jobs[|jobs|]]
      && r.jobs[|jobs|].task == db.jobs[j].task && Active(r.jobs[|jobs|]) && JobOk(c, db.ex.id, r.jobs[|jobs|])
      && r.ex.graph == db.ex.graph && r.ex.order == db.ex.order && r.ex.id == db.ex.id
      && r.ex.cancellationRequested == db.ex.cancellationRequested
      && r.ex.state == db.ex.state[db.jobs[j].task := Enqueued] && Rows(r.ex)
  {
    hide Acknowledge, Backoff, Elements;
  }

  lemma RetryKeepsCore(c: Settings, s: Sys, j: JobId, now: Time)
    requires Core(c, s) && IsInside(s, j)
    ensures Core(c, s.(db := E.Retry(s.db, j, now, c.maxAttempts), runs := s.runs - {j}))
  {
    RetryMakes(c, s.db, j, now);
    hide Shape, JobsOk, ViewOk, RunsOk, LettersOk, InsideTasks, TasksOf, Owners, Acknowledge, E.Retry, JobOk, Active,
      Core';
    var s' := s.(db := E.Retry(s.db, j, now, c.maxAttempts), runs := s.runs - {j});
    var n, jobs, v := s.db.jobs[j].task, Acknowledge(s.db.jobs, j, now), ViewOf(s);
    var job := s'.db.jobs[|jobs|];
    OwnerOf(c, s, j);
    ViewAfterAck(s, j, now);
    AckKeepsJobsOk(c, s.db.ex.id, s.db.jobs, j, now);
    RunsInTable(s.db.ex.cancellationRequested, jobs, s'.runs, s.letters, s.buffer);
    AppendJob(jobs, s'.runs, s.letters, job);
    AppendOk(c, s.db.ex.id, s.db.ex.cancellationRequested, jobs, s'.runs, s.letters, s.buffer, job);
    ShapeSame(c, s.db.ex, s.starts, s'.db.ex, s.starts);
    ViewRetry(s.db.ex.graph, s.db.ex.cancellationRequested, v, j);
    TasksLength(jobs);
    Assemble(c, s, s', View(v.st[n := Enqueued], v.tasks + [n], v.inside - {n}, v.owners - {j} + {|v.tasks|}));
  }

  lemma TasksLength(jobs: Jobs)
    ensures |TasksOf(jobs)| == |jobs|
  {
  }

  lemma RunsInTable(stop: bool, jobs: Jobs, runs: map<JobId, Phase>, letters: set<JobId>, buffer: set<JobId>)
    requires RunsOk(stop, jobs, runs) && LettersOk(jobs, letters, buffer)
    ensures (forall j :: j in runs ==> j < |jobs|) && (forall j :: j in letters ==> j < |jobs|)
  {
  }

  // ---- failure ----

  lemma FailDownstreamChanges(g: Graph, st: States)
    ensures FailDownstream(g, st).Keys == st.Keys
    ensures forall n :: n in st ==>
      FailDownstream(g, st)[n] == st[n] || (st[n] == Pending && FailDownstream(g, st)[n] == Failure)
  {
    forall n | n in st && Doomed(g, st, n) ensures st[n] == Pending {
      var p: seq<Name> :| DoomPath(g, st, p) && p[|p| - 1] == n;
    }
  }

  /** Failing the pending descendants disturbs nobody. */
  lemma FailDownstreamKeepsCore(c: Settings, s: Sys)
    requires Core(c, s)
    ensures Core(c, s.(db := s.db.(ex := s.db.ex.(state := FailDownstream(s.db.ex.graph, s.db.ex.state)))))
  {
    var ex := s.db.ex.(state := FailDownstream(s.db.ex.graph, s.db.ex.state));
    FailDownstreamChanges(s.db.ex.graph, s.db.ex.state);
    assert !ex.cancellationRequested ==> Manned(ViewOf(s));
    hide FailDownstream, InsideTasks, TasksOf, Owners;
    assert Rows(ex);
    hide Shape, JobsOk, ViewOk, RunsOk, LettersOk, Rows;
    ViewDrop(ex.graph, ex.cancellationRequested, ViewOf(s), ex.state);
    CoreRows(c, s, ex);
  }

  lemma FailTaskKeepsCore(c: Settings, s: Sys, ex: Execution, n: Name, now: Time)
    requires Rows(ex) && n in ex.state && Core(c, s.(db := s.db.(ex := SetState(ex, n, Failure))))
    ensures Core(c, s.(db := s.db.(ex := FailTask(ex, n, now))))
  {
    hide Core, FailDownstream, Refresh, Rows;
    var s1 := s.(db := s.db.(ex := SetState(ex, n, Failure)));
    FailDownstreamKeepsCore(c, s1);
    var s2 := s1.(db := s1.db.(ex := s1.db.ex.(state := FailDownstream(ex.graph, s1.db.ex.state))));
    RefreshKeepsCore(c, s2, now);
  }

  /** A task whose worker was lost is failed. */
  lemma LoseKeepsCore(c: Settings, s: Sys, n: Name, now: Time)
    requires Core(c, s) && n in s.db.ex.state
    requires n !in InsideTasks(s.db.jobs, s.runs)
    ensures Core(c, LoseTask(s, n, now))
  {
    var x := s.db.ex.state[n];
    if !Satisfied(x) && x != Failure {
      CoreMeansRows(c, s);
      hide Core, InsideTasks, TasksOf, Owners, FailTask, Rows;
      DropKeepsCore(c, s, s.db.ex.state[n := Failure]);
      FailTaskKeepsCore(c, s, s.db.ex, n, now);
      LostKeepsCore(c, s.(db := s.db.(ex := FailTask(s.db.ex, n, now))), s.lost + {n});
    }
  }

  lemma LostKeepsCore(c: Settings, s: Sys, lost: set<Name>)
    requires Core(c, s)
    ensures Core(c, s.(lost := lost))
  {
    assert ViewOf(s.(lost := lost)) == ViewOf(s);
  }

  // ---- queueing what is ready ----

  lemma EnqueueMakes(c: Settings, db: Db, n: Name, now: Time)
    requires Rows(db.ex) && n in db.ex.state && db.ex.state[n] == Pending && c.maxAttempts >= 1
    ensures var r, x := EnqueueOne(db, n, now, c.maxAttempts), Rule(db.ex.graph, db.ex.state, n);
      && r.ex == db.ex.(state := db.ex.state[n := x]) && Rows(r.ex)
      && (x != Enqueued ==> r.jobs == db.jobs)
      && (x == Enqueued ==>
            && |r.jobs| == |db.jobs| + 1 && r.jobs == db.jobs + [r.jobs[|db.jobs|]]
            && r.jobs[|db.jobs|].task == n && Active(r.jobs[|db.jobs|]) && JobOk(c, db.ex.id, r.jobs[|db.jobs|]))
  {
    hide Rule, Elements;
    assert db.ex.state[n := Rule(db.ex.graph, db.ex.state, n)].Keys == db.ex.state.Keys;
  }

  lemma EnqueueOneKeepsCore(c: Settings, s: Sys, n: Name, now: Time)
    requires Core(c, s) && !s.db.ex.cancellationRequested && n in s.db.ex.state
    ensures Core(c, s.(db := EnqueueOne(s.db, n, now, c.maxAttempts)))
  {
    var s' := s.(db := EnqueueOne(s.db, n, now, c.maxAttempts));
    CoreMeansRows(c, s);
    hide Core;
    if s.db.ex.state[n] == Pending {
      hide InsideTasks, TasksOf, Owners, EnqueueOne, JobOk, Active, Rule, Rows, Ready;
      EnqueueMakes(c, s.db, n, now);
      EnqueueShows(c, s, n);
      var x := Rule(s.db.ex.graph, s.db.ex.state, n);
      if x == Enqueued {
        EnqueueAdds(c, s, n, s'.db);
      } else {
        DropKeepsCore(c, s, s'.db.ex.state);
      }
    }
  }

  lemma EnqueueShows(c: Settings, s: Sys, n: Name)
    requires Core(c, s) && !s.db.ex.cancellationRequested && n in s.db.ex.state && s.db.ex.state[n] == Pending
    ensures var x := Rule(s.db.ex.graph, s.db.ex.state, n);
      && n !in ViewOf(s).inside && (x == Enqueued || x == Failure || x == Pending)
      && (x == Enqueued ==> Ready(s.db.ex.graph, s.db.ex.state, n))
  {
    hide JobsOk, RunsOk, LettersOk, InsideTasks, TasksOf, Owners, Worked, DepsDone, OneOwner, Known, Acyclic, Distinct;
  }

  lemma EnqueueAdds(c: Settings, s: Sys, n: Name, db: Db)
    requires Core(c, s) && !s.db.ex.cancellationRequested && n in s.db.ex.graph && n in s.db.ex.state
      && s.db.ex.state[n] == Pending
    requires n !in ViewOf(s).inside && Ready(s.db.ex.graph, s.db.ex.state, n) && Rows(db.ex)
    requires db.ex == s.db.ex.(state := s.db.ex.state[n := Enqueued]) && |db.jobs| == |s.db.jobs| + 1
    requires var job := db.jobs[|s.db.jobs|];
      db.jobs == s.db.jobs + [job] && job.task == n && Active(job) && JobOk(c, s.db.ex.id, job)
    ensures Core(c, s.(db := db))
  {
    hide Shape, JobsOk, ViewOk, RunsOk, LettersOk, InsideTasks, TasksOf, Owners, JobOk, Active, Rows;
    var v, job := ViewOf(s), db.jobs[|s.db.jobs|];
    RunsInTable(s.db.ex.cancellationRequested, s.db.jobs, s.runs, s.letters, s.buffer);
    AppendJob(s.db.jobs, s.runs, s.letters, job);
    AppendOk(c, s.db.ex.id, false, s.db.jobs, s.runs, s.letters, s.buffer, job);
    ShapeSame(c, s.db.ex, s.starts, db.ex, s.starts);
    ViewEnqueue(s.db.ex.graph, v, n);
    TasksLength(s.db.jobs);
    Assemble(c, s, s.(db := db), View(v.st[n := Enqueued], v.tasks + [n], v.inside, v.owners + {|v.tasks|}));
  }

  lemma {:induction false} EnqueueAllKeepsCore(c: Settings, s: Sys, names: seq<Name>, now: Time)
    requires Core(c, s) && !s.db.ex.cancellationRequested && Elements(names) <= Elements(s.db.ex.order)
    ensures var r := EnqueueAll(s.db, names, now, c.maxAttempts);
      Core(c, s.(db := r)) && r.ex == s.db.ex.(state := r.ex.state)
    decreases |names|
  {
    if names == [] {
    } else {
      assert names[0] in Elements(names) && Elements(names[1..]) <= Elements(names);
      EnqueueOneKeepsCore(c, s, names[0], now);
      var s1 := s.(db := EnqueueOne(s.db, names[0], now, c.maxAttempts));
      assert s1.db.ex == s.db.ex.(state := s1.db.ex.state);
      hide Core, EnqueueOne, Elements;
      EnqueueAllKeepsCore(c, s1, names[1..], now);
    }
  }

  lemma EnqueueReadyKeepsCore(c: Settings, s: Sys, now: Time)
    requires Core(c, s)
    ensures Core(c, s.(db := EnqueueReady(s.db, now, c.maxAttempts)))
  {
    CoreMeansRows(c, s);
    hide Core, EnqueueAll, Refresh, StopLive, Rows;
    if s.db.ex.cancellationRequested {
      StopLiveKeepsCore(c, s);
      RefreshKeepsCore(c, s.(db := s.db.(ex := s.db.ex.(state := StopLive(s.db.ex.state)))), now);
    } else {
      EnqueueAllKeepsCore(c, s, s.db.ex.order, now);
      RefreshKeepsCore(c, s.(db := EnqueueAll(s.db, s.db.ex.order, now, c.maxAttempts)), now);
    }
  }

  lemma StopLiveKeepsCore(c: Settings, s: Sys)
    requires Core(c, s) && s.db.ex.cancellationRequested
    ensures Core(c, s.(db := s.db.(ex := s.db.ex.(state := StopLive(s.db.ex.state)))))
  {
    CoreMeansRows(c, s);
    StopLiveRows(s.db.ex);
    hide Core, Rows, StopLive, ViewOf;
    DropKeepsCore(c, s, StopLive(s.db.ex.state));
  }

  /** Tasks nobody works for may fail or stop. */
  lemma DropKeepsCore(c: Settings, s: Sys, st: States)
    requires Core(c, s) && st.Keys == s.db.ex.state.Keys
    requires forall n :: n in st && st[n] != s.db.ex.state[n] ==>
      !Satisfied(s.db.ex.state[n])
      && (st[n] == Failure || (st[n] == Stopped && s.db.ex.cancellationRequested) || st[n] == Skipped)
    requires !s.db.ex.cancellationRequested ==> forall n :: n in ViewOf(s).inside && n in st ==>
      st[n] == s.db.ex.state[n]
    ensures Core(c, s.(db := s.db.(ex := s.db.ex.(state := st))))
  {
    var ex := s.db.ex.(state := st);
    CoreMeansRows(c, s);
    assert Rows(ex);
    CoreView(c, s);
    InsideKnown(c, s);
    hide Core, Rows, ViewOk, InsideTasks, TasksOf, Owners;
    ViewDrop(ex.graph, ex.cancellationRequested, ViewOf(s), st);
    CoreRows(c, s, ex);
  }

  lemma InsideKnown(c: Settings, s: Sys)
    requires Core(c, s)
    ensures forall n :: n in ViewOf(s).inside ==> n in s.db.ex.state
  {
    hide Shape, JobsOk, LettersOk, DepsDone, OneOwner, CaredFor;
    forall n | n in ViewOf(s).inside ensures n in s.db.ex.state {
      var j :| j in s.runs && j < |s.db.jobs| && s.runs[j] == Inside && s.db.jobs[j].task == n;
      assert ViewOf(s).tasks[j] == n;
    }
  }

  lemma CoreView(c: Settings, s: Sys)
    requires Core(c, s)
    ensures ViewOk(s.db.ex.graph, s.db.ex.cancellationRequested, ViewOf(s))
  {
    hide ViewOk;
  }

  lemma StopLiveRows(ex: Execution)
    requires Rows(ex)
    ensures var st := StopLive(ex.state);
      Rows(ex.(state := st)) && st.Keys == ex.state.Keys && forall n :: n in st && st[n] != ex.state[n] ==>
        !Satisfied(ex.state[n]) && st[n] == Stopped
  {
  }

  // ---- the end of a run ----

  lemma CompleteKeepsCore(c: Settings, s: Sys, j: JobId, now: Time)
    requires Core(c, s) && IsInside(s, j)
    ensures Core(c, s.(db := Complete(s.db, j, now, c.maxAttempts), runs := s.runs - {j}))
  {
    var n := s.db.jobs[j].task;
    assert Rows(s.db.ex);
    SetStateRows(s.db.ex, n, Success);
    hide Core, EnqueueReady, Refresh, Acknowledge, Rows;
    var ex := SetState(s.db.ex, n, Success);
    LeftKeepsCore(c, s, j, ex, Success, now);
    var s1 := Left(s, j, ex, now);
    EnqueueReadyKeepsCore(c, s1, now);
    RefreshKeepsCore(c, s1.(db := EnqueueReady(s1.db, now, c.maxAttempts)), now);
  }

  lemma StopKeepsCore(c: Settings, s: Sys, j: JobId, now: Time)
    requires Core(c, s) && IsInside(s, j) && s.db.ex.cancellationRequested
    ensures Core(c, s.(db := FinishStopped(s.db, j, now), runs := s.runs - {j}))
  {
    InterruptKeepsCore(c, s, j, now);
  }

  lemma ExhaustKeepsCore(c: Settings, s: Sys, j: JobId, now: Time)
    requires Rows(s.db.ex) && IsInside(s, j) && Core(c, s)
    ensures Core(c, s.(db := E.Exhaust(s.db, j, now), runs := s.runs - {j}))
  {
    hide Core, FailTask, Acknowledge, CountedFailure;
    var n := s.db.jobs[j].task;
    assert n in s.db.ex.retries;
    hide Rows;
    ExhaustedKeepsCore(c, s, j, CountedFailure(s.db.ex, n), now);
  }

  lemma ExhaustedKeepsCore(c: Settings, s: Sys, j: JobId, ex: Execution, now: Time)
    requires Core(c, s) && IsInside(s, j) && Rows(ex) && ex == s.db.ex.(retries := ex.retries)
    ensures Core(c, Left(s, j, FailTask(ex, s.db.jobs[j].task, now), now))
  {
    hide Core, FailTask, Acknowledge;
    var n := s.db.jobs[j].task;
    SetStateRows(ex, n, Failure);
    LeftKeepsCore(c, s, j, SetState(ex, n, Failure), Failure, now);
    hide Rows, SetState;
    FailTaskKeepsCore(c, Left(s, j, ex, now), ex, n, now);
  }

  lemma FinishKeepsCore(c: Settings, s: Sys, j: JobId, ok: bool, now: Time)
    requires Rows(s.db.ex) && IsInside(s, j) && Core(c, s)
    ensures Core(c, AfterFinish(c, s, j, ok, now))
  {
    hide Core, Complete, FinishStopped, E.Retry, E.Exhaust;
    CompleteKeepsCore(c, s, j, now);
    RetryKeepsCore(c, s, j, now);
    ExhaustKeepsCore(c, s, j, now);
    if s.db.ex.cancellationRequested {
      StopKeepsCore(c, s, j, now);
    }
  }

  lemma CoreMeansRows(c: Settings, s: Sys)
    requires Core(c, s)
    ensures Rows(s.db.ex)
  {
  }

  // ---- dead letters, cancellation, skipping ----

  lemma DeliverShows(c: Settings, s: Sys, j: JobId)
    requires Rows(s.db.ex) && Core(c, s) && j in s.buffer && OwnJob(s.db, j)
    ensures s.db.jobs[j].task !in ViewOf(s).inside && j in s.letters
    ensures Owners(s.db.jobs, s.runs, s.letters - {j}) == ViewOf(s).owners - {j}
    ensures LettersOk(s.db.jobs, s.letters - {j}, s.buffer - {j})
  {
    hide Shape, JobsOk, ViewOk, InsideTasks, TasksOf;
    assert j in s.letters && s.db.jobs[j].state == Failed && j !in s.runs;
    OwnerOf(c, s, j);
  }

  lemma DeliverFails(c: Settings, s: Sys, j: JobId)
    requires Rows(s.db.ex) && Core(c, s) && j in s.buffer && OwnJob(s.db, j)
      && !Satisfied(s.db.ex.state[s.db.jobs[j].task])
    ensures Core(c, s.(letters := s.letters - {j}, buffer := s.buffer - {j}, db := s.db.(ex := SetState(s.db.ex,
      s.db.jobs[j].task, Failure))))
  {
    hide Shape, JobsOk, ViewOk, RunsOk, LettersOk, InsideTasks, TasksOf, Owners, Core';
    DeliverShows(c, s, j);
    OwnerOf(c, s, j);
    var n, v := s.db.jobs[j].task, ViewOf(s);
    var ex := SetState(s.db.ex, n, Failure);
    SetStateRows(s.db.ex, n, Failure);
    hide Rows;
    ShapeSame(c, s.db.ex, s.starts, ex, s.starts);
    ViewLeave(ex.graph, ex.cancellationRequested, v, j, Failure);
    assert v.inside - {n} == v.inside;
    Assemble(c, s, s.(letters := s.letters - {j}, buffer := s.buffer - {j}, db := s.db.(ex := ex)),
             v.(st := v.st[n := Failure], owners := v.owners - {j}));
  }

  lemma DeliverDrops(c: Settings, s: Sys, j: JobId)
    requires Rows(s.db.ex) && Core(c, s) && j in s.buffer && OwnJob(s.db, j)
    requires var x := s.db.ex.state[s.db.jobs[j].task]; Satisfied(x) || x == Failure
    ensures Core(c, s.(letters := s.letters - {j}, buffer := s.buffer - {j}))
  {
    DeliverShows(c, s, j);
    OwnerOf(c, s, j);
    hide Shape, JobsOk, ViewOk, RunsOk, LettersOk, InsideTasks, TasksOf, Owners;
    var v := ViewOf(s);
    ViewFewer(s.db.ex.graph, s.db.ex.cancellationRequested, v, v.inside, v.owners - {j});
    Assemble(c, s, s.(letters := s.letters - {j}, buffer := s.buffer - {j}), v.(owners := v.owners - {j}));
  }

  lemma DeliverKeepsCore(c: Settings, s: Sys, j: JobId, now: Time)
    requires Core(c, s) && j in s.buffer && OwnJob(s.db, j)
    ensures Core(c, AfterDeliver(s, j, now))
  {
    assert Rows(s.db.ex);
    hide Core, FailTask, Rows;
    var n := s.db.jobs[j].task;
    CoreMeansRows(c, s);
    var s1 := s.(letters := s.letters - {j}, buffer := s.buffer - {j});
    var x := s.db.ex.state[n];
    if Satisfied(x) || x == Failure {
      DeliverDrops(c, s, j);
    } else {
      DeliverFails(c, s, j);
      FailTaskKeepsCore(c, s1, s.db.ex, n, now);
      LostKeepsCore(c, s1.(db := s.db.(ex := FailTask(s.db.ex, n, now))), s.lost + {n});
    }
  }

  /** `cancel_execution` before it refreshes the status. */
  function CancelRows(ex: Execution): Execution {
    ex.(cancellationRequested := true, state := map n | n in ex.state :: Withdrawn(ex.state[n]))
  }

  lemma CancelRowsKeepCore(c: Settings, s: Sys, now: Time)
    requires Rows(s.db.ex) && Core(c, s)
    ensures Core(c, s.(db := Db(CancelRows(s.db.ex), CancelExecutionJobs(s.db.jobs, s.db.ex.id, now))))
  {
    var jobs := CancelExecutionJobs(s.db.jobs, s.db.ex.id, now);
    var ex := CancelRows(s.db.ex);
    CancelRowsAre(s.db.ex);
    hide Shape, JobsOk, RunsOk, LettersOk, InsideTasks, TasksOf, Owners, CancelExecutionJobs, Rows, ViewOk, CancelRows;
    CancelShows(c, s, now);
    CancelLoosens(s.db.ex.graph, s.db.ex.cancellationRequested, ViewOf(s));
    var v, owners := ViewOf(s), Owners(jobs, s.runs, s.letters);
    ViewDrop(ex.graph, true, v, ex.state);
    ViewFewer(ex.graph, true, v.(st := ex.state), v.inside, owners);
    ShapeSame(c, s.db.ex, s.starts, ex, s.starts);
    Assemble(c, s, s.(db := Db(ex, jobs)), View(ex.state, v.tasks, v.inside, owners));
  }

  lemma CancelRowsAre(ex: Execution)
    requires Rows(ex)
    ensures var r := CancelRows(ex);
      && Rows(r) && r == ex.(state := r.state, cancellationRequested := true) && r.state.Keys == ex.state.Keys
      && forall n :: n in r.state && r.state[n] != ex.state[n] ==> !Satisfied(ex.state[n]) && r.state[n] == Stopped
  {
  }

  lemma CancelLoosens(g: Graph, stop: bool, v: View)
    requires ViewOk(g, stop, v)
    ensures ViewOk(g, true, v)
  {
    hide Worked, DepsDone, OneOwner, CaredFor;
  }

  lemma CancelKeepsCore(c: Settings, s: Sys, now: Time)
    requires Core(c, s)
    ensures Core(c, s.(db := CancelExecution(s.db, now)))
  {
    if !Terminal(s.db.ex.status) {
      CancelRowsKeepCore(c, s, now);
      hide Core, Refresh, CancelExecutionJobs;
      RefreshKeepsCore(c, s.(db := Db(CancelRows(s.db.ex), CancelExecutionJobs(s.db.jobs, s.db.ex.id, now))), now);
    }
  }

  lemma CancelShows(c: Settings, s: Sys, now: Time)
    requires Core(c, s)
    ensures var jobs := CancelExecutionJobs(s.db.jobs, s.db.ex.id, now);
      && JobsOk(c, s.db.ex.id, jobs) && RunsOk(true, jobs, s.runs) && LettersOk(jobs, s.letters, s.buffer)
      && TasksOf(jobs) == TasksOf(s.db.jobs) && InsideTasks(jobs, s.runs) == InsideTasks(s.db.jobs, s.runs)
      && Owners(jobs, s.runs, s.letters) <= Owners(s.db.jobs, s.runs, s.letters)
  {
    hide Shape, ViewOk;
    var jobs := CancelExecutionJobs(s.db.jobs, s.db.ex.id, now);
    InsideSame(s.db.jobs, s.runs, jobs, s.runs);
  }

  lemma SkipShows(c: Settings, s: Sys, n: Name, now: Time)
    requires Core(c, s)
    ensures var jobs := CancelTaskJobs(s.db.jobs, s.db.ex.id, n, now);
      && JobsOk(c, s.db.ex.id, jobs) && RunsOk(s.db.ex.cancellationRequested, jobs, s.runs)
      && LettersOk(jobs, s.letters, s.buffer)
      && TasksOf(jobs) == TasksOf(s.db.jobs) && InsideTasks(jobs, s.runs) == InsideTasks(s.db.jobs, s.runs)
      && Owners(jobs, s.runs, s.letters) <= Owners(s.db.jobs, s.runs, s.letters)
      && (forall j :: j in Owners(s.db.jobs, s.runs, s.letters) && j !in Owners(jobs, s.runs, s.letters) ==>
        s.db.jobs[j].task == n)
  {
    hide Shape, ViewOk;
    var jobs := CancelTaskJobs(s.db.jobs, s.db.ex.id, n, now);
    InsideSame(s.db.jobs, s.runs, jobs, s.runs);
  }

  lemma SkipRowKeepsCore(c: Settings, s: Sys, n: Name, now: Time)
    requires Rows(s.db.ex) && MaySkip(s.db.ex, n) && Core(c, s)
    ensures Core(c, s.(db := Db(SetState(s.db.ex, n, Skipped), CancelTaskJobs(s.db.jobs, s.db.ex.id, n, now))))
  {
    hide Shape, JobsOk, ViewOk, RunsOk, LettersOk, InsideTasks, Owners, CancelTaskJobs;
    var jobs, v := CancelTaskJobs(s.db.jobs, s.db.ex.id, n, now), ViewOf(s);
    var ex := SetState(s.db.ex, n, Skipped);
    var owners := Owners(jobs, s.runs, s.letters);
    SkipShows(c, s, n, now);
    SetStateRows(s.db.ex, n, Skipped);
    NotInside(c, s, n);
    assert forall j :: j in v.owners && j !in owners ==>
      j < |v.tasks| && v.tasks[j] == n by { OwnersInTable(s.db.jobs, s.runs, s.letters); }
    hide TasksOf, Rows;
    ViewDrop(ex.graph, ex.cancellationRequested, v, ex.state);
    ViewFewer(ex.graph, ex.cancellationRequested, v.(st := ex.state), v.inside, owners);
    ShapeSame(c, s.db.ex, s.starts, ex, s.starts);
    Assemble(c, s, s.(db := Db(ex, jobs)), View(ex.state, v.tasks, v.inside, owners));
  }

  lemma OwnersInTable(jobs: Jobs, runs: map<JobId, Phase>, letters: set<JobId>)
    ensures forall j :: j in Owners(jobs, runs, letters) ==> j < |jobs|
  {
  }

  lemma NotInside(c: Settings, s: Sys, n: Name)
    requires Core(c, s) && n in s.db.ex.state && s.db.ex.state[n] != Running
    ensures !s.db.ex.cancellationRequested ==> n !in ViewOf(s).inside
  {
    hide Shape, JobsOk, RunsOk, LettersOk, Worked, DepsDone, OneOwner;
  }

  lemma SkipKeepsCore(c: Settings, s: Sys, n: Name, now: Time)
    requires Core(c, s) && MaySkip(s.db.ex, n)
    ensures Core(c, s.(db := SkipTask(s.db, n, now, c.maxAttempts)))
  {
    SkipRowKeepsCore(c, s, n, now);
    var s1 := s.(db := Db(SetState(s.db.ex, n, Skipped), CancelTaskJobs(s.db.jobs, s.db.ex.id, n, now)));
    assert Rows(s1.db.ex);
    hide Core, Refresh, CancelTaskJobs, EnqueueReady, Rows;
    EnqueueReadyKeepsCore(c, s1, now);
    RefreshKeepsCore(c, s1.(db := EnqueueReady(s1.db, now, c.maxAttempts)), now);
  }
}
