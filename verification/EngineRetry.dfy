/** A manual retry repairs exactly what failed. */
module EngineRetry {
  import opened Dag
  import opened Q = QueueRecords
  import opened E = ExecutionState
  import opened Engine
  import opened EngineInv
  import opened EngineStatus
  import opened EngineMoves
  import opened EngineSafety
  import opened EngineCancel
  import opened EngineOutcome
  import opened EngineStarts
  import opened Readiness

  ghost predicate NoSkipped(st: States) { forall n :: n in st ==> st[n] != Skipped }

  lemma StepSkipsNothing(c: Settings, s: Sys, step: Step)
    requires Rows(s.db.ex) && s.starts.Keys == s.db.ex.state.Keys && Enabled(s, step) && Distinct(s.db.ex.order)
    requires !s.db.ex.cancellationRequested && Automatic(step) && NoSkipped(s.db.ex.state)
    ensures NoSkipped(Apply(c, s, step).db.ex.state)
  {
    hide Rows, Distinct, Apply, Enabled, Acted, ActedOk, Moved;
    StepKeys(c, s, step);
    StepMoves(c, s, step);
    forall n | n in Apply(c, s, step).db.ex.state ensures Apply(c, s, step).db.ex.state[n] != Skipped {
      if n in Acted(s, step) {
        ActedSkipsNothing(s, step, s.db.ex.state[n], Apply(c, s, step).db.ex.state[n]);
      } else {
        MovedElsewhere(c, s, step, n);
        MovedSkipsNothing(s.db.ex.state[n], Apply(c, s, step).db.ex.state[n]);
      }
    }
  }

  lemma MovedSkipsNothing(x: TaskState, x': TaskState)
    requires Moved(x, x', false) && x != Skipped
    ensures x' != Skipped
  {
  }

  lemma ActedSkipsNothing(s: Sys, step: Step, x: TaskState, x': TaskState)
    requires Rows(s.db.ex) && Enabled(s, step) && Automatic(step) && x != Skipped && ActedOk(s, step, x, x')
    ensures x' != Skipped
  {
    hide Rows, Succeeds;
  }

  lemma {:induction false} RunSkipsNothing(c: Settings, ex: Execution, t0: Time, states: seq<Sys>, steps: seq<Step>,
      i: nat)
    requires IsRun(c, ex, t0, states, steps) && Unattended(steps) && i < |states|
    ensures NoSkipped(states[i].db.ex.state)
  {
    hide Inv, Core, Fresh, Rows, Apply, Spawned, NoSkipped, Enabled, Distinct;
    assert NoCancel(steps);
    if i == 0 {
      SpawnedSkipsNothing(c, ex, t0);
    } else {
      RunSkipsNothing(c, ex, t0, states, steps, i - 1);
      UncancelledRun(c, ex, t0, states, steps, i - 1);
      RunKeepsInv(c, ex, t0, states, steps, i - 1);
      InvInTable(c, states[i - 1]);
      assert Legal(c, states[i - 1], steps[i - 1], states[i]);
      StepSkipsNothing(c, states[i - 1], steps[i - 1]);
    }
  }

  lemma SpawnedSkipsNothing(c: Settings, ex: Execution, t0: Time)
    requires Rows(ex) && Fresh(ex) && c.maxAttempts >= 1
    ensures NoSkipped(Spawned(c, ex, t0).db.ex.state)
  {
    FreshCore(c, ex);
    hide Clean, Core, EnqueueReady, Known, Acyclic, Distinct, Rows;
    CleanReadyCalm(Db(ex, []), t0, c.maxAttempts);
  }

  // ---- what lies below a failed task ----

  /** Nothing downstream of an unsatisfied task is satisfied. */
  lemma {:induction false} DownstreamWaits(g: Graph, st: States, p: seq<Name>, i: nat)
    requires IsPath(g, p) && i < |p| && st.Keys == g.Keys && NoSkipped(st)
    requires p[0] in st && !Satisfied(st[p[0]])
    requires forall n, d :: n in g && n in st && st[n] == Success && d in g[n] ==> d in st && Satisfied(st[d])
    ensures p[i] in st && !Satisfied(st[p[i]])
  {
    if i > 0 {
      DownstreamWaits(g, st, p, i - 1);
      assert Edge(g, p[i - 1], p[i]);
    }
  }

  lemma BelowWaits(g: Graph, st: States, t: Name, m: Name)
    requires Reaches(g, t, m) && st.Keys == g.Keys && NoSkipped(st) && t in st && !Satisfied(st[t])
    requires forall n, d :: n in g && n in st && st[n] == Success && d in g[n] ==> d in st && Satisfied(st[d])
    ensures m in st && !Satisfied(st[m])
  {
    var p: seq<Name> :| |p| >= 2 && p[0] == t && p[|p| - 1] == m && IsPath(g, p);
    DownstreamWaits(g, st, p, |p| - 1);
  }

  /** Rows in which exactly task `t` and its descendants may have failed. */
  ghost predicate Broken(g: Graph, st: States, t: Name) {
    && Known(g) && st.Keys == g.Keys && NoSkipped(st) && Settled(g, st)
    && (forall n :: n in st ==> st[n] != Stopped && st[n] != Retrying)
    && (forall n, d :: n in g && n in st && st[n] == Success && d in g[n] ==> d in st && Satisfied(st[d]))
    && t in st && st[t] == Failure && Ready(g, st, t)
    && (forall n :: n in st && st[n] == Failure ==> n == t || Reaches(g, t, n))
  }

  /** The states after the reset. */
  ghost function Mended(g: Graph, st: States, t: Name): States {
    map m | m in st :: if (m == t || Reaches(g, t, m)) && (st[m] == Failure || st[m] == Pending) then Pending else st[m]
  }

  lemma MendedIsClean(g: Graph, st: States, t: Name)
    requires Broken(g, st, t)
    ensures Clean(g, Mended(g, st, t)) && SameSatisfied(st, Mended(g, st, t))
    ensures forall n :: n in Mended(g, st, t) ==> Mended(g, st, t)[n] != Failure && Mended(g, st, t)[n] != Stopped
  {
    hide Reaches, Settled, Ready;
  }

  /** Only `t` itself is pending and ready now. */
  lemma OnlyOneReady(g: Graph, st: States, t: Name, m: Name)
    requires Broken(g, st, t) && m in st
    ensures m in g && (Mended(g, st, t)[m] == Pending && Ready(g, Mended(g, st, t), m) <==> m == t)
  {
    var st' := Mended(g, st, t);
    MendedIsClean(g, st, t);
    ReadySame(g, st, st', m);
    if m != t && st'[m] == Pending {
      if Reaches(g, t, m) {
        ReachesLastEdge(g, t, m);
        var d :| d in g[m] && (d == t || Reaches(g, t, d));
        if d != t { BelowWaits(g, st, t, d); }
        assert !Satisfied(st[d]);
      } else {
        assert st[m] == Pending;
      }
    }
  }

  lemma SingleReady(g: Graph, st: States, t: Name, order: seq<Name>)
    requires Broken(g, st, t) && Distinct(order) && Elements(order) == st.Keys
    ensures forall n :: n in order ==> n in g && n in Mended(g, st, t)
    ensures ReadyNames(g, Mended(g, st, t), order) == [t]
  {
    var st' := Mended(g, st, t);
    forall n | n in order ensures n in g && n in st' { assert n in Elements(order); }
    ReadyNamesAre(g, st', order);
    var names := ReadyNames(g, st', order);
    forall n ensures n in names <==> n == t {
      if n in order { assert n in Elements(order); OnlyOneReady(g, st, t, n); }
      assert t in Elements(order);
    }
    DistinctCount(names);
    assert Elements(names) == {t};
    assert names[0] in names;
  }

  // ---- the retry ----

  /** The rows of an unattended run, when all failures stem from `t`, are broken at `t`. */
  lemma RunIsBroken(c: Settings, ex: Execution, t0: Time, states: seq<Sys>, steps: seq<Step>, i: nat, t: Name)
    requires IsRun(c, ex, t0, states, steps) && Unattended(steps) && i < |states|
    requires var e := states[i].db.ex;
      t in e.state && t in e.graph && e.state[t] == Failure && Ready(e.graph, e.state, t)
    requires var e := states[i].db.ex; forall n :: n in e.state && e.state[n] == Failure ==>
      n == t || Reaches(e.graph, t, n)
    ensures Rows(states[i].db.ex) && Distinct(states[i].db.ex.order)
      && Broken(states[i].db.ex.graph, states[i].db.ex.state, t)
  {
    var s := states[i];
    RunSkipsNothing(c, ex, t0, states, steps, i);
    UncancelledRun(c, ex, t0, states, steps, i);
    RunKeepsInv(c, ex, t0, states, steps, i);
    hide *;
    InvMeansBroken(c, s, t);
  }

  lemma InvMeansBroken(c: Settings, s: Sys, t: Name)
    requires Inv(c, s) && !s.db.ex.cancellationRequested && NoSkipped(s.db.ex.state)
    requires var e := s.db.ex; t in e.state && t in e.graph && e.state[t] == Failure && Ready(e.graph, e.state, t)
    requires var e := s.db.ex; forall n :: n in e.state && e.state[n] == Failure ==> n == t || Reaches(e.graph, t, n)
    ensures Rows(s.db.ex) && Distinct(s.db.ex.order) && Broken(s.db.ex.graph, s.db.ex.state, t)
  {
    hide Inv, Settled, Reaches, NoSkipped, Known, Acyclic, Distinct, CaredFor, Ready, Rows;
    CalmFacts(c, s);
    forall n, d | n in s.db.ex.graph && n in s.db.ex.state && s.db.ex.state[n] == Success && d in s.db.ex.graph[n]
      ensures d in s.db.ex.state && Satisfied(s.db.ex.state[d])
    {
      SuccessReadyAt(c, s, n, d);
    }
  }

  lemma SuccessReadyAt(c: Settings, s: Sys, n: Name, d: Name)
    requires Rows(s.db.ex) && Inv(c, s) && n in s.db.ex.state && s.db.ex.state[n] == Success && n in s.db.ex.graph
      && d in s.db.ex.graph[n]
    ensures d in s.db.ex.state && Satisfied(s.db.ex.state[d])
  {
    hide Core, Rows;
    DepsAreDone(c, s, n, d);
  }

  /** What the reset leaves to the pass. */
  lemma ResetIs(ex: Execution, t: Name)
    requires Rows(ex) && Broken(ex.graph, ex.state, t)
    ensures ResetBranch(ex, t).state == Mended(ex.graph, ex.state, t) && Rows(ResetBranch(ex, t))
      && SameDefinitions(ex, ResetBranch(ex, t))
  {
    hide Settled, Reaches, Ready, Known;
  }

  /** Retrying a failed task whose dependencies are satisfied, when all failures stem from it: no failed task is
      left, exactly one job is created, for that task, and no remaining pending task is ready or blocked. */
  lemma RetryMends(c: Settings, db: Db, t: Name, now: Time)
    requires Rows(db.ex) && Distinct(db.ex.order) && Broken(db.ex.graph, db.ex.state, t)
    ensures Rows(ResetBranch(db.ex, t)) && t in db.ex.config && t in ResetBranch(db.ex, t).retries
      && ResetBranch(db.ex, t).retries[t] == 0
    ensures var r := RetryTask(db, t, now, c.maxAttempts);
      && r.jobs == db.jobs + [FirstJob(ResetBranch(db.ex, t), t, now, c.maxAttempts)]
      && r.ex.state.Keys == db.ex.state.Keys && r.ex.state[t] == Enqueued
      && (forall n :: n in r.ex.state ==> r.ex.state[n] != Failure)
      && Settled(db.ex.graph, r.ex.state)
  {
    var ex1 := ResetBranch(db.ex, t);
    ResetIs(db.ex, t);
    MendedIsClean(db.ex.graph, db.ex.state, t);
    SingleReady(db.ex.graph, db.ex.state, t, db.ex.order);
    ResetRetries(db.ex, t);
    assert MayRetry(db.ex, t);
    hide Broken, Rows, Distinct, Mended, ResetBranch, EnqueueReady, ReadyNames, Clean, SameSatisfied, MayRetry,
      Settled, FirstJob;
    MendedPass(db.(ex := ex1), t, now, c.maxAttempts);
  }

  lemma ResetRetries(ex: Execution, t: Name)
    requires Rows(ex) && t in ex.state && ex.state[t] == Failure
    ensures t in ex.config && t in ResetBranch(ex, t).retries && ResetBranch(ex, t).retries[t] == 0
    ensures !ResetBranch(ex, t).cancellationRequested
  {
  }

  lemma MendedPass(db: Db, t: Name, now: Time, maxAttempts: nat)
    requires Rows(db.ex) && Distinct(db.ex.order) && Clean(db.ex.graph, db.ex.state) && !db.ex.cancellationRequested
    requires forall n :: n in db.ex.order ==> n in db.ex.graph && n in db.ex.state
    requires t in db.ex.config && t in db.ex.retries && t in db.ex.state
    requires ReadyNames(db.ex.graph, db.ex.state, db.ex.order) == [t]
    requires forall n :: n in db.ex.state ==> db.ex.state[n] != Failure
    ensures var r := EnqueueReady(db, now, maxAttempts);
      && r.jobs == db.jobs + [FirstJob(db.ex, t, now, maxAttempts)]
      && r.ex.state.Keys == db.ex.state.Keys && r.ex.state[t] == Enqueued
      && (forall n :: n in r.ex.state ==> r.ex.state[n] != Failure)
      && Settled(db.ex.graph, r.ex.state)
  {
    hide Rows, Distinct, Clean, ReadyNames, FirstJob, Settled, FirstJobs, EnqueueReady, Ready;
    ReadyNamesAre(db.ex.graph, db.ex.state, db.ex.order);
    assert t in [t] && t in ReadyNames(db.ex.graph, db.ex.state, db.ex.order) && t in db.ex.graph;
    CleanReadySettles(db, now, maxAttempts);
    CleanReadyCalm(db, now, maxAttempts);
    MendedQueues(db, t, now, maxAttempts);
  }

  lemma MendedQueues(db: Db, t: Name, now: Time, maxAttempts: nat)
    requires Rows(db.ex) && Distinct(db.ex.order) && !db.ex.cancellationRequested
    requires forall n :: n in db.ex.order ==> n in db.ex.graph && n in db.ex.state
    requires t in db.ex.config && t in db.ex.retries && t in db.ex.state && t in db.ex.order && t in db.ex.graph
    requires db.ex.state[t] == Pending && Ready(db.ex.graph, db.ex.state, t)
    requires ReadyNames(db.ex.graph, db.ex.state, db.ex.order) == [t]
    ensures var r := EnqueueReady(db, now, maxAttempts);
      r.jobs == db.jobs + [FirstJob(db.ex, t, now, maxAttempts)] && t in r.ex.state && r.ex.state[t] == Enqueued
  {
    assert FirstJobs(db.ex, [t], now, maxAttempts) == [FirstJob(db.ex, t, now, maxAttempts)];
    hide Rows, Distinct, EnqueueAll, StatusOf, ReadyNames, FirstJob, FirstJobs, Ready;
    PassQueuesReady(db, db.ex.order, now, maxAttempts);
  }

  /** The whole statement, for any moment of a run without operators. */
  lemma RetryRepairs(c: Settings, ex: Execution, t0: Time, states: seq<Sys>, steps: seq<Step>, i: nat, t: Name,
                     now: Time)
    requires IsRun(c, ex, t0, states, steps) && Unattended(steps) && i < |states|
    requires var e := states[i].db.ex;
      t in e.state && t in e.graph && e.state[t] == Failure && Ready(e.graph, e.state, t)
    requires var e := states[i].db.ex; forall n :: n in e.state && e.state[n] == Failure ==>
      n == t || Reaches(e.graph, t, n)
    ensures Rows(states[i].db.ex)
    ensures var db, r := states[i].db, RetryTask(states[i].db, t, now, c.maxAttempts);
      && (forall n :: n in r.ex.state ==> r.ex.state[n] != Failure)
      && |r.jobs| == |db.jobs| + 1 && r.jobs[..|db.jobs|] == db.jobs
      && r.jobs[|db.jobs|].task == t && r.jobs[|db.jobs|].state == Queued
      && (forall n :: n in r.ex.state && n in db.ex.graph && r.ex.state[n] == Pending ==>
        !SomeDep(db.ex.graph, r.ex.state, n, Failure) && !Ready(db.ex.graph, r.ex.state, n))
  {
    hide IsRun, Unattended, Reaches, Ready, Broken, RetryTask, Rows, Distinct, ResetBranch, SomeDep;
    RunIsBroken(c, ex, t0, states, steps, i, t);
    RetryMends(c, states[i].db, t, now);
  }

  // ---- the status after a retry ----

  lemma ResetRows(ex: Execution, n: Name)
    requires Rows(ex)
    ensures Rows(ResetBranch(ex, n)) && ResetBranch(ex, n).order == ex.order
  {
    var r := ResetBranch(ex, n);
    assert r.state.Keys == ex.state.Keys && r.retries.Keys == ex.retries.Keys;
    hide Reaches, Elements;
  }

  /** A retry leaves status, `finished_at` and task states in agreement, whatever they were before; a refused one leaves
      everything as it was. */
  lemma RetryTaskAgrees(db: Db, n: Name, now: Time, maxAttempts: nat)
    requires Rows(db.ex)
    ensures if MayRetry(db.ex, n) then Agrees(RetryTask(db, n, now, maxAttempts).ex)
      else RetryTask(db, n, now, maxAttempts) == db
  {
    if MayRetry(db.ex, n) {
      var db1 := db.(ex := ResetBranch(db.ex, n));
      ResetRows(db.ex, n);
      hide ResetBranch, EnqueueReady, Agrees;
      RowsMeanStates(db.ex, EnqueueReady(db1, now, maxAttempts).ex, n);
      EnqueueReadyAgrees(db1, now, maxAttempts);
    }
  }
}
