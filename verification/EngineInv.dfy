/** Runs of the engine keep its invariant. */
module EngineInv {
  import opened Dag
  import opened Q = QueueRecords
  import opened E = ExecutionState
  import opened Engine
  import opened EngineCore
  import opened Readiness

  // ---- settling ----

  lemma CleanAfter(g: Graph, st: States, n: Name, x: TaskState)
    requires Settled(g, st) && Known(g) && st.Keys == g.Keys && n in st && (x == Success || x == Skipped)
    requires forall m :: m in st ==> st[m] != Stopped
    ensures Clean(g, st[n := x])
  {
    var st' := st[n := x];
    forall m | m in st' && m in g && st'[m] == Pending
      ensures !Missing(g, st', m) && !SomeDep(g, st', m, Failure) && !SomeDep(g, st', m, Stopped)
    {
      assert !SomeDep(g, st, m, Failure);
    }
  }

  lemma SettledActive(g: Graph, st: States, n: Name, x: TaskState)
    requires Settled(g, st) && n in st && (x == Running || x == Enqueued) && st[n] != Pending
    ensures Settled(g, st[n := x])
  {
    var st' := st[n := x];
    forall m | m in st' && st'[m] == Pending && m in g ensures !SomeDep(g, st', m, Failure) && !Ready(g, st', m) {
      assert !SomeDep(g, st, m, Failure) && !Ready(g, st, m);
    }
  }

  lemma FailSettles(g: Graph, st: States, n: Name)
    requires Settled(g, st) && n in st && !Satisfied(st[n])
    ensures Settled(g, FailDownstream(g, st[n := Failure]))
  {
    var st1 := st[n := Failure];
    var st' := FailDownstream(g, st1);
    FailDownstreamCloses(g, st1);
    FailDownstreamChanges(g, st1);
    hide FailDownstream;
    forall m | m in st' && st'[m] == Pending && m in g ensures !SomeDep(g, st', m, Failure) && !Ready(g, st', m) {
      assert m != n && st[m] == Pending && !Ready(g, st, m);
      var d :| d in g[m] && !(d in st && Satisfied(st[d]));
      assert !(d in st' && Satisfied(st'[d]));
    }
  }

  lemma FailTaskSettles(ex: Execution, n: Name, now: Time)
    requires Settled(ex.graph, ex.state) && n in ex.state && !Satisfied(ex.state[n])
    ensures Settled(ex.graph, FailTask(ex, n, now).state)
  {
    FailSettles(ex.graph, ex.state, n);
    hide FailDownstream, Settled;
  }

  /** Queueing after a task became satisfied settles the rows again. */
  lemma EnqueueReadySettles(db: Db, n: Name, x: TaskState, jobs: Jobs, now: Time, maxAttempts: nat)
    requires Rows(db.ex) && Known(db.ex.graph) && Distinct(db.ex.order) && !db.ex.cancellationRequested
    requires Settled(db.ex.graph, db.ex.state) && n in db.ex.state && (x == Success || x == Skipped)
    requires forall m :: m in db.ex.state ==> db.ex.state[m] != Stopped
    ensures Rows(SetState(db.ex, n, x))
    ensures var r := EnqueueReady(Db(SetState(db.ex, n, x), jobs), now, maxAttempts).ex;
      Settled(db.ex.graph, r.state)
  {
    SetStateRows(db.ex, n, x);
    CleanAfter(db.ex.graph, db.ex.state, n, x);
    hide Clean, Known, Distinct, Rows, Elements, EnqueueReady, Settled;
    CleanReadySettles(Db(SetState(db.ex, n, x), jobs), now, maxAttempts);
  }

  lemma CleanReadySettles(db: Db, now: Time, maxAttempts: nat)
    requires Rows(db.ex) && Distinct(db.ex.order) && !db.ex.cancellationRequested && Clean(db.ex.graph, db.ex.state)
    ensures Settled(db.ex.graph, EnqueueReady(db, now, maxAttempts).ex.state)
  {
    hide Clean, Distinct, Rows, StatusOf;
    CleanPassSettles(db, now, maxAttempts);
    hide EnqueueAll, SomeDep, Ready;
  }

  // ---- the invariant along a step ----

  ghost predicate Legal(c: Settings, s: Sys, step: Step, s': Sys) {
    Rows(s.db.ex) && s.starts.Keys == s.db.ex.state.Keys && Enabled(s, step) && s' == Apply(c, s, step)
  }

  lemma StepKeepsCore(c: Settings, s: Sys, step: Step)
    requires Rows(s.db.ex) && s.starts.Keys == s.db.ex.state.Keys && Enabled(s, step) && Core(c, s)
    ensures Core(c, Apply(c, s, step))
  {
    hide Core, FailStop, AfterClaim, AfterRenew, AfterStart, AfterFinish, AfterInterrupt, AfterReapLeases,
      AfterDeliver, LoseTask, CancelExecution, SkipTask, Refresh, StepFrame, Rows;
    match step
    case Claim(j, worker, now) => ClaimKeepsCore(c, s, j, worker, now);
    case Start(j, now) => StartKeepsCore(c, s, j, now);
    case Renew(j, worker, now) => RenewKeepsCore(c, s, j, worker, now);
    case Finish(j, ok, now) => FinishKeepsCore(c, s, j, ok, now);
    case Interrupt(j, now) => InterruptKeepsCore(c, s, j, now);
    case Crash(j) => CrashKeepsCore(c, s, j);
    case ReapLeases(now) => ReapLeasesKeepsCore(c, s, now);
    case Deliver(j, now) => DeliverKeepsCore(c, s, j, now);
    case Discard(part) => DiscardKeepsCore(c, s, part);
    case ReapHung(n, now) => LoseKeepsCore(c, s, n, now);
    case Finalize(now) => RefreshKeepsCore(c, s, now);
    case Cancel(now) => CancelKeepsCore(c, s, now);
    case Skip(n, now) => SkipKeepsCore(c, s, n, now);
  }

  lemma DiscardKeepsCore(c: Settings, s: Sys, part: set<JobId>)
    requires Core(c, s)
    ensures Core(c, s.(buffer := s.buffer - part))
  {
    hide Shape, ViewOk, JobsOk, RunsOk;
    assert ViewOf(s.(buffer := s.buffer - part)) == ViewOf(s);
  }

  /** What the invariant says while no cancellation is requested. */
  lemma CalmFacts(c: Settings, s: Sys)
    requires Inv(c, s) && !s.db.ex.cancellationRequested
    ensures Rows(s.db.ex) && Known(s.db.ex.graph) && Acyclic(s.db.ex.graph) && Distinct(s.db.ex.order)
      && s.db.ex.order != []
    ensures s.db.ex.state.Keys == s.db.ex.graph.Keys
    ensures Settled(s.db.ex.graph, s.db.ex.state) && CaredFor(ViewOf(s))
    ensures forall n :: n in s.db.ex.state ==> s.db.ex.state[n] != Stopped && s.db.ex.state[n] != Retrying
  {
  }

  lemma StartKeepsSettled(c: Settings, s: Sys, j: JobId, now: Time)
    requires Rows(s.db.ex) && Enabled(s, Step.Start(j, now)) && j in s.runs && Inv(c, s)
      && !s.db.ex.cancellationRequested
    ensures Settled(s.db.ex.graph, AfterStart(s, j, now).db.ex.state)
  {
    hide Inv, Core, Settled, Known, Acyclic, Distinct, CaredFor, Rows, Core', ViewOf;
    StartOwner(c, s, j);
    CalmFacts(c, s);
    if Starts(s.db, j) {
      SettledActive(s.db.ex.graph, s.db.ex.state, s.db.jobs[j].task, Running);
    }
    hide StatusOf, Acknowledge, StepFrame;
  }

  lemma StartOwner(c: Settings, s: Sys, j: JobId)
    requires Inv(c, s) && OwnJob(s.db, j) && j in s.runs
    ensures s.db.ex.state[s.db.jobs[j].task] != Pending
  {
    OwnerOf(c, s, j);
  }

  /** The task a worker is inside, while no cancellation is requested. */
  ghost predicate CalmRun(db: Db, j: JobId) {
    && Rows(db.ex) && OwnJob(db, j) && !db.ex.cancellationRequested
    && Known(db.ex.graph) && Distinct(db.ex.order) && Settled(db.ex.graph, db.ex.state)
    && (forall n :: n in db.ex.state ==> db.ex.state[n] != Stopped)
    && db.ex.state[db.jobs[j].task] == Running
  }

  lemma CompleteSettles(db: Db, j: JobId, now: Time, maxAttempts: nat)
    requires Rows(db.ex) && OwnJob(db, j) && CalmRun(db, j)
    ensures Settled(db.ex.graph, Complete(db, j, now, maxAttempts).ex.state)
  {
    hide EnqueueReady, Acknowledge, Settled, Known, Distinct, Rows, StatusOf;
    EnqueueReadySettles(db, db.jobs[j].task, Success, Acknowledge(db.jobs, j, now), now, maxAttempts);
  }

  lemma RetrySettles(db: Db, j: JobId, now: Time, maxAttempts: nat)
    requires Rows(db.ex) && OwnJob(db, j) && CalmRun(db, j)
    ensures Settled(db.ex.graph, E.Retry(db, j, now, maxAttempts).ex.state)
  {
    SettledActive(db.ex.graph, db.ex.state, db.jobs[j].task, Enqueued);
    hide CalmRun, Settled, Acknowledge;
  }

  lemma ExhaustSettles(db: Db, j: JobId, now: Time)
    requires Rows(db.ex) && OwnJob(db, j) && CalmRun(db, j)
    ensures Settled(db.ex.graph, E.Exhaust(db, j, now).ex.state)
  {
    var n := db.jobs[j].task;
    hide Settled, Acknowledge, FailTask, CountedFailure;
    FailTaskSettles(CountedFailure(db.ex, n), n, now);
  }

  lemma InsideIsCalm(c: Settings, s: Sys, j: JobId)
    requires IsInside(s, j) && Inv(c, s) && !s.db.ex.cancellationRequested
    ensures CalmRun(s.db, j)
  {
    OwnerOf(c, s, j);
    CalmFacts(c, s);
    hide Inv, Core, Settled, Known, Distinct, Rows;
    assert s.db.ex.state[s.db.jobs[j].task] == Running by { assert s.db.jobs[j].task in ViewOf(s).inside; }
  }

  lemma FinishKeepsSettled(c: Settings, s: Sys, j: JobId, ok: bool, now: Time)
    requires Rows(s.db.ex) && IsInside(s, j) && Inv(c, s) && !s.db.ex.cancellationRequested
    ensures Settled(s.db.ex.graph, AfterFinish(c, s, j, ok, now).db.ex.state)
  {
    hide Inv, CalmRun, Settled, Complete, E.Retry, E.Exhaust, Rows, Succeeds;
    InsideIsCalm(c, s, j);
    CompleteSettles(s.db, j, now, c.maxAttempts);
    RetrySettles(s.db, j, now, c.maxAttempts);
    ExhaustSettles(s.db, j, now);
  }

  lemma LoseKeepsSettled(s: Sys, n: Name, now: Time)
    requires Settled(s.db.ex.graph, s.db.ex.state)
    ensures Settled(s.db.ex.graph, LoseTask(s, n, now).db.ex.state)
  {
    hide Settled, FailTask;
    if n in s.db.ex.state && !Satisfied(s.db.ex.state[n]) {
      FailTaskSettles(s.db.ex, n, now);
    }
  }

  lemma SkipKeepsSettled(c: Settings, s: Sys, n: Name, now: Time)
    requires Rows(s.db.ex) && MaySkip(s.db.ex, n) && Inv(c, s) && !s.db.ex.cancellationRequested
    ensures Settled(s.db.ex.graph, SkipTask(s.db, n, now, c.maxAttempts).ex.state)
  {
    hide Inv, Settled, CaredFor, Known, Acyclic, Distinct, StatusOf, EnqueueReady, CancelTaskJobs, Rows;
    CalmFacts(c, s);
    EnqueueReadySettles(s.db, n, Skipped, CancelTaskJobs(s.db.jobs, s.db.ex.id, n, now), now, c.maxAttempts);
    hide EnqueueReady, Rows;
  }

  /** Before the first pass nothing has happened to any task. */
  lemma FreshCore(c: Settings, ex: Execution)
    requires Rows(ex) && Fresh(ex) && c.maxAttempts >= 1
    ensures Core(c, Sys(Db(ex, []), map[], {}, {}, map n | n in ex.state :: 0, {})) && Clean(ex.graph, ex.state)
  {
    var s0 := Sys(Db(ex, []), map[], {}, {}, map n | n in ex.state :: 0, {});
    hide Known, Acyclic, Distinct;
    assert ViewOf(s0) == View(ex.state, [], {}, {});
    FreshView(ex);
    hide ViewOk, ViewOf, Rows, Clean;
  }

  lemma FreshView(ex: Execution)
    requires Rows(ex) && Fresh(ex)
    ensures ViewOk(ex.graph, false, View(ex.state, [], {}, {})) && Clean(ex.graph, ex.state)
  {
    FreshKnown(ex);
    hide Known, Acyclic, Distinct;
  }

  lemma FreshKnown(ex: Execution)
    requires Rows(ex) && Known(ex.graph)
    ensures forall n, d :: n in ex.graph && d in ex.graph[n] ==> d in ex.state
  {
  }

  lemma SpawnedInv(c: Settings, ex: Execution, now: Time)
    requires Rows(ex) && Fresh(ex) && c.maxAttempts >= 1
    ensures Inv(c, Spawned(c, ex, now)) && !Spawned(c, ex, now).db.ex.cancellationRequested
    ensures SameDefinitions(ex, Spawned(c, ex, now).db.ex)
  {
    var s0 := Sys(Db(ex, []), map[], {}, {}, map n | n in ex.state :: 0, {});
    FreshCore(c, ex);
    assert Distinct(ex.order) && !ex.cancellationRequested;
    hide Core, Clean, Distinct, Fresh, Rows, EnqueueReady, Settled;
    EnqueueReadyKeepsCore(c, s0, now);
    CleanReadySettles(s0.db, now, c.maxAttempts);
  }

  lemma StepKeepsSettled(c: Settings, s: Sys, step: Step)
    requires Rows(s.db.ex) && s.starts.Keys == s.db.ex.state.Keys && Enabled(s, step) && Inv(c, s)
    requires !Apply(c, s, step).db.ex.cancellationRequested && !s.db.ex.cancellationRequested
    ensures Settled(s.db.ex.graph, Apply(c, s, step).db.ex.state)
  {
    hide Inv, Settled, Rows, StepFrame, CaredFor, Known, Acyclic, Distinct;
    CalmFacts(c, s);
    match step
    case Start(j, now) => StartKeepsSettled(c, s, j, now);
    case Finish(j, ok, now) => FinishKeepsSettled(c, s, j, ok, now);
    case Deliver(j, now) => DeliverKeepsSettled(s, j, now);
    case ReapHung(n, now) => LoseKeepsSettled(s, n, now);
    case Skip(n, now) => SkipKeepsSettled(c, s, n, now);
    case _ => OthersKeepState(c, s, step);
  }

  /** One step of the engine keeps its invariant. */
  lemma StepKeepsInv(c: Settings, s: Sys, step: Step)
    requires Rows(s.db.ex) && s.starts.Keys == s.db.ex.state.Keys && Enabled(s, step) && Inv(c, s)
    ensures Inv(c, Apply(c, s, step))
  {
    hide Core, Settled, Enabled, Rows;
    var s' := Apply(c, s, step);
    StepKeepsCore(c, s, step);
    if !s'.db.ex.cancellationRequested {
      StepKeepsSettled(c, s, step);
    }
  }

  lemma DeliverKeepsSettled(s: Sys, j: JobId, now: Time)
    requires j < |s.db.jobs| && Settled(s.db.ex.graph, s.db.ex.state)
    ensures Settled(s.db.ex.graph, AfterDeliver(s, j, now).db.ex.state)
  {
    hide Settled;
    LoseKeepsSettled(s.(letters := s.letters - {j}, buffer := s.buffer - {j}), s.db.jobs[j].task, now);
  }

  lemma OthersKeepState(c: Settings, s: Sys, step: Step)
    requires Rows(s.db.ex) && s.starts.Keys == s.db.ex.state.Keys && Enabled(s, step)
    requires step.Claim? || step.Renew? || step.Crash? || step.ReapLeases? || step.Discard? || step.Finalize?
      || step.Interrupt? || step.Cancel?
    ensures !Apply(c, s, step).db.ex.cancellationRequested ==> Apply(c, s, step).db.ex.state == s.db.ex.state
  {
    hide Rows, StatusOf;
  }

  // ---- runs ----

  /** A finite run from the state `_spawn` leaves behind; crashes, expiries and operators may strike anywhere. */
  ghost predicate IsRun(c: Settings, ex: Execution, t0: Time, states: seq<Sys>, steps: seq<Step>) {
    && c.maxAttempts >= 1 && Rows(ex) && Fresh(ex)
    && |states| == |steps| + 1 && states[0] == Spawned(c, ex, t0)
    && forall i :: 0 <= i < |steps| ==> Legal(c, states[i], steps[i], states[i + 1])
  }

  /** The invariant holds in every state of every run. */
  lemma {:induction false} RunKeepsInv(c: Settings, ex: Execution, t0: Time, states: seq<Sys>, steps: seq<Step>, i: nat)
    requires IsRun(c, ex, t0, states, steps) && i < |states|
    ensures Inv(c, states[i]) && SameDefinitions(ex, states[i].db.ex)
  {
    hide Fresh, Inv, Rows, Apply, Spawned;
    if i == 0 {
      SpawnedInv(c, ex, t0);
    } else {
      RunKeepsInv(c, ex, t0, states, steps, i - 1);
      assert Legal(c, states[i - 1], steps[i - 1], states[i]);
      StepKeepsInv(c, states[i - 1], steps[i - 1]);
    }
  }

  /** No operator cancels. */
  ghost predicate NoCancel(steps: seq<Step>) { forall i :: 0 <= i < |steps| ==> !steps[i].Cancel? }

  lemma {:induction false} UncancelledRun(c: Settings, ex: Execution, t0: Time, states: seq<Sys>, steps: seq<Step>,
      i: nat)
    requires IsRun(c, ex, t0, states, steps) && i < |states| && NoCancel(steps)
    ensures !states[i].db.ex.cancellationRequested
  {
    hide Inv, Rows, Apply;
    if i == 0 {
      SpawnedInv(c, ex, t0);
    } else {
      UncancelledRun(c, ex, t0, states, steps, i - 1);
      assert Legal(c, states[i - 1], steps[i - 1], states[i]);
    }
  }
}
