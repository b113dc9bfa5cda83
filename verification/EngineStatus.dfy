/** The execution's status, its `finished_at` and its outbox follow the task states. */
module EngineStatus {
  import opened Dag
  import opened Q = QueueRecords
  import opened E = ExecutionState
  import opened Engine
  import opened EngineCore

  /** The status is the one the task states stand for, and `finished_at` is set exactly when it is terminal. */
  ghost predicate Agrees(ex: Execution) {
    ex.status == StatusOf(ex.state, ex.cancellationRequested) && (ex.finishedAt.Some? <==> Terminal(ex.status))
  }

  lemma RefreshAgrees(ex: Execution, now: Time)
    requires ex.state != map[]
    ensures Agrees(Refresh(ex, now))
  {
  }

  /** Refreshing again changes nothing and writes no further event. */
  lemma RefreshTwice(ex: Execution, now: Time, later: Time)
    ensures Refresh(Refresh(ex, now), later) == Refresh(ex, now)
  {
    hide StatusOf, Rows, Framed;
    var r := Refresh(ex, now);
    assert r.state == ex.state && r.cancellationRequested == ex.cancellationRequested;
    assert r.status == StatusOf(r.state, r.cancellationRequested);
  }

  /** Starting a queued task, or queueing a running one, does not show in the status. */
  lemma StatusOfActive(st: States, n: Name, x: TaskState, stop: bool)
    requires n in st && (st[n] == Enqueued || st[n] == Running) && (x == Enqueued || x == Running)
    ensures StatusOf(st[n := x], stop) == StatusOf(st, stop)
  {
    var st' := st[n := x];
    forall y | y != Enqueued && y != Running ensures Any(st', y) == Any(st, y) {
      if Any(st, y) { var m :| m in st && st[m] == y; assert m in st' && st'[m] == y; }
      if Any(st', y) { var m :| m in st' && st'[m] == y; assert m in st && st[m] == y; }
    }
    assert (Any(st, Enqueued) || Any(st, Running)) && (Any(st', Enqueued) || Any(st', Running)) by {
      assert st'[n] == x;
    }
    assert !Satisfied(st[n]) && !Satisfied(st'[n]);
  }

  /** Some task other than `n` has failed. */
  predicate OtherFailed(st: States, n: Name) { exists m | m in st :: m != n && st[m] == Failure }

  /** A worker's failed attempt re-queues its task although the execution already counts as finished. That takes a
      task which was cancelled or skipped behind the worker's back. */
  predicate Reopens(s: Sys, step: Step)
    requires Rows(s.db.ex)
  {
    step.Finish? && IsInside(s, step.j) &&
    var n, ex := s.db.jobs[step.j].task, s.db.ex;
    && !Succeeds(ex, n, step.ok) && !ex.config[n].allowFailure && ex.retries[n] + 1 <= ex.config[n].maxRetries
    && Terminal(ex.status) && !OtherFailed(ex.state, n)
  }

  lemma OrderMeansStates(c: Settings, s: Sys)
    requires Core(c, s)
    ensures s.db.ex.state != map[]
  {
    assert s.db.ex.order[0] in Elements(s.db.ex.order);
  }

  /** Every service call leaves status, `finished_at` and task states in agreement, with one exact exception. */
  lemma StepAgreement(c: Settings, s: Sys, step: Step)
    requires Rows(s.db.ex) && s.starts.Keys == s.db.ex.state.Keys && Enabled(s, step) && Core(c, s) && Agrees(s.db.ex)
    ensures Agrees(Apply(c, s, step).db.ex) <==> !Reopens(s, step)
  {
    OrderMeansStates(c, s);
    hide Core, Agrees, Reopens, Rows;
    match step
    case Start(j, now) => StartAgrees(c, s, j, now); OnlyFinishReopens(s, step);
    case Finish(j, ok, now) => FinishAgrees(c, s, j, ok, now);
    case _ => OthersAgree(c, s, step); OnlyFinishReopens(s, step);
  }

  lemma OnlyFinishReopens(s: Sys, step: Step)
    requires Rows(s.db.ex)
    ensures !step.Finish? ==> !Reopens(s, step)
  {
  }

  lemma OthersAgree(c: Settings, s: Sys, step: Step)
    requires Rows(s.db.ex) && s.starts.Keys == s.db.ex.state.Keys && Enabled(s, step) && Agrees(s.db.ex)
    requires !step.Start? && !step.Finish? && s.db.ex.state != map[]
    ensures Agrees(Apply(c, s, step).db.ex)
  {
    hide Agrees, Rows, HandleDeadLetter, CancelExecution, SkipTask, FinishStopped, Refresh, StepFrame;
    match step
    case Interrupt(j, now) => StopAgrees(s.db, j, now);
    case Deliver(j, now) => LoseAgrees(s.db.ex, s.db.jobs[j].task, now);
    case ReapHung(n, now) => LoseAgrees(s.db.ex, n, now);
    case Finalize(now) => RefreshAgrees(s.db.ex, now);
    case Cancel(now) => CancelAgrees(s.db, now);
    case Skip(n, now) => SkipAgrees(s.db, n, now, c.maxAttempts);
    case _ =>
  }

  lemma StartAgrees(c: Settings, s: Sys, j: JobId, now: Time)
    requires Rows(s.db.ex) && Enabled(s, Step.Start(j, now)) && j in s.runs && Core(c, s) && Agrees(s.db.ex)
    ensures Agrees(AfterStart(s, j, now).db.ex)
  {
    OrderMeansStates(c, s);
    OwnerOf(c, s, j);
    var n, ex := s.db.jobs[j].task, s.db.ex;
    hide Core, Core', ViewOf, Rows;
    if Starts(s.db, j) {
      StatusOfActive(ex.state, n, Running, ex.cancellationRequested);
    } else if !Satisfied(ex.state[n]) && ex.state[n] != Failure && ex.state[n] != Stopped {
      RefreshAgrees(SetState(ex, n, Stopped), now);
    }
    hide StatusOf, Refresh;
  }

  lemma CompleteAgrees(db: Db, j: JobId, now: Time, maxAttempts: nat)
    requires Rows(db.ex) && OwnJob(db, j)
    ensures Agrees(Complete(db, j, now, maxAttempts).ex)
  {
    var next := EnqueueReady(Db(SetState(db.ex, db.jobs[j].task, Success), Acknowledge(db.jobs, j, now)), now,
                             maxAttempts);
    RowsMeanStates(db.ex, next.ex, db.jobs[j].task);
    hide EnqueueReady, Acknowledge, Rows;
    RefreshAgrees(next.ex, now);
    hide Refresh, Agrees;
  }

  lemma RowsMeanStates(ex: Execution, ex': Execution, n: Name)
    requires Rows(ex) && Rows(ex') && n in ex.state && ex'.order == ex.order
    ensures ex'.state != map[]
  {
    assert n in ex'.state;
  }

  /** What the status stands for once task `n` is queued again. */
  lemma StatusOfQueued(st: States, n: Name, stop: bool)
    requires n in st
    ensures StatusOf(st[n := Enqueued], stop) == if OtherFailed(st, n) then StatusFailed else StatusRunning
    ensures OtherFailed(st, n) ==> StatusOf(st, stop) == StatusFailed
    ensures StatusOf(st, stop) != StatusPending
  {
    var st' := st[n := Enqueued];
    assert st'[n] == Enqueued && n in st';
    assert Any(st', Failure) == OtherFailed(st, n) by {
      if OtherFailed(st, n) { var m :| m in st && m != n && st[m] == Failure; assert m in st' && st'[m] == Failure; }
      if Any(st', Failure) { var m :| m in st' && st'[m] == Failure; assert m in st && m != n; }
    }
  }

  /** Re-queueing does not refresh the status: that is right unless the execution counts as finished for another reason
      than a failed task. */
  lemma RetryAgrees(db: Db, j: JobId, now: Time, maxAttempts: nat)
    requires Rows(db.ex) && OwnJob(db, j) && Agrees(db.ex)
    ensures Agrees(E.Retry(db, j, now, maxAttempts).ex) <==>
      (!Terminal(db.ex.status) || OtherFailed(db.ex.state, db.jobs[j].task))
  {
    StatusOfQueued(db.ex.state, db.jobs[j].task, db.ex.cancellationRequested);
    hide StatusOf, Rows, Acknowledge, NewJob, Backoff, OtherFailed;
  }

  lemma ExhaustAgrees(db: Db, j: JobId, now: Time)
    requires Rows(db.ex) && OwnJob(db, j)
    ensures Agrees(E.Exhaust(db, j, now).ex)
  {
    var n := db.jobs[j].task;
    var ex1 := CountedFailure(db.ex, n);
    hide Agrees, FailTask, Acknowledge, Rows, CountedFailure;
    FailAgrees(ex1, n, now);
  }

  lemma StopAgrees(db: Db, j: JobId, now: Time)
    requires Rows(db.ex) && OwnJob(db, j)
    ensures Agrees(FinishStopped(db, j, now).ex)
  {
    hide Agrees, Refresh, Acknowledge, Rows;
    assert db.jobs[j].task in SetState(db.ex, db.jobs[j].task, Stopped).state;
    RefreshAgrees(SetState(db.ex, db.jobs[j].task, Stopped), now);
  }

  lemma FinishAgrees(c: Settings, s: Sys, j: JobId, ok: bool, now: Time)
    requires Rows(s.db.ex) && IsInside(s, j) && Agrees(s.db.ex)
    ensures Agrees(AfterFinish(c, s, j, ok, now).db.ex) <==> !Reopens(s, Step.Finish(j, ok, now))
  {
    hide Agrees, Complete, FinishStopped, E.Retry, E.Exhaust, Rows, Succeeds, OtherFailed;
    CompleteAgrees(s.db, j, now, c.maxAttempts);
    StopAgrees(s.db, j, now);
    RetryAgrees(s.db, j, now, c.maxAttempts);
    ExhaustAgrees(s.db, j, now);
  }

  lemma FailAgrees(ex: Execution, n: Name, now: Time)
    requires n in ex.state
    ensures Agrees(FailTask(ex, n, now))
  {
    var failed := SetState(ex, n, Failure);
    var ex' := failed.(state := FailDownstream(ex.graph, failed.state));
    assert n in ex'.state;
    hide FailDownstream;
    RefreshAgrees(ex', now);
  }

  lemma LoseAgrees(ex: Execution, n: Name, now: Time)
    requires Agrees(ex)
    ensures Agrees(HandleDeadLetter(ex, n, now))
  {
    hide Agrees, FailTask;
    if n in ex.state { FailAgrees(ex, n, now); }
  }

  lemma CancelAgrees(db: Db, now: Time)
    requires Agrees(db.ex) && db.ex.state != map[]
    ensures Agrees(CancelExecution(db, now).ex)
  {
    var n :| n in db.ex.state;
    var ex := CancelRows(db.ex);
    assert n in ex.state;
    RefreshAgrees(ex, now);
    hide Refresh, StatusOf;
  }

  lemma SkipAgrees(db: Db, n: Name, now: Time, maxAttempts: nat)
    requires Rows(db.ex) && MaySkip(db.ex, n)
    ensures Agrees(SkipTask(db, n, now, maxAttempts).ex)
  {
    var next := EnqueueReady(Db(SetState(db.ex, n, Skipped), CancelTaskJobs(db.jobs, db.ex.id, n, now)), now,
                             maxAttempts);
    RowsMeanStates(db.ex, next.ex, n);
    hide EnqueueReady, CancelTaskJobs, Rows;
    RefreshAgrees(next.ex, now);
    hide Refresh, Agrees;
  }

  // ---- nobody is inside a task that was taken out of running ----

  /** A worker inside a running task never reopens a finished execution. */
  lemma MannedNeverReopens(s: Sys, step: Step)
    requires Rows(s.db.ex) && Agrees(s.db.ex) && Manned(ViewOf(s))
    ensures !Reopens(s, step)
  {
    if Reopens(s, step) {
      var n, ex := s.db.jobs[step.j].task, s.db.ex;
      assert n in ViewOf(s).inside;
      StatusOfActive(ex.state, n, Enqueued, ex.cancellationRequested);
      StatusOfQueued(ex.state, n, ex.cancellationRequested);
      assert false;
    }
  }

  /** The two calls that cancel running rows without telling their workers: a skip, or a tolerated failure, while a
      cancellation is requested. */
  predicate Sweeps(s: Sys, step: Step) {
    && s.db.ex.cancellationRequested && Rows(s.db.ex)
    && (step.Skip? || (step.Finish? && OwnJob(s.db, step.j) && Tolerates(s.db.ex, s.db.jobs[step.j].task, step.ok)))
  }

  /** The task's failed attempt counts as a success. */
  predicate Tolerates(ex: Execution, n: Name, ok: bool)
    requires n in ex.config && n in ex.retries
  {
    !Succeeds(ex, n, ok) && ex.config[n].allowFailure
  }
}
