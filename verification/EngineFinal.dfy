/** What an execution that has ended is safe from. */
module EngineFinal {
  import opened Dag
  import opened Q = QueueRecords
  import opened E = ExecutionState
  import opened Engine
  import opened EngineCore
  import opened EngineInv
  import opened EngineTiming
  import opened Effects

  /** The status is untouched, or the one that fits the task states. */
  predicate Follows(ex: Execution, ex': Execution) {
    ex'.status == ex.status || StatusFits(ex'.status, ex'.state, ex'.cancellationRequested)
  }

  lemma RefreshFollows(ex: Execution, ex1: Execution, now: Time)
    ensures Follows(ex, Refresh(ex1, now))
  {
    RefreshEffect(ex1, now);
    hide StatusFits, Refresh;
  }

  lemma CompleteFollows(db: Db, j: JobId, now: Time, maxAttempts: nat)
    requires Rows(db.ex) && OwnJob(db, j)
    ensures Follows(db.ex, Complete(db, j, now, maxAttempts).ex)
  {
    SetStateRows(db.ex, db.jobs[j].task, Success);
    hide Rows, EnqueueReady, Refresh, Follows, Acknowledge;
    var next := EnqueueReady(Db(SetState(db.ex, db.jobs[j].task, Success), Acknowledge(db.jobs, j, now)), now,
                             maxAttempts);
    RefreshFollows(db.ex, next.ex, now);
  }

  lemma SkipFollows(db: Db, n: Name, now: Time, maxAttempts: nat)
    requires Rows(db.ex) && MaySkip(db.ex, n)
    ensures Follows(db.ex, SkipTask(db, n, now, maxAttempts).ex)
  {
    SetStateRows(db.ex, n, Skipped);
    hide Rows, EnqueueReady, Refresh, Follows, CancelTaskJobs;
    var next := EnqueueReady(Db(SetState(db.ex, n, Skipped), CancelTaskJobs(db.jobs, db.ex.id, n, now)), now,
                             maxAttempts);
    RefreshFollows(db.ex, next.ex, now);
  }

  lemma LossFollows(ex: Execution, n: Name, now: Time)
    ensures Follows(ex, HandleDeadLetter(ex, n, now))
  {
    var failed := SetState(ex, n, Failure);
    RefreshFollows(ex, failed.(state := FailDownstream(ex.graph, failed.state)), now);
    hide FailDownstream, Refresh, StatusFits;
  }

  lemma FinishFollows(db: Db, j: JobId, ok: bool, now: Time, maxAttempts: nat)
    requires Rows(db.ex) && OwnJob(db, j)
    ensures Follows(db.ex, E.Finish(db, j, ok, now, maxAttempts).ex)
  {
    CountingIs(db.ex, db.jobs[j].task);
    hide Rows, Complete, E.Exhaust, E.Retry, FinishStopped, E.Finish, Follows, Succeeds, Framed, CountedFailure;
    FinishParts(db, j, ok, now, maxAttempts);
    CompleteFollows(db, j, now, maxAttempts);
    StopFollows(db, j, now);
    ExhaustFollows(db, j, now);
    RetryFollows(db, j, now, maxAttempts);
  }

  lemma RetryFollows(db: Db, j: JobId, now: Time, maxAttempts: nat)
    requires Rows(db.ex) && OwnJob(db, j)
    ensures Follows(db.ex, E.Retry(db, j, now, maxAttempts).ex)
  {
    hide Rows, StatusFits, Acknowledge, NewJob, Backoff;
  }

  lemma StopFollows(db: Db, j: JobId, now: Time)
    requires Rows(db.ex) && OwnJob(db, j)
    ensures Follows(db.ex, FinishStopped(db, j, now).ex)
  {
    RefreshFollows(db.ex, SetState(db.ex, db.jobs[j].task, Stopped), now);
    hide Rows, Refresh, Follows, Acknowledge;
  }

  lemma ExhaustFollows(db: Db, j: JobId, now: Time)
    requires Rows(db.ex) && OwnJob(db, j)
    ensures Follows(db.ex, E.Exhaust(db, j, now).ex)
  {
    var n := db.jobs[j].task;
    var ex1 := CountedFailure(db.ex, n);
    var failed := SetState(ex1, n, Failure);
    RefreshFollows(db.ex, failed.(state := FailDownstream(ex1.graph, failed.state)), now);
    hide Rows, FailDownstream, Refresh, Follows, Acknowledge;
  }

  lemma StartFollows(db: Db, j: JobId, now: Time)
    requires Rows(db.ex) && OwnJob(db, j)
    ensures Follows(db.ex, E.Start(db, j, now).ex)
  {
    RefreshFollows(db.ex, SetState(db.ex, db.jobs[j].task, Stopped), now);
    hide Rows, Refresh, StatusFits, Acknowledge;
  }

  lemma CancelFollows(db: Db, now: Time)
    ensures Follows(db.ex, CancelExecution(db, now).ex)
  {
    RefreshFollows(db.ex, CancelRows(db.ex), now);
    hide Refresh, StatusFits, CancelExecutionJobs;
  }

  lemma StepFollows(c: Settings, s: Sys, step: Step)
    requires Rows(s.db.ex) && s.starts.Keys == s.db.ex.state.Keys && Enabled(s, step)
    ensures Follows(s.db.ex, Apply(c, s, step).db.ex)
  {
    hide Rows, StatusFits, E.Finish, E.Start, FinishStopped, SkipTask, CancelExecution, HandleDeadLetter, Refresh,
      StepFrame;
    match step
    case Start(j, now) => StartFollows(s.db, j, now);
    case Finish(j, ok, now) => FinishFollows(s.db, j, ok, now, c.maxAttempts);
    case Interrupt(j, now) => StopFollows(s.db, j, now);
    case Deliver(j, now) => LossFollows(s.db.ex, s.db.jobs[j].task, now);
    case ReapHung(n, now) => LossFollows(s.db.ex, n, now);
    case Finalize(now) => RefreshFollows(s.db.ex, s.db.ex, now);
    case Cancel(now) => CancelFollows(s.db, now);
    case Skip(n, now) => SkipFollows(s.db, n, now, c.maxAttempts);
    case _ =>
  }

  // ---- success is final ----

  /** A successful execution is not being cancelled, and all its tasks have succeeded or were skipped. */
  ghost predicate SuccessMeans(ex: Execution) {
    ex.status == StatusSuccess ==>
      !ex.cancellationRequested && forall n :: n in ex.state ==> ex.state[n] in {Success, Skipped}
  }

  /** No step touches the rows of a successful execution. */
  lemma SuccessStays(c: Settings, s: Sys, step: Step)
    requires Rows(s.db.ex) && s.starts.Keys == s.db.ex.state.Keys && Enabled(s, step) && Inv(c, s)
    requires s.db.ex.status == StatusSuccess && SuccessMeans(s.db.ex)
    ensures Apply(c, s, step).db.ex == s.db.ex
  {
    hide Inv, Rows, StepFrame, Refresh, FailTask, Acknowledge, E.Finish, FinishStopped, SkipTask, InsideTasks,
      CancelExecutionJobs, RequeueStale, DeadLetters;
    if step.Finish? || step.Interrupt? {
      NobodyInside(c, s, step.j);
      assert false;
    }
  }

  lemma NobodyInside(c: Settings, s: Sys, j: JobId)
    requires Inv(c, s) && s.db.ex.status == StatusSuccess && SuccessMeans(s.db.ex)
    ensures !IsInside(s, j)
  {
    if IsInside(s, j) {
      InsideIsCalm(c, s, j);
      hide Inv, Rows, Known, Distinct, Settled;
    }
  }

  lemma StepKeepsSuccess(c: Settings, s: Sys, step: Step)
    requires Rows(s.db.ex) && s.starts.Keys == s.db.ex.state.Keys && Enabled(s, step) && Inv(c, s)
    requires SuccessMeans(s.db.ex)
    ensures SuccessMeans(Apply(c, s, step).db.ex)
  {
    hide Inv, Rows, Apply, Enabled;
    if s.db.ex.status == StatusSuccess {
      SuccessStays(c, s, step);
    } else {
      StepFollows(c, s, step);
    }
  }

  lemma SpawnedSuccess(c: Settings, ex: Execution, t0: Time)
    requires Rows(ex) && Fresh(ex)
    ensures SuccessMeans(Spawned(c, ex, t0).db.ex)
  {
    hide Rows, EnqueueAll, Known, Acyclic, Distinct, Refresh;
    RefreshEffect(EnqueueAll(Db(ex, []), ex.order, t0, c.maxAttempts).ex, t0);
  }

  lemma {:induction false} RunSuccess(c: Settings, ex: Execution, t0: Time, states: seq<Sys>, steps: seq<Step>, i: nat)
    requires IsRun(c, ex, t0, states, steps) && i < |states|
    ensures SuccessMeans(states[i].db.ex)
  {
    hide Inv, Fresh, Rows, Apply, Spawned, SuccessMeans, Enabled;
    if i == 0 {
      SpawnedSuccess(c, ex, t0);
    } else {
      RunSuccess(c, ex, t0, states, steps, i - 1);
      RunKeepsInv(c, ex, t0, states, steps, i - 1);
      assert Legal(c, states[i - 1], steps[i - 1], states[i]);
      StepKeepsSuccess(c, states[i - 1], steps[i - 1]);
    }
  }

  /** In every run, with cancellations and skips: once the status is success, no row of the execution ever changes
      again. */
  lemma {:induction false} SuccessIsFinal(c: Settings, ex: Execution, t0: Time, states: seq<Sys>, steps: seq<Step>,
                                          i: nat, k: nat)
    requires IsRun(c, ex, t0, states, steps) && i <= k < |states| && states[i].db.ex.status == StatusSuccess
    ensures states[k].db.ex == states[i].db.ex
  {
    hide Inv, Fresh, Rows, Apply, Spawned, SuccessMeans, Enabled;
    if i < k {
      SuccessIsFinal(c, ex, t0, states, steps, i, k - 1);
      RunSuccess(c, ex, t0, states, steps, k - 1);
      RunKeepsInv(c, ex, t0, states, steps, k - 1);
      assert Legal(c, states[k - 1], steps[k - 1], states[k]);
      SuccessStays(c, states[k - 1], steps[k - 1]);
    }
  }

  /** In every run: a cancellation once the execution has succeeded, failed or been cancelled changes nothing at all,
      neither its rows nor its jobs. */
  lemma EndedIsNotCancelled(c: Settings, ex: Execution, t0: Time, states: seq<Sys>, steps: seq<Step>, i: nat)
    requires IsRun(c, ex, t0, states, steps) && i < |steps| && steps[i].Cancel?
    requires states[i].db.ex.status in {StatusSuccess, StatusFailed, StatusCancelled}
    ensures states[i + 1] == states[i]
  {
    hide Fresh, Rows, Spawned, Apply;
    assert Legal(c, states[i], steps[i], states[i + 1]);
    hide IsRun;
    CancelDoesNothing(c, states[i], steps[i]);
  }

  lemma CancelDoesNothing(c: Settings, s: Sys, step: Step)
    requires Rows(s.db.ex) && s.starts.Keys == s.db.ex.state.Keys && Enabled(s, step) && step.Cancel?
    requires s.db.ex.status in {StatusSuccess, StatusFailed, StatusCancelled}
    ensures Apply(c, s, step) == s
  {
    CancelEffect(s.db, step.now);
    hide Rows, StepFrame, CancelExecution;
  }
}
