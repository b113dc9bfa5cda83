/** `backend/services/execution_service.py`: the methods that change the rows of one execution, each against the
    transaction it stands for. */
module ExecutionService {
  import opened Dag
  import opened Tasks
  import opened Q = QueueRecords
  import opened E = ExecutionState
  import opened JobQueue
  import opened EngineCore
  import opened Effects
  import opened RetryEffects
  import opened Downstream

  class ExecutionService {
    const id: ExecutionId
    const tenant: TenantId
    const workflow: WorkflowId
    const order: seq<Name>
    const graph: Graph
    const config: map<Name, Config>
    const maxAttempts: nat
    const queue: DatabaseJobQueue
    var state: States
    var retries: map<Name, nat>
    var cancellationRequested: bool
    var status: ExecutionStatus
    var finishedAt: Option<Time>
    var outbox: seq<Event>

    function Row(): Execution
      reads this
    {
      Execution(id, tenant, workflow, order, graph, config, state, retries, cancellationRequested, status, finishedAt,
                outbox)
    }

    function Snapshot(): Db
      reads this, queue
    {
      Db(Row(), queue.jobs)
    }

    /** The rows `_spawn` creates for a stored document. */
    constructor (id: ExecutionId, tenant: TenantId, workflow: WorkflowId, doc: Document, maxAttempts: nat,
                 queue: DatabaseJobQueue)
      ensures Row() == InitialRows(id, tenant, workflow, doc) && this.maxAttempts == maxAttempts && this.queue == queue
      ensures UniqueNames(doc) ==> CreatedAs(Row(), id, tenant, workflow, doc)
    {
      var ex := InitialRows(id, tenant, workflow, doc);
      this.id, this.tenant, this.workflow, this.maxAttempts, this.queue := id, tenant, workflow, maxAttempts, queue;
      order, graph, config, state, retries := ex.order, ex.graph, ex.config, ex.state, ex.retries;
      cancellationRequested, status, finishedAt, outbox := false, StatusRunning, None, [Started];
      new;
      if UniqueNames(doc) { InitialRowsEffect(id, tenant, workflow, doc); }
    }

    /** `_refresh_execution_status` */
    method RefreshExecutionStatus(now: Time)
      modifies this`status, this`finishedAt, this`outbox
      ensures Row() == Refresh(old(Row()), now) && Refreshed(old(Row()), Row(), now)
    {
      RefreshEffect(Row(), now);
      var previous := status;
      var states := set n | n in state :: state[n];
      StatesAre(state, states, cancellationRequested);
      RefreshIs(Row(), now);
      ghost var derived := StatusOf(state, cancellationRequested);
      hide StatusOf, Refresh, Framed, Rows, Terminal;
      if states == {} {
        status := StatusPending;
        return;
      }
      if Failure in states {
        status := StatusFailed;
      } else if cancellationRequested && states <= {Success, Skipped, Stopped, Failure} {
        status := StatusCancelled;
      } else if states <= {Success, Skipped} {
        status := StatusSuccess;
      } else if Stopped in states && states !! {Pending, Enqueued, Running} {
        status := StatusCancelled;
      } else {
        status, finishedAt := StatusRunning, None;
        return;
      }
      assert status == derived && derived != StatusPending && derived != StatusRunning;
      FinishRow(previous, now);
    }

    /** The end of `_refresh_execution_status`, for a terminal status. */
    method FinishRow(previous: ExecutionStatus, now: Time)
      modifies this`finishedAt, this`outbox
      ensures Row() == old(Row()).(finishedAt := if old(finishedAt).None? then Some(now) else old(finishedAt),
                                   outbox := if previous != status then old(outbox) + [Finished(status)]
                                     else old(outbox))
    {
      if finishedAt.None? { finishedAt := Some(now); }
      if previous != status { outbox := outbox + [Finished(status)]; }
    }

    /** The cancelled branch of `enqueue_ready_tasks`: whatever is unfinished is cancelled, row by row. */
    method StopUnfinished()
      requires Rows(Row())
      modifies this`state
      ensures state == StopLive(old(state)) && Rows(Row()) && Swept(old(state), state)
    {
      SweepEffect(state);
      for i := 0 to |order|
        invariant StoppedSoFar(order, i, old(state), state)
      {
        StopOne(order, i, old(state), state);
        if Live(state[order[i]]) { state := state[order[i] := Stopped]; }
      }
      StopAll(Row(), old(state));
    }

    /** One row of the loop of `enqueue_ready_tasks`. */
    method EnqueueIfReady(item: Name, now: Time)
      requires Rows(Row()) && item in state
      modifies this`state, queue`jobs
      ensures Rows(Row()) && Snapshot() == EnqueueOne(old(Snapshot()), item, now, maxAttempts)
      ensures OneDecided(old(Snapshot()), item, Snapshot(), now, maxAttempts)
    {
      EnqueueOneEffect(Snapshot(), item, now, maxAttempts);
      if state[item] != Pending {
        return;
      }
      RowStays(Snapshot(), item, now, maxAttempts);
      hide Rows, Missing, SomeDep, Ready;
      if Missing(graph, state, item) {
        state := state[item := Failure];
      } else if SomeDep(graph, state, item, Failure) {
        state := state[item := Failure];
      } else if SomeDep(graph, state, item, Stopped) {
        state := state[item := Stopped];
      } else if Ready(graph, state, item) {
        state := state[item := Enqueued];
        var at := now + config[item].delaySeconds;
        var _ := queue.Enqueue(Job(tenant, workflow, id, item, config[item].priority, at, now, retries[item], 0,
                                   maxAttempts, false, Queued, None, None, None, None));
      }
    }

    /** `enqueue_ready_tasks` */
    method EnqueueReadyTasks(now: Time)
      requires Rows(Row())
      modifies this`state, this`status, this`finishedAt, this`outbox, queue`jobs
      ensures Rows(Row()) && Snapshot() == EnqueueReady(old(Snapshot()), now, maxAttempts)
      ensures Distinct(order) ==> PassedOn(old(Snapshot()), Snapshot(), now, maxAttempts)
    {
      hide PassedOn, Distinct, StatusOf, Refresh, Refreshed, Swept, StopLive, EnqueueOne, OneDecided, Framed;
      if Distinct(order) { EnqueueReadyEffect(Snapshot(), now, maxAttempts); }
      if cancellationRequested {
        StopUnfinished();
        RefreshExecutionStatus(now);
        return;
      }
      PassFrame(Snapshot());
      for i := 0 to |order|
        invariant Rows(Row()) && status == old(status) && finishedAt == old(finishedAt) && outbox == old(outbox)
        invariant Elements(order[i..]) <= Elements(order)
        invariant EnqueueAll(Snapshot(), order[i..], now, maxAttempts)
          == EnqueueAll(old(Snapshot()), order, now, maxAttempts)
      {
        PassSplit(Snapshot(), order, i, now, maxAttempts);
        EnqueueIfReady(order[i], now);
      }
      assert order[|order|..] == [];
      RefreshExecutionStatus(now);
    }

    // ---- a worker's run of a task ----

    /** `execute_task` up to the commit that marks the task running; answers whether the handler is to be run. */
    method StartTask(j: JobId, now: Time) returns (inside: bool)
      requires Rows(Row()) && OwnJob(Snapshot(), j)
      modifies this`state, this`status, this`finishedAt, this`outbox, queue`jobs
      ensures Snapshot() == Start(old(Snapshot()), j, now) && inside == Starts(old(Snapshot()), j)
      ensures StartedAs(old(Snapshot()), j, Snapshot(), inside, now)
    {
      StartEffect(Snapshot(), j, now);
      hide StartedAs, Refreshed;
      hide Refresh, Rows, Acknowledge;
      var item := queue.jobs[j].task;
      if Satisfied(state[item]) || state[item] == Failure || state[item] == Stopped {
        queue.Ack(j, now);
        return false;
      }
      if cancellationRequested {
        state := state[item := Stopped];
        queue.Ack(j, now);
        RefreshExecutionStatus(now);
        return false;
      }
      state := state[item := Running];
      return true;
    }

    /** The cancelled ends of `_run_task`. */
    method EndStopped(j: JobId, now: Time)
      requires Rows(Row()) && OwnJob(Snapshot(), j)
      modifies this`state, this`status, this`finishedAt, this`outbox, queue`jobs
      ensures Snapshot() == FinishStopped(old(Snapshot()), j, now) && StoppedEnd(old(Snapshot()), j, Snapshot(), now)
    {
      StopEffect(Snapshot(), j, now);
      hide StoppedEnd, Refreshed;
      hide Refresh, Rows, Acknowledge;
      state := state[queue.jobs[j].task := Stopped];
      queue.Ack(j, now);
      RefreshExecutionStatus(now);
    }

    /** The good end of `_run_task`, and what a tolerated failure does. */
    method EndWell(j: JobId, now: Time)
      requires Rows(Row()) && OwnJob(Snapshot(), j)
      modifies this`state, this`status, this`finishedAt, this`outbox, queue`jobs
      ensures Rows(Row()) && Snapshot() == Complete(old(Snapshot()), j, now, maxAttempts)
      ensures Distinct(order) ==> GoodEnd(old(Snapshot()), j, Snapshot(), now, maxAttempts)
    {
      hide GoodEnd, PassedOn, Refreshed, Distinct, Refresh, Acknowledge, EnqueueReady, Framed, OnlyRow;
      if Distinct(order) { CompleteEffect(Snapshot(), j, now, maxAttempts); }
      SetStateRows(Row(), queue.jobs[j].task, Success);
      hide Rows;
      state := state[queue.jobs[j].task := Success];
      queue.Ack(j, now);
      EnqueueReadyTasks(now);
      RefreshExecutionStatus(now);
    }

    /** The rest of `_run_task` once the handler has answered. */
    method FinishTask(j: JobId, ok: bool, now: Time)
      requires Rows(Row()) && OwnJob(Snapshot(), j)
      modifies this`state, this`retries, this`status, this`finishedAt, this`outbox, queue`jobs
      ensures Snapshot() == Finish(old(Snapshot()), j, ok, now, maxAttempts)
      ensures Distinct(order) ==> FinishedAs(old(Snapshot()), j, ok, Snapshot(), now, maxAttempts)
    {
      if Distinct(order) { FinishEffect(Snapshot(), j, ok, now, maxAttempts); }
      hide FinishedAs, GoodEnd, StoppedEnd, FailureHandled, Distinct;
      var item := queue.jobs[j].task;
      assert item in config && item in retries;
      hide Rows, Complete, FinishStopped, E.HandleFailure;
      if ok && retries[item] >= config[item].failFirstN {
        if cancellationRequested {
          EndStopped(j, now);
        } else {
          EndWell(j, now);
        }
      } else {
        HandleFailure(j, now);
      }
    }

    /** `_handle_failure` */
    method HandleFailure(j: JobId, now: Time)
      requires Rows(Row()) && OwnJob(Snapshot(), j)
      modifies this`state, this`retries, this`status, this`finishedAt, this`outbox, queue`jobs
      ensures Snapshot() == E.HandleFailure(old(Snapshot()), j, now, maxAttempts)
      ensures Distinct(order) ==> FailureHandled(old(Snapshot()), j, Snapshot(), now, maxAttempts)
    {
      if Distinct(order) { HandleFailureEffect(Snapshot(), j, now, maxAttempts); }
      hide FailureHandled, GoodEnd, RetriedEnd, BadEnd, Distinct;
      var item := queue.jobs[j].task;
      assert item in config && item in retries && item in state;
      hide Rows, Complete, Retry, Exhaust;
      if config[item].allowFailure {
        EndWell(j, now);
      } else if retries[item] + 1 <= config[item].maxRetries {
        QueueRetry(j, now);
      } else {
        EndFailed(j, now);
      }
    }

    /** A failed attempt with retries left: the next one is queued behind its backoff. */
    method QueueRetry(j: JobId, now: Time)
      requires Rows(Row()) && OwnJob(Snapshot(), j)
      modifies this`state, this`retries, queue`jobs
      ensures Snapshot() == Retry(old(Snapshot()), j, now, maxAttempts)
      ensures RetriedEnd(old(Snapshot()), j, Snapshot(), now, maxAttempts)
    {
      RetryEffect(Snapshot(), j, now, maxAttempts);
      hide RetriedEnd, OnlyRow, SameDefinitions, Fills;
      var item := queue.jobs[j].task;
      assert item in config && item in retries;
      ghost var cfg, k := config[item], retries[item] + 1;
      RetryIs(Snapshot(), j, now, maxAttempts);
      hide Rows, Acknowledge, Retry;
      retries := retries[item := retries[item] + 1];
      queue.Ack(j, now);
      state := state[item := Enqueued];
      var backoff := config[item].backoffSeconds * Power2(retries[item] - 1) as real;
      assert backoff == Backoff(cfg, k);
      hide Backoff, Power2;
      assert Row() == Retried(old(Row()), item);
      var _ := queue.Enqueue(Job(tenant, workflow, id, item, config[item].priority, now + backoff, now, retries[item],
                                 0, maxAttempts, false, Queued, None, None, None, None));
    }

    /** The last attempt has failed. */
    method EndFailed(j: JobId, now: Time)
      requires Rows(Row()) && OwnJob(Snapshot(), j)
      modifies this`state, this`retries, this`status, this`finishedAt, this`outbox, queue`jobs
      ensures Snapshot() == Exhaust(old(Snapshot()), j, now) && BadEnd(old(Snapshot()), j, Snapshot(), now)
    {
      ExhaustEffect(Snapshot(), j, now);
      hide BadEnd, FailedFor;
      var item := queue.jobs[j].task;
      ghost var ex1 := CountedFailure(Row(), item);
      ExhaustIs(Snapshot(), j, now);
      hide Rows, Acknowledge, FailTask, Exhaust, CountedFailure;
      CountFailure(item);
      queue.Ack(j, now);
      assert Row() == ex1 && item in state;
      FailForGood(item, now);
    }

    method CountFailure(item: Name)
      requires item in retries
      modifies this`retries
      ensures Row() == CountedFailure(old(Row()), item)
    {
      retries := retries[item := retries[item] + 1];
    }

    // ---- failure ----

    /** `_fail_downstream`: passes over the rows until one changes nothing. */
    method FailDownstreamTasks()
      requires graph.Keys == state.Keys == Elements(order)
      modifies this`state
      ensures state == FailDownstream(graph, old(state)) && Propagated(graph, old(state), state)
    {
      PropagationEffect(graph, state);
      hide Propagated;
      hide Doomed;
      var changed := true;
      while changed
        invariant Partly(graph, old(state), state)
        invariant !changed ==> forall n :: n in state && n in graph && state[n] == Pending ==>
          !SomeDep(graph, state, n, Failure)
        decreases |PendingOf(state)| + if changed then 1 else 0
      {
        changed := false;
        ghost var before := state;
        for i := 0 to |order|
          invariant Partly(graph, old(state), state) && PendingOf(state) <= PendingOf(before)
          invariant !changed ==> state == before && forall k :: 0 <= k < i && state[order[k]] == Pending ==>
            !SomeDep(graph, state, order[k], Failure)
          invariant changed ==> |PendingOf(state)| < |PendingOf(before)|
        {
          assert order[i] in Elements(order);
          if state[order[i]] == Pending && exists d | d in graph[order[i]] :: d in state && state[d] == Failure {
            PartlyMore(graph, old(state), state, order[i]);
            FewerLeft(state, order[i]);
            state := state[order[i] := Failure];
            changed := true;
          }
        }
        forall n | n in state && n in graph && state[n] == Pending && !changed
          ensures !SomeDep(graph, state, n, Failure) {
          assert n in Elements(order);
        }
      }
      PartlyDone(graph, old(state), state);
    }

    method FailForGood(item: Name, now: Time)
      requires Rows(Row()) && item in state
      modifies this`state, this`status, this`finishedAt, this`outbox
      ensures Row() == FailTask(old(Row()), item, now)
    {
      hide FailDownstream, Refresh, Refreshed, Propagated, StatusFits, ClosedUnderFailure;
      SetStateRows(Row(), item, Failure);
      state := state[item := Failure];
      assert graph.Keys == state.Keys == Elements(order) by { assert Rows(Row()); }
      hide Rows, Elements, Framed;
      FailDownstreamTasks();
      RefreshExecutionStatus(now);
    }

    /** `handle_dead_letter` */
    method HandleDeadLetter(item: Name, now: Time)
      requires Rows(Row())
      modifies this`state, this`status, this`finishedAt, this`outbox
      ensures Rows(Row()) && Row() == E.HandleDeadLetter(old(Row()), item, now)
      ensures LetterHandled(old(Row()), item, Row(), now)
    {
      HandleDeadLetterEffect(Row(), item, now);
      hide LetterHandled;
      hide FailTask;
      if item !in state || Satisfied(state[item]) || state[item] == Failure {
        return;
      }
      FailForGood(item, now);
    }

    // ---- the operator's calls ----

    /** The loop of `cancel_execution`: what has not started is cancelled, row by row. */
    method WithdrawTasks()
      requires Rows(Row())
      modifies this`state
      ensures state == CancelRows(old(Row())).state
    {
      for i := 0 to |order|
        invariant state.Keys == old(state).Keys
        invariant forall n :: n in state ==>
          state[n] == if n in order[..i] then Withdrawn(old(state)[n]) else old(state)[n]
      {
        assert order[i] in Elements(order);
        if state[order[i]] == Pending || state[order[i]] == Enqueued || state[order[i]] == Retrying {
          state := state[order[i] := Stopped];
        }
      }
      assert order[..|order|] == order;
      forall n | n in state ensures n in order { assert n in Elements(order); }
    }

    /** `cancel_execution` */
    method CancelExecution(now: Time)
      requires Rows(Row())
      modifies this`state, this`cancellationRequested, this`status, this`finishedAt, this`outbox, queue`jobs
      ensures Snapshot() == E.CancelExecution(old(Snapshot()), now) && CancelledAs(old(Snapshot()), Snapshot(), now)
    {
      CancelEffect(Snapshot(), now);
      hide CancelledAs, Refreshed;
      if Terminal(status) {
        return;
      }
      cancellationRequested := true;
      WithdrawTasks();
      hide Rows, Refresh, CancelExecutionJobs;
      queue.CancelJobsOf(id, now);
      RefreshExecutionStatus(now);
    }

    /** `skip_task`; refused while the task runs or once it is complete. */
    method SkipTask(item: Name, now: Time) returns (done: bool)
      requires Rows(Row())
      modifies this`state, this`status, this`finishedAt, this`outbox, queue`jobs
      ensures done == MaySkip(old(Row()), item)
      ensures Snapshot() == E.SkipTask(old(Snapshot()), item, now, maxAttempts)
      ensures done == Changeable(old(Row()), item)
      ensures Distinct(order) ==> SkippedAs(old(Snapshot()), item, Snapshot(), now, maxAttempts)
    {
      hide SkippedAs, PassedOn, Refreshed, Distinct, Rows, Refresh, CancelTaskJobs, EnqueueReady, Framed;
      if Distinct(order) { SkipEffect(Snapshot(), item, now, maxAttempts); }
      if item !in state || state[item] == Running || Satisfied(state[item]) {
        return false;
      }
      SetStateRows(Row(), item, Skipped);
      state := state[item := Skipped];
      queue.CancelQueuedJobsOf(id, item, now);
      EnqueueReadyTasks(now);
      RefreshExecutionStatus(now);
      return true;
    }

    /** `retry_task`; refused while the task runs or once it is complete. */
    method RetryTask(item: Name, now: Time) returns (done: bool)
      requires Rows(Row())
      modifies this`state, this`retries, this`cancellationRequested, this`status, this`finishedAt, this`outbox,
        queue`jobs
      ensures done == MayRetry(old(Row()), item)
      ensures Snapshot() == E.RetryTask(old(Snapshot()), item, now, maxAttempts)
      ensures done == Changeable(old(Row()), item)
      ensures Distinct(order) ==> RetriedAs(old(Snapshot()), item, Snapshot(), now, maxAttempts)
    {
      hide RetriedAs, PassedOn, Refreshed, Distinct, ResetBranch, EnqueueReady, Framed;
      if Distinct(order) { RetryTaskEffect(Snapshot(), item, now, maxAttempts); }
      if item !in state || state[item] == Running || Satisfied(state[item]) {
        return false;
      }
      ReviveBranch(item);
      EnqueueReadyTasks(now);
      return true;
    }

    /** `retry_task` up to its first commit. */
    method ReviveBranch(item: Name)
      requires Rows(Row())
      modifies this`state, this`retries, this`cancellationRequested, this`status, this`finishedAt
      ensures Rows(Row()) && Row() == ResetBranch(old(Row()), item)
    {
      var found := DownstreamNames(order, graph, item);
      ResetTasks(item, found + {item});
      cancellationRequested, status, finishedAt := false, StatusRunning, None;
      ResetIs(old(Row()), item, found, Row());
    }

    /** The loop of `retry_task` that makes a branch pending again. */
    method ResetTasks(item: Name, names: set<Name>)
      requires Rows(Row())
      modifies this`state, this`retries
      ensures Rows(Row())
      ensures state == (map m | m in old(state) :: if m in names && Resettable(old(state)[m]) then Pending
        else old(state)[m])
      ensures retries == (map m | m in old(retries) :: if m in names && Resettable(old(state)[m]) then 0
        else old(retries)[m])
    {
      for i := 0 to |order|
        invariant ResetSoFar(order, i, names, old(state), state, old(retries), retries)
      {
        ResetOne(order, i, names, old(state), state, old(retries), retries);
        hide ResetSoFar;
        if order[i] in names && Resettable(state[order[i]]) {
          state := state[order[i] := Pending];
          retries := retries[order[i] := 0];
        }
      }
      ResetAll(Row(), order, names, old(state), old(retries));
    }
  }

  /** The first `i` rows are reset where they are to be. */
  ghost predicate ResetSoFar(order: seq<Name>, i: nat, names: set<Name>, st0: States, st: States, retries0: map<Name,
                             nat>, retries: map<Name, nat>) {
    && i <= |order| && st.Keys == st0.Keys == Elements(order) == retries.Keys == retries0.Keys
    && (forall n :: n in st ==>
      st[n] == if n in order[..i] && n in names && Resettable(st0[n]) then Pending else st0[n])
    && (forall n :: n in retries ==>
      retries[n] == if n in order[..i] && n in names && Resettable(st0[n]) then 0 else retries0[n])
  }

  lemma ResetOne(order: seq<Name>, i: nat, names: set<Name>, st0: States, st: States, retries0: map<Name, nat>,
                 retries: map<Name, nat>)
    requires i < |order| && ResetSoFar(order, i, names, st0, st, retries0, retries)
    ensures order[i] in st
    ensures if order[i] in names && Resettable(st[order[i]])
      then ResetSoFar(order, i + 1, names, st0, st[order[i] := Pending], retries0, retries[order[i] := 0])
      else ResetSoFar(order, i + 1, names, st0, st, retries0, retries)
  {
    assert order[i] in Elements(order);
    assert order[..i + 1] == order[..i] + [order[i]];
    hide Elements;
  }

  lemma ResetAll(ex: Execution, order: seq<Name>, names: set<Name>, st0: States, retries0: map<Name, nat>)
    requires ResetSoFar(order, |order|, names, st0, ex.state, retries0, ex.retries) && ex.order == order
      && ex.graph.Keys == ex.config.Keys == Elements(order)
    ensures Rows(ex)
    ensures ex.state == map m | m in st0 :: if m in names && Resettable(st0[m]) then Pending else st0[m]
    ensures ex.retries == map m | m in retries0 :: if m in names && Resettable(st0[m]) then 0 else retries0[m]
  {
    assert order[..|order|] == order;
    forall n | n in st0 ensures n in order { assert n in Elements(order); }
    hide Elements, Resettable;
  }

  /** The row of a task that is tried again. */
  function Retried(ex: Execution, n: Name): Execution
    requires n in ex.retries
  {
    SetState(ex, n, Enqueued).(retries := ex.retries[n := ex.retries[n] + 1])
  }

  lemma RetryIs(db: Db, j: JobId, now: Time, maxAttempts: nat)
    requires Rows(db.ex) && OwnJob(db, j)
    ensures var n := db.jobs[j].task;
      && n in db.ex.retries && n in db.ex.config && n in Retried(db.ex, n).config && n in Retried(db.ex, n).retries
      && var at := now + Backoff(db.ex.config[n], db.ex.retries[n] + 1);
      Retry(db, j, now, maxAttempts)
        == Db(Retried(db.ex, n), Acknowledge(db.jobs, j, now) + [NewJob(Retried(db.ex, n), n, at, now, maxAttempts)])
  {
    hide Acknowledge, Backoff, NewJob;
  }

  /** Each failed attempt doubles the wait, starting from the configured one. */
  lemma BackoffDoubles(cfg: Config, k: nat)
    requires k >= 1
    ensures Backoff(cfg, 1) == cfg.backoffSeconds && Backoff(cfg, k + 1) == 2.0 * Backoff(cfg, k)
  {
    assert Power2(k) as real == 2.0 * Power2(k - 1) as real;
  }

  predicate Resettable(x: TaskState) { x == Failure || x == Stopped || x == Skipped || x == Pending }

  lemma ResetIs(ex: Execution, n: Name, found: set<Name>, ex': Execution)
    requires Rows(ex) && forall m :: m in found <==> Reaches(ex.graph, n, m)
    requires ex' == ex.(state := ex'.state, retries := ex'.retries, cancellationRequested := false,
      status := StatusRunning, finishedAt := None)
    requires ex'.state == map m | m in ex.state :: if m in found + {n}
      && Resettable(ex.state[m]) then Pending else ex.state[m]
    requires ex'.retries == map m | m in ex.retries :: if m in found + {n}
      && Resettable(ex.state[m]) then 0 else ex.retries[m]
    ensures ex' == ResetBranch(ex, n)
  {
    hide Reaches;
    var r := ResetBranch(ex, n);
    assert r.state == ex'.state;
    assert r.retries == ex'.retries;
  }

  /** The first `i` rows are cancelled where they were unfinished. */
  ghost predicate StoppedSoFar(order: seq<Name>, i: nat, st0: States, st: States) {
    && i <= |order| && st.Keys == st0.Keys == Elements(order)
    && forall n :: n in st ==> st[n] == if n in order[..i] && Live(st0[n]) then Stopped else st0[n]
  }

  lemma StopOne(order: seq<Name>, i: nat, st0: States, st: States)
    requires i < |order| && StoppedSoFar(order, i, st0, st)
    ensures order[i] in st
    ensures StoppedSoFar(order, i + 1, st0, if Live(st[order[i]]) then st[order[i] := Stopped] else st)
  {
    assert order[i] in Elements(order);
    assert order[..i + 1] == order[..i] + [order[i]];
    hide Elements;
  }

  lemma StopAll(ex: Execution, st0: States)
    requires StoppedSoFar(ex.order, |ex.order|, st0, ex.state)
      && ex.graph.Keys == ex.config.Keys == ex.retries.Keys == Elements(ex.order)
    ensures ex.state == StopLive(st0) && Rows(ex)
  {
    assert ex.order[..|ex.order|] == ex.order;
    forall n | n in st0 ensures n in ex.order { assert n in Elements(ex.order); }
    hide Elements;
  }

  lemma RefreshIs(ex: Execution, now: Time)
    ensures var s := StatusOf(ex.state, ex.cancellationRequested);
      Refresh(ex, now) ==
        if s == StatusPending then ex.(status := s)
        else if s == StatusRunning then ex.(status := s, finishedAt := None)
        else ex.(status := s, finishedAt := if ex.finishedAt.None? then Some(now) else ex.finishedAt,
                 outbox := if ex.status != s then ex.outbox + [Finished(s)] else ex.outbox)
  {
    hide StatusOf;
  }

  /** The set of states a map takes tells what the status asks of it. */
  lemma StatesAre(st: States, states: set<TaskState>, stop: bool)
    requires states == set n | n in st :: st[n]
    ensures states == {} <==> st == map[]
    ensures StatusOf(st, stop) ==
      if states == {} then StatusPending
      else if Failure in states then StatusFailed
      else if stop && states <= {Success, Skipped, Stopped, Failure} then StatusCancelled
      else if states <= {Success, Skipped} then StatusSuccess
      else if Stopped in states && states !! {Pending, Enqueued, Running} then StatusCancelled
      else StatusRunning
  {
    if st != map[] { var n :| n in st; assert st[n] in states; }
    forall x ensures x in states <==> Any(st, x) {}
    if states <= {Success, Skipped, Stopped, Failure} {
      forall n | n in st ensures Satisfied(st[n]) || st[n] == Stopped || st[n] == Failure { assert st[n] in states; }
    }
    if states <= {Success, Skipped} { forall n | n in st ensures Satisfied(st[n]) { assert st[n] in states; } }
    hide Any;
  }

  lemma RowStays(db: Db, n: Name, now: Time, maxAttempts: nat)
    requires Rows(db.ex) && n in db.ex.state
    ensures n in db.ex.graph && n in db.ex.config && n in db.ex.retries
      && db.ex.state[n := db.ex.state[n]] == db.ex.state
    ensures Rows(EnqueueOne(db, n, now, maxAttempts).ex)
  {
    hide Rule, FirstJob;
  }

  lemma PassFrame(db: Db)
    ensures db.ex.order[0..] == db.ex.order
  {
  }

  /** The pass handles its next row first. */
  lemma PassSplit(db: Db, order: seq<Name>, i: nat, now: Time, maxAttempts: nat)
    requires Rows(db.ex) && order == db.ex.order && i < |order| && Elements(order[i..]) <= Elements(order)
    ensures order[i] in db.ex.state && Elements(order[i + 1..]) <= Elements(order)
    ensures EnqueueAll(db, order[i..], now, maxAttempts)
      == EnqueueAll(EnqueueOne(db, order[i], now, maxAttempts), order[i + 1..], now, maxAttempts)
  {
    assert order[i] in Elements(order);
    assert order[i..][1..] == order[i + 1..];
    assert Elements(order[i + 1..]) <= Elements(order);
    hide EnqueueOne;
  }
}
