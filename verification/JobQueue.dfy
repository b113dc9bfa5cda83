/** `backend/queue/job_queue.py`: which job a claim selects, and the queue itself. */
module JobQueue {
  import opened Dag
  import opened QueueRecords
  import opened QueueTrace

  datatype QueueSettings = QueueSettings(
    leaseSeconds: Time,
    maxPerWorkflow: nat,     // max_concurrent_tasks_per_workflow
    agingSeconds: Time)

  // ---- the claim's select statement ----

  function LeasedFor(jobs: Jobs, workflow: WorkflowId): set<JobId> {
    set j: JobId | j < |jobs| && jobs[j].state == Leased && jobs[j].workflow == workflow
  }

  /** The `where` clause: queued, due, and below the workflow's limit. */
  predicate Eligible(q: QueueSettings, jobs: Jobs, now: Time, j: JobId) {
    && j < |jobs| && jobs[j].state == Queued && jobs[j].availableAt <= now
    && |LeasedFor(jobs, jobs[j].workflow)| < q.maxPerWorkflow
  }

  predicate Aged(q: QueueSettings, job: Job, now: Time) { job.availableAt <= now - q.agingSeconds }

  /** The `order by` clause: aged jobs first, then by priority, then the longest available, then the oldest row. */
  predicate Before(q: QueueSettings, now: Time, a: Job, b: Job) {
    if Aged(q, a, now) != Aged(q, b, now) then Aged(q, a, now)
    else if a.priority != b.priority then a.priority > b.priority
    else if a.availableAt != b.availableAt then a.availableAt < b.availableAt
    else a.createdAt < b.createdAt
  }

  /** The row the statement may return; rows locked by other transactions are skipped. */
  predicate Selected(q: QueueSettings, jobs: Jobs, now: Time, locked: set<JobId>, j: JobId) {
    && Eligible(q, jobs, now, j) && j !in locked
    && forall k: JobId | k < |jobs| :: Eligible(q, jobs, now, k) && k !in locked ==> !Before(q, now, jobs[k], jobs[j])
  }

  /** `Before` is a strict weak order: asymmetric, and every job is comparable with what lies between two others. */
  lemma BeforeOrders(q: QueueSettings, now: Time, a: Job, b: Job, c: Job)
    ensures !(Before(q, now, a, b) && Before(q, now, b, a))
    ensures Before(q, now, a, c) ==> Before(q, now, a, b) || Before(q, now, b, c)
  {
  }

  lemma {:induction false} SelectedAmong(q: QueueSettings, jobs: Jobs, now: Time, candidates: set<JobId>)
    returns (j: JobId)
    requires candidates != {} && forall k :: k in candidates ==> k < |jobs|
    ensures j in candidates && forall k :: k in candidates ==> !Before(q, now, jobs[k], jobs[j])
    decreases candidates
  {
    var first :| first in candidates;
    if candidates == {first} {
      j := first;
      BeforeOrders(q, now, jobs[j], jobs[j], jobs[j]);
    } else {
      var best := SelectedAmong(q, jobs, now, candidates - {first});
      j := if Before(q, now, jobs[first], jobs[best]) then first else best;
      hide Before;
      BeforeOrders(q, now, jobs[first], jobs[best], jobs[first]);
      forall k | k in candidates ensures !Before(q, now, jobs[k], jobs[j]) {
        BeforeOrders(q, now, jobs[k], jobs[j], jobs[best]);
        BeforeOrders(q, now, jobs[j], jobs[k], jobs[j]);
        BeforeOrders(q, now, jobs[k], jobs[first], jobs[best]);
        BeforeOrders(q, now, jobs[first], jobs[first], jobs[first]);
      }
    }
  }

  /** The statement returns a row exactly when some unlocked job is eligible. */
  lemma SelectFindsEligible(q: QueueSettings, jobs: Jobs, now: Time, locked: set<JobId>)
    ensures (exists j: JobId :: Selected(q, jobs, now, locked, j)) <==>
      (exists j: JobId :: Eligible(q, jobs, now, j) && j !in locked)
  {
    hide Eligible, Before;
    var candidates := set j: JobId | j < |jobs| && Eligible(q, jobs, now, j) && j !in locked;
    if j: JobId :| Eligible(q, jobs, now, j) && j !in locked {
      assert j < |jobs| by { EligibleInTable(q, jobs, now, j); }
      assert j in candidates;
      var best := SelectedAmong(q, jobs, now, candidates);
      assert Selected(q, jobs, now, locked, best);
    }
  }

  lemma EligibleInTable(q: QueueSettings, jobs: Jobs, now: Time, j: JobId)
    requires Eligible(q, jobs, now, j)
    ensures j < |jobs|
  {
  }

  // ---- what a claim takes, column by column ----

  /** A worker may have the job: it is queued and due, and its workflow is below its limit. */
  predicate Claimable(q: QueueSettings, jobs: Jobs, now: Time, j: JobId) {
    && j < |jobs| && jobs[j].state == Queued && jobs[j].availableAt <= now
    && |set k: JobId | k < |jobs| && jobs[k].state == Leased && jobs[k].workflow == jobs[j].workflow|
         < q.maxPerWorkflow
  }

  /** Waiting since before the aging window. */
  predicate WaitedLong(q: QueueSettings, job: Job, now: Time) { now - job.availableAt >= q.agingSeconds }

  /** `a` does not come after `b`: it has waited long or `b` has not; among equals its priority is at least as high,
      then it has been available at least as long, then its row is at least as old. */
  predicate InLine(q: QueueSettings, now: Time, a: Job, b: Job) {
    && (WaitedLong(q, b, now) ==> WaitedLong(q, a, now))
    && ((WaitedLong(q, a, now) <==> WaitedLong(q, b, now)) ==>
         && a.priority >= b.priority
         && (a.priority == b.priority ==> a.availableAt <= b.availableAt)
         && (a.priority == b.priority && a.availableAt == b.availableAt ==> a.createdAt <= b.createdAt))
  }

  /** Nothing unlocked that a worker may have comes before the job. */
  predicate FirstInLine(q: QueueSettings, jobs: Jobs, now: Time, locked: set<JobId>, j: JobId) {
    && Claimable(q, jobs, now, j) && j !in locked
    && forall k: JobId | k < |jobs| :: Claimable(q, jobs, now, k) && k !in locked ==> InLine(q, now, jobs[j], jobs[k])
  }

  lemma EligibleMeans(q: QueueSettings, jobs: Jobs, now: Time, j: JobId)
    ensures Eligible(q, jobs, now, j) <==> Claimable(q, jobs, now, j)
  {
    if j < |jobs| {
      assert LeasedFor(jobs, jobs[j].workflow)
        == set k: JobId | k < |jobs| && jobs[k].state == Leased && jobs[k].workflow == jobs[j].workflow;
    }
  }

  /** The select returns a job exactly if it is first in line. */
  lemma SelectedMeans(q: QueueSettings, jobs: Jobs, now: Time, locked: set<JobId>, j: JobId)
    ensures Selected(q, jobs, now, locked, j) <==> FirstInLine(q, jobs, now, locked, j)
  {
    forall k: JobId ensures Eligible(q, jobs, now, k) <==> Claimable(q, jobs, now, k) {
      EligibleMeans(q, jobs, now, k);
    }
    forall a: Job, b: Job ensures Before(q, now, a, b) <==> !InLine(q, now, b, a) {}
    hide Eligible, Claimable, Before, InLine;
  }

  /** The row is leased to the worker for the lease's length, and one attempt is counted. */
  predicate LeasedTo(job: Job, job': Job, worker: WorkerId, now: Time, lease: Time) {
    && job'.state == Leased && job'.leasedBy == Some(worker) && job'.leasedAt == Some(now)
    && job'.leaseExpiresAt == Some(now + lease) && job'.attempts == job.attempts + 1
    && job' == job.(state := job'.state, leasedBy := job'.leasedBy, leasedAt := job'.leasedAt,
                    leaseExpiresAt := job'.leaseExpiresAt, attempts := job'.attempts)
  }

  /** No other row changes. */
  predicate OnlyRow(jobs: Jobs, jobs': Jobs, j: JobId) {
    |jobs'| == |jobs| && forall k | 0 <= k < |jobs| :: k != j ==> jobs'[k] == jobs[k]
  }

  /** The row's lease has run out. */
  predicate RanOut(job: Job, now: Time) {
    match job.leaseExpiresAt
    case Some(at) => job.state == Leased && at < now
    case None => false
  }

  /** What the lease reaper makes of a row: back to the queue, or given up if no attempt is left. */
  predicate ReapedTo(job: Job, job': Job, now: Time) {
    if !RanOut(job, now) then job' == job
    else if job.attempts < job.maxAttempts then
      job' == job.(state := Queued, leasedBy := None, leasedAt := None, leaseExpiresAt := None)
    else job' == job.(state := Failed, deadLettered := true, completedAt := Some(now), leaseExpiresAt := None)
  }

  // ---- the queue ----

  class DatabaseJobQueue {
    const settings: QueueSettings
    var jobs: Jobs
    var deadLetterBuffer: seq<JobId>

    /** The method has done what the operation of a trace does. */
    ghost predicate Does(jobs: Jobs, op: Op, jobs': Jobs) { Follows(jobs, op, jobs', settings.leaseSeconds) }

    constructor (settings: QueueSettings)
      ensures this.settings == settings && jobs == [] && deadLetterBuffer == []
    {
      this.settings := settings;
      jobs := [];
      deadLetterBuffer := [];
    }

    method Enqueue(job: Job) returns (j: JobId)
      modifies this`jobs
      ensures jobs == old(jobs) + [job] && j == |old(jobs)|
      ensures NewRow(job) ==> Does(old(jobs), OpEnqueue(job), jobs)
    {
      j := |jobs|;
      jobs := jobs + [job];
    }

    /** `_claim_next_available`: select, then update if the row is still queued, in one transaction. */
    method ClaimNextAvailable(worker: WorkerId, now: Time, locked: set<JobId>) returns (claimed: Option<JobId>)
      modifies this`jobs
      ensures claimed.Some? ==> Selected(settings, old(jobs), now, locked, claimed.value)
      ensures claimed.Some? ==> jobs == Claim(old(jobs), claimed.value, worker, now, settings.leaseSeconds)
      ensures claimed.Some? ==> Does(old(jobs), OpClaim(claimed.value, worker, now), jobs)
      ensures claimed.None? ==> jobs == old(jobs) && forall j: JobId :: Eligible(settings, jobs, now, j) ==> j in locked
      ensures claimed.Some? ==> FirstInLine(settings, old(jobs), now, locked, claimed.value)
      ensures claimed.Some? ==> OnlyRow(old(jobs), jobs, claimed.value)
      ensures claimed.Some? ==>
        LeasedTo(old(jobs)[claimed.value], jobs[claimed.value], worker, now, settings.leaseSeconds)
      ensures claimed.None? ==> forall j: JobId :: Claimable(settings, jobs, now, j) ==> j in locked
    {
      claimed := None;
      SelectFindsEligible(settings, jobs, now, locked);
      forall j: JobId ensures Eligible(settings, jobs, now, j) <==> Claimable(settings, jobs, now, j) {
        EligibleMeans(settings, jobs, now, j);
      }
      if exists j: JobId | j < |jobs| :: Selected(settings, jobs, now, locked, j) {
        var j: JobId :| j < |jobs| && Selected(settings, jobs, now, locked, j);
        SelectedMeans(settings, jobs, now, locked, j);
        hide Before, Aged, FirstInLine, Claimable;
        if jobs[j].state == Queued {
          jobs := jobs[j := jobs[j].(state := Leased, leasedBy := Some(worker), leasedAt := Some(now),
                                     leaseExpiresAt := Some(now + settings.leaseSeconds),
                                     attempts := jobs[j].attempts + 1)];
          claimed := Some(j);
        }
      }
    }

    method RenewLease(j: JobId, worker: WorkerId, now: Time) returns (renewed: bool)
      modifies this`jobs
      ensures j < |old(jobs)| ==> jobs == Renew(old(jobs), j, worker, now, settings.leaseSeconds)
      ensures j >= |old(jobs)| ==> jobs == old(jobs)
      ensures renewed <==> j < |old(jobs)| && old(jobs)[j].state == Leased && old(jobs)[j].leasedBy == Some(worker)
      ensures renewed ==> OnlyRow(old(jobs), jobs, j)
      ensures renewed ==> jobs[j] == old(jobs)[j].(leaseExpiresAt := Some(now + settings.leaseSeconds))
      ensures !renewed ==> jobs == old(jobs)
      ensures j < |old(jobs)| ==> Does(old(jobs), OpRenew(j, worker, now), jobs)
    {
      renewed := j < |jobs| && jobs[j].state == Leased && jobs[j].leasedBy == Some(worker);
      if renewed {
        jobs := jobs[j := jobs[j].(leaseExpiresAt := Some(now + settings.leaseSeconds))];
      }
    }

    method Ack(j: JobId, now: Time)
      requires j < |jobs|
      modifies this`jobs
      ensures Does(old(jobs), OpAcknowledge(j, now), jobs)
      ensures jobs == Acknowledge(old(jobs), j, now) && OnlyRow(old(jobs), jobs, j)
      ensures jobs[j] == if old(jobs)[j].state == Cancelled then old(jobs)[j]
        else old(jobs)[j].(state := Completed, completedAt := Some(now), leasedBy := None, leasedAt := None,
                           leaseExpiresAt := None)
    {
      if jobs[j].state != Cancelled {
        jobs := jobs[j := jobs[j].(state := Completed, completedAt := Some(now), leasedBy := None, leasedAt := None,
                                   leaseExpiresAt := None)];
      }
    }

    method CancelJobsOf(execution: ExecutionId, now: Time)
      modifies this`jobs
      ensures jobs == CancelExecutionJobs(old(jobs), execution, now)
      ensures Does(old(jobs), OpCancelExecution(execution, now), jobs)
      ensures |jobs| == |old(jobs)| && forall k :: 0 <= k < |jobs| ==> var was := old(jobs)[k];
        jobs[k] == if was.execution == execution && was.state in {Queued, Leased}
          then was.(state := Cancelled, completedAt := Some(now), leaseExpiresAt := None) else was
    {
      jobs := seq(|jobs|, i requires 0 <= i < |jobs| reads this =>
        if jobs[i].execution == execution && (jobs[i].state == Queued || jobs[i].state == Leased)
        then jobs[i].(state := Cancelled, completedAt := Some(now), leaseExpiresAt := None) else jobs[i]);
    }

    method CancelQueuedJobsOf(execution: ExecutionId, task: Name, now: Time)
      modifies this`jobs
      ensures jobs == CancelTaskJobs(old(jobs), execution, task, now)
      ensures Does(old(jobs), OpCancelTask(execution, task, now), jobs)
      ensures |jobs| == |old(jobs)| && forall k :: 0 <= k < |jobs| ==> var was := old(jobs)[k];
        jobs[k] == if was.execution == execution && was.task == task && was.state == Queued
          then was.(state := Cancelled, completedAt := Some(now)) else was
    {
      jobs := seq(|jobs|, i requires 0 <= i < |jobs| reads this =>
        if jobs[i].execution == execution && jobs[i].task == task && jobs[i].state == Queued
        then jobs[i].(state := Cancelled, completedAt := Some(now)) else jobs[i]);
    }

    /** `requeue_stale_jobs`: every expired lease is returned to the queue, or given up after the last attempt. */
    method RequeueStaleJobs(now: Time) returns (letters: seq<JobId>)
      modifies this`jobs, this`deadLetterBuffer
      ensures jobs == RequeueStale(old(jobs), now) && Does(old(jobs), OpRequeueStale(now), jobs)
      ensures Distinct(letters) && forall j: JobId :: j in letters <==> j in DeadLetters(old(jobs), now)
      ensures deadLetterBuffer == old(deadLetterBuffer) + letters
      ensures |jobs| == |old(jobs)| && forall k :: 0 <= k < |jobs| ==> ReapedTo(old(jobs)[k], jobs[k], now)
      ensures forall k: JobId :: k in letters <==>
        k < |jobs| && RanOut(old(jobs)[k], now) && old(jobs)[k].attempts >= old(jobs)[k].maxAttempts
    {
      letters := [];
      ghost var was := jobs;
      for i := 0 to |jobs|
        invariant |jobs| == |was| && deadLetterBuffer == old(deadLetterBuffer)
        invariant forall k :: 0 <= k < i ==> jobs[k] == Reaped(was[k], now)
        invariant forall k :: i <= k < |jobs| ==> jobs[k] == was[k]
        invariant Distinct(letters) && forall j: JobId :: j in letters <==> j < i && Poisoned(was[j], now)
      {
        if jobs[i].state == Leased && jobs[i].leaseExpiresAt.Some? && jobs[i].leaseExpiresAt.value < now {
          if jobs[i].attempts >= jobs[i].maxAttempts {
            jobs := jobs[i := jobs[i].(state := Failed, deadLettered := true, completedAt := Some(now),
                                       leaseExpiresAt := None)];
            letters := letters + [i];
          } else {
            jobs := jobs[i := jobs[i].(state := Queued, leasedBy := None, leasedAt := None, leaseExpiresAt := None)];
          }
        }
      }
      deadLetterBuffer := deadLetterBuffer + letters;
    }

    method DrainDeadLetters() returns (items: seq<JobId>)
      modifies this`deadLetterBuffer
      ensures items == old(deadLetterBuffer) && deadLetterBuffer == []
    {
      items := deadLetterBuffer;
      deadLetterBuffer := [];
    }

    method ReplayDeadLetter(tenant: TenantId, j: JobId, now: Time) returns (found: bool)
      modifies this`jobs
      ensures found <==> j < |old(jobs)| && old(jobs)[j].tenant == tenant && old(jobs)[j].deadLettered
      ensures j < |old(jobs)| ==> jobs == Replay(old(jobs), tenant, j, now)
      ensures j < |old(jobs)| ==> Does(old(jobs), OpReplay(tenant, j, now), jobs)
      ensures !found ==> jobs == old(jobs)
      ensures found ==> OnlyRow(old(jobs), jobs, j)
      ensures found ==> jobs[j] == old(jobs)[j].(state := Queued, deadLettered := false, attempts := 0,
                                                 availableAt := now, completedAt := None)
    {
      found := j < |jobs| && jobs[j].tenant == tenant && jobs[j].deadLettered;
      if found {
        jobs := jobs[j := jobs[j].(state := Queued, deadLettered := false, attempts := 0, availableAt := now,
                                   completedAt := None)];
      }
    }

    method ResolveDeadLetter(tenant: TenantId, j: JobId, now: Time) returns (found: bool)
      modifies this`jobs
      ensures found <==> j < |old(jobs)| && old(jobs)[j].tenant == tenant && old(jobs)[j].deadLettered
      ensures j < |old(jobs)| ==> jobs == Resolve(old(jobs), tenant, j, now)
      ensures j < |old(jobs)| ==> Does(old(jobs), OpResolve(tenant, j, now), jobs)
      ensures !found ==> jobs == old(jobs)
      ensures found ==> OnlyRow(old(jobs), jobs, j)
      ensures found ==> jobs[j] == old(jobs)[j].(state := Completed, deadLettered := false, completedAt := Some(now))
    {
      found := j < |jobs| && jobs[j].tenant == tenant && jobs[j].deadLettered;
      if found {
        jobs := jobs[j := jobs[j].(state := Completed, deadLettered := false, completedAt := Some(now))];
      }
    }
  }
}
