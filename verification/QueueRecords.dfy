/** The `queue_jobs` table of `backend/queue/job_queue.py` and what each of its
    SQL statements does to it. The table only grows, so a job's identifier is its
    position; clock readings are parameters. */
module QueueRecords {
  import opened Dag

  type Time = real
  type JobId = nat
  type WorkerId = nat
  type ExecutionId = nat
  type WorkflowId = nat
  type TenantId = nat

  datatype Option<+T> = None | Some(value: T)

  datatype JobState = Queued | Leased | Completed | Cancelled | Failed

  datatype Job = Job(
    tenant: TenantId,
    workflow: WorkflowId,
    execution: ExecutionId,
    task: Name,
    priority: int,
    availableAt: Time,
    createdAt: Time,
    retryCount: nat,
    attempts: nat,
    maxAttempts: nat,
    deadLettered: bool,
    state: JobState,
    leasedBy: Option<WorkerId>,
    leasedAt: Option<Time>,
    leaseExpiresAt: Option<Time>,
    completedAt: Option<Time>)

  type Jobs = seq<Job>

  // ---- one row ----

  function Claimed(job: Job, worker: WorkerId, now: Time, lease: Time): Job {
    job.(state := Leased, leasedBy := Some(worker), leasedAt := Some(now),
         leaseExpiresAt := Some(now + lease), attempts := job.attempts + 1)
  }

  function Acknowledged(job: Job, now: Time): Job {
    if job.state == Cancelled then job
    else job.(state := Completed, completedAt := Some(now), leasedBy := None, leasedAt := None, leaseExpiresAt := None)
  }

  predicate Active(job: Job) {
    job.state == Queued || job.state == Leased
  }

  predicate Expired(job: Job, now: Time) {
    job.state == Leased && job.leaseExpiresAt.Some? && job.leaseExpiresAt.value < now
  }

  /** The last permitted attempt was lost: the reaper gives the job up. */
  predicate Poisoned(job: Job, now: Time) {
    Expired(job, now) && job.attempts >= job.maxAttempts
  }

  function Reaped(job: Job, now: Time): Job {
    if !Expired(job, now) then job
    else if job.attempts >= job.maxAttempts then
      job.(state := Failed, deadLettered := true, completedAt := Some(now), leaseExpiresAt := None)
    else
      job.(state := Queued, leasedBy := None, leasedAt := None, leaseExpiresAt := None)
  }

  function CancelledWith(job: Job, execution: ExecutionId, now: Time): Job {
    if job.execution == execution && Active(job)
    then job.(state := Cancelled, completedAt := Some(now), leaseExpiresAt := None)
    else job
  }

  function CancelledFor(job: Job, execution: ExecutionId, task: Name, now: Time): Job {
    if job.execution == execution && job.task == task && job.state == Queued
    then job.(state := Cancelled, completedAt := Some(now))
    else job
  }

  /** Nobody has claimed the job yet. */
  predicate Untaken(job: Job) {
    && job.state == Queued && job.attempts == 0 && !job.deadLettered
    && job.leaseExpiresAt.None? && job.completedAt.None? && job.leasedBy.None? && job.leasedAt.None?
  }

  // ---- the statements ----

  /** The conditional update of a claim: it takes the job only if it is still queued. */
  function Claim(jobs: Jobs, j: JobId, worker: WorkerId, now: Time, lease: Time): Jobs
    requires j < |jobs|
  {
    if jobs[j].state == Queued then jobs[j := Claimed(jobs[j], worker, now, lease)] else jobs
  }

  function Renew(jobs: Jobs, j: JobId, worker: WorkerId, now: Time, lease: Time): Jobs
    requires j < |jobs|
  {
    if jobs[j].state == Leased && jobs[j].leasedBy == Some(worker)
    then jobs[j := jobs[j].(leaseExpiresAt := Some(now + lease))]
    else jobs
  }

  function Acknowledge(jobs: Jobs, j: JobId, now: Time): Jobs
    requires j < |jobs|
  {
    jobs[j := Acknowledged(jobs[j], now)]
  }

  function RequeueStale(jobs: Jobs, now: Time): Jobs {
    seq(|jobs|, i requires 0 <= i < |jobs| => Reaped(jobs[i], now))
  }

  function DeadLetters(jobs: Jobs, now: Time): set<JobId> {
    set i: JobId | i < |jobs| && Poisoned(jobs[i], now)
  }

  function CancelExecutionJobs(jobs: Jobs, execution: ExecutionId, now: Time): Jobs {
    seq(|jobs|, i requires 0 <= i < |jobs| => CancelledWith(jobs[i], execution, now))
  }

  function CancelTaskJobs(jobs: Jobs, execution: ExecutionId, task: Name, now: Time): Jobs {
    seq(|jobs|, i requires 0 <= i < |jobs| => CancelledFor(jobs[i], execution, task, now))
  }

  function Replay(jobs: Jobs, tenant: TenantId, j: JobId, now: Time): Jobs
    requires j < |jobs|
  {
    if jobs[j].tenant == tenant && jobs[j].deadLettered
    then jobs[j := jobs[j].(state := Queued, deadLettered := false, attempts := 0, availableAt := now,
                            completedAt := None)]
    else jobs
  }

  function Resolve(jobs: Jobs, tenant: TenantId, j: JobId, now: Time): Jobs
    requires j < |jobs|
  {
    if jobs[j].tenant == tenant && jobs[j].deadLettered
    then jobs[j := jobs[j].(state := Completed, deadLettered := false, completedAt := Some(now))]
    else jobs
  }
}
