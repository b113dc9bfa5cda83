/** What every sequence of queue operations keeps. */
module QueueTrace {
  import opened Dag
  import opened QueueRecords

  /** One call of the queue. Its clock readings are arbitrary here. */
  datatype Op =
    | OpEnqueue(job: Job)
    | OpClaim(j: JobId, worker: WorkerId, now: Time)
    | OpRenew(j: JobId, worker: WorkerId, now: Time)
    | OpAcknowledge(j: JobId, now: Time)
    | OpCancelExecution(execution: ExecutionId, now: Time)
    | OpCancelTask(execution: ExecutionId, task: Name, now: Time)
    | OpRequeueStale(now: Time)
    | OpReplay(tenant: TenantId, j: JobId, now: Time)
    | OpResolve(tenant: TenantId, j: JobId, now: Time)

  /** A row as `enqueue` inserts it. */
  predicate NewRow(job: Job) { Untaken(job) && job.maxAttempts >= 1 }

  predicate Possible(jobs: Jobs, op: Op) {
    match op
    case OpEnqueue(job) => NewRow(job)
    case OpClaim(j, _, _) => j < |jobs|
    case OpRenew(j, _, _) => j < |jobs|
    case OpAcknowledge(j, _) => j < |jobs|
    case OpReplay(_, j, _) => j < |jobs|
    case OpResolve(_, j, _) => j < |jobs|
    case _ => true
  }

  function After(jobs: Jobs, op: Op, lease: Time): Jobs
    requires Possible(jobs, op)
  {
    match op
    case OpEnqueue(job) => jobs + [job]
    case OpClaim(j, worker, now) => Claim(jobs, j, worker, now, lease)
    case OpRenew(j, worker, now) => Renew(jobs, j, worker, now, lease)
    case OpAcknowledge(j, now) => Acknowledge(jobs, j, now)
    case OpCancelExecution(execution, now) => CancelExecutionJobs(jobs, execution, now)
    case OpCancelTask(execution, task, now) => CancelTaskJobs(jobs, execution, task, now)
    case OpRequeueStale(now) => RequeueStale(jobs, now)
    case OpReplay(tenant, j, now) => Replay(jobs, tenant, j, now)
    case OpResolve(tenant, j, now) => Resolve(jobs, tenant, j, now)
  }

  // ---- the record invariant ----

  predicate RecordOk(job: Job) {
    && (job.leaseExpiresAt.Some? <==> job.state == Leased)
    && (job.completedAt.Some? <==> job.state == Completed || job.state == Cancelled || job.state == Failed)
    && (job.state == Failed ==> job.deadLettered)
    && (job.deadLettered ==> job.state == Failed || job.state == Completed)
    && (job.state == Queued ==> job.attempts < job.maxAttempts)
    && (job.state == Leased ==> 1 <= job.attempts <= job.maxAttempts && job.leasedBy.Some?)
    && job.attempts <= job.maxAttempts && 1 <= job.maxAttempts
  }

  ghost predicate RecordsOk(jobs: Jobs) { forall j :: 0 <= j < |jobs| ==> RecordOk(jobs[j]) }

  /** Every operation keeps every record in order, whatever its arguments. */
  lemma OpKeepsRecords(jobs: Jobs, op: Op, lease: Time)
    requires RecordsOk(jobs) && Possible(jobs, op)
    ensures RecordsOk(After(jobs, op, lease)) && |jobs| <= |After(jobs, op, lease)|
  {
    var jobs' := After(jobs, op, lease);
    forall j | 0 <= j < |jobs'| ensures RecordOk(jobs'[j]) {
      if j < |jobs| { assert RecordOk(jobs[j]); }
    }
  }

  /** A run of the queue from an empty table. */
  ghost predicate Trace(tables: seq<Jobs>, ops: seq<Op>, lease: Time) {
    && |tables| == |ops| + 1 && tables[0] == []
    && forall i :: 0 <= i < |ops| ==> Follows(tables[i], ops[i], tables[i + 1], lease)
  }

  ghost predicate Follows(jobs: Jobs, op: Op, jobs': Jobs, lease: Time) {
    Possible(jobs, op) && jobs' == After(jobs, op, lease)
  }

  lemma {:induction false} TraceKeepsRecords(tables: seq<Jobs>, ops: seq<Op>, lease: Time, i: nat)
    requires Trace(tables, ops, lease) && i < |tables|
    ensures RecordsOk(tables[i])
  {
    if i > 0 {
      TraceKeepsRecords(tables, ops, lease, i - 1);
      hide After, RecordsOk;
      assert Follows(tables[i - 1], ops[i - 1], tables[i], lease);
      OpKeepsRecords(tables[i - 1], ops[i - 1], lease);
    }
  }

  // ---- attempts count claims ----

  /** The operation claims job `j`. */
  predicate Claims(jobs: Jobs, op: Op, j: JobId) {
    op.OpClaim? && op.j == j && j < |jobs| && jobs[j].state == Queued
  }

  /** The operation brings a dead-lettered job back with a clean slate. */
  predicate Replays(jobs: Jobs, op: Op, j: JobId) {
    op.OpReplay? && op.j == j && j < |jobs| && jobs[j].tenant == op.tenant && jobs[j].deadLettered
  }

  /** How often job `j` was claimed before step `i`, since it was enqueued or last replayed. */
  function ClaimsSince(tables: seq<Jobs>, ops: seq<Op>, j: JobId, i: nat): nat
    requires |tables| == |ops| + 1 && i < |tables|
  {
    if i == 0 || j >= |tables[i - 1]| then 0
    else if Replays(tables[i - 1], ops[i - 1], j) then 0
    else ClaimsSince(tables, ops, j, i - 1) + if Claims(tables[i - 1], ops[i - 1], j) then 1 else 0
  }

  lemma OpCountsAttempts(jobs: Jobs, op: Op, lease: Time, j: JobId)
    requires Possible(jobs, op) && j < |After(jobs, op, lease)|
    ensures var job' := After(jobs, op, lease)[j];
      job'.attempts == if j >= |jobs| || Replays(jobs, op, j) then 0
        else jobs[j].attempts + if Claims(jobs, op, j) then 1 else 0
  {
  }

  /** The attempts a row records are exactly the claims since it was enqueued or replayed, so a job is claimed at most
      `max_attempts` times before somebody replays it. */
  lemma {:induction false} AttemptsCountClaims(tables: seq<Jobs>, ops: seq<Op>, lease: Time, i: nat, j: JobId)
    requires Trace(tables, ops, lease) && i < |tables| && j < |tables[i]|
    ensures tables[i][j].attempts == ClaimsSince(tables, ops, j, i) <= tables[i][j].maxAttempts
  {
    TraceKeepsRecords(tables, ops, lease, i);
    assert RecordOk(tables[i][j]);
    assert Follows(tables[i - 1], ops[i - 1], tables[i], lease);
    hide RecordsOk, After, Claims, Replays;
    OpCountsAttempts(tables[i - 1], ops[i - 1], lease, j);
    if j < |tables[i - 1]| { AttemptsCountClaims(tables, ops, lease, i - 1, j); }
  }

  // ---- one claim per stay in the queue ----

  /** The operation puts a claimed or finished job back in the queue: an expired lease, or a replay. */
  predicate Returns(jobs: Jobs, op: Op, j: JobId) {
    j < |jobs| && ((op.OpRequeueStale? && Expired(jobs[j], op.now)) || Replays(jobs, op, j))
  }

  lemma OnlyReturnsQueue(jobs: Jobs, op: Op, lease: Time, j: JobId)
    requires Possible(jobs, op) && j < |jobs| && jobs[j].state != Queued && !Returns(jobs, op, j)
    ensures j < |After(jobs, op, lease)| && After(jobs, op, lease)[j].state != Queued
  {
  }

  lemma {:induction false} StaysOut(tables: seq<Jobs>, ops: seq<Op>, lease: Time, i: nat, k: nat, j: JobId)
    requires Trace(tables, ops, lease) && i <= k < |tables| && j < |tables[i]| && tables[i][j].state != Queued
    requires forall m :: i <= m < k ==> !Returns(tables[m], ops[m], j)
    ensures j < |tables[k]| && tables[k][j].state != Queued
  {
    if i < k {
      StaysOut(tables, ops, lease, i, k - 1, j);
      hide After;
      assert Follows(tables[k - 1], ops[k - 1], tables[k], lease);
      OnlyReturnsQueue(tables[k - 1], ops[k - 1], lease, j);
    }
  }

  lemma ClaimLeases(jobs: Jobs, op: Op, lease: Time, j: JobId)
    requires Possible(jobs, op) && Claims(jobs, op, j)
    ensures j < |After(jobs, op, lease)| && After(jobs, op, lease)[j].state == Leased
  {
  }

  /** Of the workers that try to take the same job, one wins: between two successful claims of a job its lease has
      expired, or it was replayed. */
  lemma OneClaimPerStay(tables: seq<Jobs>, ops: seq<Op>, lease: Time, i: nat, k: nat, j: JobId)
    requires Trace(tables, ops, lease) && i < k < |ops| && Claims(tables[i], ops[i], j) && Claims(tables[k], ops[k], j)
    ensures exists m :: i < m < k && Returns(tables[m], ops[m], j)
  {
    hide After, Returns;
    assert Follows(tables[i], ops[i], tables[i + 1], lease);
    ClaimLeases(tables[i], ops[i], lease, j);
    if forall m :: i < m < k ==> !Returns(tables[m], ops[m], j) {
      StaysOut(tables, ops, lease, i + 1, k, j);
    }
  }

  // ---- a flag that is not what it seems ----

  /** Exactly the failed jobs are flagged as dead-lettered. */
  ghost predicate FlagFits(jobs: Jobs) {
    forall j :: 0 <= j < |jobs| ==> (jobs[j].deadLettered <==> jobs[j].state == Failed)
  }

  /** The operation acknowledges a job that was given up before. */
  predicate LateAck(jobs: Jobs, op: Op) {
    op.OpAcknowledge? && op.j < |jobs| && jobs[op.j].state == Failed
  }

  lemma OpKeepsRowFlag(jobs: Jobs, op: Op, lease: Time, j: JobId)
    requires Possible(jobs, op) && RecordsOk(jobs) && FlagFits(jobs) && j < |After(jobs, op, lease)|
    ensures var job := After(jobs, op, lease)[j];
      (job.deadLettered <==> job.state == Failed) <==> !(LateAck(jobs, op) && op.j == j)
  {
    if j < |jobs| { assert RecordOk(jobs[j]); }
  }

  /** One operation breaks the correspondence exactly if it acknowledges a job that was given up before. */
  lemma OpKeepsFlag(jobs: Jobs, op: Op, lease: Time)
    requires Possible(jobs, op) && RecordsOk(jobs) && FlagFits(jobs)
    ensures FlagFits(After(jobs, op, lease)) <==> !LateAck(jobs, op)
  {
    OpKeepsRecords(jobs, op, lease);
    forall j: JobId | j < |After(jobs, op, lease)|
      ensures var job := After(jobs, op, lease)[j];
        (job.deadLettered <==> job.state == Failed) <==> !(LateAck(jobs, op) && op.j == j)
    {
      OpKeepsRowFlag(jobs, op, lease, j);
    }
    hide After, RecordsOk;
  }

  /** Along a whole trace: the flag means failed in every table if and only if no given-up job is ever acknowledged. */
  lemma {:induction false} FlagFitsExactly(tables: seq<Jobs>, ops: seq<Op>, lease: Time, n: nat)
    requires Trace(tables, ops, lease) && n < |tables|
    ensures (forall i :: 0 <= i <= n ==> FlagFits(tables[i])) <==> (forall i :: 0 <= i < n ==>
      !LateAck(tables[i], ops[i]))
  {
    if n > 0 {
      FlagFitsExactly(tables, ops, lease, n - 1);
      TraceKeepsRecords(tables, ops, lease, n - 1);
      hide After, RecordsOk, FlagFits, LateAck, Possible;
      assert Follows(tables[n - 1], ops[n - 1], tables[n], lease);
      if FlagFits(tables[n - 1]) { OpKeepsFlag(tables[n - 1], ops[n - 1], lease); }
    }
  }

  /** It happens: a late acknowledgement leaves a completed job flagged as dead-lettered. */
  lemma LateAcknowledgement(job: Job, worker: WorkerId, lease: Time)
    requires NewRow(job) && job.maxAttempts == 1 && lease > 0.0
    ensures var ops := [OpEnqueue(job), OpClaim(0, worker, 0.0), OpRequeueStale(lease + 1.0), OpAcknowledge(0, lease
      + 2.0)];
      exists tables: seq<Jobs> ::
        Trace(tables, ops, lease) && |tables[4]| == 1 && tables[4][0].state == Completed && tables[4][0].deadLettered
  {
    var ops := [OpEnqueue(job), OpClaim(0, worker, 0.0), OpRequeueStale(lease + 1.0), OpAcknowledge(0, lease + 2.0)];
    var a := [job];
    var b := After(a, ops[1], lease);
    var d := After(b, ops[2], lease);
    var e := After(d, ops[3], lease);
    var tables := [[], a, b, d, e];
    assert After([], ops[0], lease) == a;
    assert Poisoned(b[0], lease + 1.0);
    forall i | 0 <= i < |ops| ensures Follows(tables[i], ops[i], tables[i + 1], lease) {}
    assert Trace(tables, ops, lease);
  }
}
