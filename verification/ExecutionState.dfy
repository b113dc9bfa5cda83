/** The `executions` and `execution_tasks` rows of one execution, and what each
    transaction of `backend/services/execution_service.py` does to them. */
module ExecutionState {
  import opened Dag
  import opened Tasks
  import opened QueueRecords

  datatype TaskState = Pending | Enqueued | Running | Retrying | Success | Failure | Stopped | Skipped

  datatype ExecutionStatus = StatusPending | StatusRunning | StatusSuccess | StatusFailed | StatusCancelled

  datatype Event = Started | Finished(status: ExecutionStatus)

  type States = map<Name, TaskState>

  datatype Execution = Execution(
    id: ExecutionId,
    tenant: TenantId,
    workflow: WorkflowId,
    order: seq<Name>,            // the rows in the order they are listed
    graph: Graph,
    config: map<Name, Config>,
    state: States,
    retries: map<Name, nat>,
    cancellationRequested: bool,
    status: ExecutionStatus,
    finishedAt: Option<Time>,
    outbox: seq<Event>)

  /** The database as far as one execution is concerned. */
  datatype Db = Db(ex: Execution, jobs: Jobs)

  predicate Satisfied(s: TaskState) { s == Success || s == Skipped }

  predicate Live(s: TaskState) { s == Pending || s == Enqueued || s == Running || s == Retrying }

  predicate Terminal(status: ExecutionStatus) {
    status == StatusSuccess || status == StatusFailed || status == StatusCancelled
  }

  /** What no transaction but a cancellation or a retry touches. */
  predicate Framed(ex: Execution, ex': Execution) {
    SameDefinitions(ex, ex') && ex'.cancellationRequested == ex.cancellationRequested
  }

  /** The task rows' definitions are fixed when the execution is created. */
  predicate SameDefinitions(ex: Execution, ex': Execution) {
    ex'.id == ex.id && ex'.tenant == ex.tenant && ex'.workflow == ex.workflow
    && ex'.order == ex.order && ex'.graph == ex.graph && ex'.config == ex.config
  }

  // ---- execution status ----

  predicate Any(st: States, s: TaskState) { exists n | n in st :: st[n] == s }

  /** The status that a set of task states and the cancel flag stand for. */
  function StatusOf(st: States, cancellationRequested: bool): ExecutionStatus {
    if st == map[] then StatusPending
    else if Any(st, Failure) then StatusFailed
    else if cancellationRequested && forall n | n in st :: Satisfied(st[n]) || st[n] == Stopped || st[n] == Failure
      then StatusCancelled
    else if forall n | n in st :: Satisfied(st[n]) then StatusSuccess
    else if Any(st, Stopped) && !Any(st, Pending) && !Any(st, Enqueued) && !Any(st, Running) then StatusCancelled
    else StatusRunning
  }

  /** `_refresh_execution_status` */
  function Refresh(ex: Execution, now: Time): (r: Execution)
    ensures Framed(ex, r) && r.state == ex.state && r.retries == ex.retries
    ensures Rows(ex) ==> Rows(r)
  {
    var status := StatusOf(ex.state, ex.cancellationRequested);
    if status == StatusPending then ex.(status := status)
    else if status == StatusRunning then ex.(status := status, finishedAt := None)
    else ex.(status := status,
             finishedAt := if ex.finishedAt.Some? then ex.finishedAt else Some(now),
             outbox := if ex.status != status then ex.outbox + [Finished(status)] else ex.outbox)
  }

  // ---- readiness ----

  predicate Missing(g: Graph, st: States, n: Name) requires n in g { exists d | d in g[n] :: d !in st }

  predicate SomeDep(g: Graph, st: States, n: Name, s: TaskState) requires n in g {
    exists d | d in g[n] :: d in st && st[d] == s
  }

  /** All dependencies of `n` are present and satisfied. */
  predicate Ready(g: Graph, st: States, n: Name) requires n in g {
    forall d | d in g[n] :: d in st && Satisfied(st[d])
  }

  /** What `enqueue_ready_tasks` makes of a pending task. */
  function Rule(g: Graph, st: States, n: Name): TaskState requires n in g {
    if Missing(g, st, n) then Failure
    else if SomeDep(g, st, n, Failure) then Failure
    else if SomeDep(g, st, n, Stopped) then Stopped
    else if Ready(g, st, n) then Enqueued
    else Pending
  }

  /** The queue record of a task that becomes ready. */
  function FirstJob(ex: Execution, n: Name, now: Time, maxAttempts: nat): Job
    requires n in ex.config && n in ex.retries
  {
    NewJob(ex, n, now + ex.config[n].delaySeconds, now, maxAttempts)
  }

  function NewJob(ex: Execution, n: Name, availableAt: Time, now: Time, maxAttempts: nat): Job
    requires n in ex.config && n in ex.retries
  {
    Job(ex.tenant, ex.workflow, ex.id, n, ex.config[n].priority, availableAt, now, ex.retries[n],
        0, maxAttempts, false, Queued, None, None, None, None)
  }

  predicate Rows(ex: Execution) {
    ex.graph.Keys == ex.config.Keys == ex.state.Keys == ex.retries.Keys == Elements(ex.order)
  }

  /** One iteration of the loop of `enqueue_ready_tasks`. */
  function EnqueueOne(db: Db, n: Name, now: Time, maxAttempts: nat): Db
    requires Rows(db.ex) && n in db.ex.state
  {
    if db.ex.state[n] != Pending then db
    else
      var s := Rule(db.ex.graph, db.ex.state, n);
      Db(db.ex.(state := db.ex.state[n := s]),
         if s == Enqueued then db.jobs + [FirstJob(db.ex, n, now, maxAttempts)] else db.jobs)
  }

  function EnqueueAll(db: Db, names: seq<Name>, now: Time, maxAttempts: nat): (r: Db)
    requires Rows(db.ex) && Elements(names) <= Elements(db.ex.order)
    ensures Rows(r.ex) && Framed(db.ex, r.ex)
    decreases |names|
  {
    if names == [] then db
    else
      assert names[0] in Elements(names);
      assert Elements(names[1..]) <= Elements(names);
      EnqueueAll(EnqueueOne(db, names[0], now, maxAttempts), names[1..], now, maxAttempts)
  }

  function StopLive(st: States): States {
    map n | n in st :: if Live(st[n]) then Stopped else st[n]
  }

  /** `enqueue_ready_tasks` */
  function EnqueueReady(db: Db, now: Time, maxAttempts: nat): (r: Db)
    requires Rows(db.ex)
    ensures Rows(r.ex) && Framed(db.ex, r.ex)
  {
    if db.ex.cancellationRequested then
      Db(Refresh(db.ex.(state := StopLive(db.ex.state)), now), db.jobs)
    else
      var all := EnqueueAll(db, db.ex.order, now, maxAttempts);
      Db(Refresh(all.ex, now), all.jobs)
  }

  // ---- failure propagation ----

  /** A chain of pending tasks links `n` to a failed one. */
  ghost predicate Doomed(g: Graph, st: States, n: Name) {
    exists p: seq<Name> :: DoomPath(g, st, p) && p[|p| - 1] == n
  }

  ghost predicate DoomPath(g: Graph, st: States, p: seq<Name>) {
    && |p| >= 2 && IsPath(g, p)
    && p[0] in st && st[p[0]] == Failure
    && forall i :: 1 <= i < |p| ==> p[i] in st && st[p[i]] == Pending
  }

  /** `_fail_downstream` */
  ghost function FailDownstream(g: Graph, st: States): States {
    map n | n in st :: if Doomed(g, st, n) then Failure else st[n]
  }

  // ---- the transactions of a worker ----

  function SetState(ex: Execution, n: Name, s: TaskState): Execution {
    ex.(state := ex.state[n := s])
  }

  predicate OwnJob(db: Db, j: JobId) {
    j < |db.jobs| && db.jobs[j].task in db.ex.state
  }

  /** `execute_task` up to the commit that marks the task running. */
  function Start(db: Db, j: JobId, now: Time): (r: Db)
    requires Rows(db.ex) && OwnJob(db, j)
    ensures Rows(r.ex) && Framed(db.ex, r.ex)
  {
    var n := db.jobs[j].task;
    if Satisfied(db.ex.state[n]) || db.ex.state[n] == Failure || db.ex.state[n] == Stopped then
      db.(jobs := Acknowledge(db.jobs, j, now))
    else if db.ex.cancellationRequested then
      Db(Refresh(SetState(db.ex, n, Stopped), now), Acknowledge(db.jobs, j, now))
    else
      db.(ex := SetState(db.ex, n, Running))
  }

  /** Whether `execute_task` goes on to run the handler. */
  predicate Starts(db: Db, j: JobId)
    requires OwnJob(db, j)
  {
    var s := db.ex.state[db.jobs[j].task];
    !Satisfied(s) && s != Failure && s != Stopped && !db.ex.cancellationRequested
  }

  /** The cancelled ends of `_run_task`. */
  function FinishStopped(db: Db, j: JobId, now: Time): (r: Db)
    requires Rows(db.ex) && OwnJob(db, j)
    ensures Rows(r.ex) && Framed(db.ex, r.ex)
  {
    Db(Refresh(SetState(db.ex, db.jobs[j].task, Stopped), now), Acknowledge(db.jobs, j, now))
  }

  /** A task ends well: `_run_task` after the handler returned, or a tolerated failure. */
  function Complete(db: Db, j: JobId, now: Time, maxAttempts: nat): (r: Db)
    requires Rows(db.ex) && OwnJob(db, j)
    ensures Rows(r.ex) && Framed(db.ex, r.ex)
  {
    hide Refresh, StatusOf, Acknowledge;
    var done := Db(SetState(db.ex, db.jobs[j].task, Success), Acknowledge(db.jobs, j, now));
    var next := EnqueueReady(done, now, maxAttempts);
    next.(ex := Refresh(next.ex, now))
  }

  function FinishOk(db: Db, j: JobId, now: Time, maxAttempts: nat): (r: Db)
    requires Rows(db.ex) && OwnJob(db, j)
    ensures Rows(r.ex) && Framed(db.ex, r.ex)
  {
    if db.ex.cancellationRequested then FinishStopped(db, j, now) else Complete(db, j, now, maxAttempts)
  }

  function Power2(k: nat): nat { if k == 0 then 1 else 2 * Power2(k - 1) }

  /** How long the next attempt waits after the k-th failed one. */
  function Backoff(cfg: Config, k: nat): Time
    requires k >= 1
  {
    cfg.backoffSeconds * Power2(k - 1) as real
  }

  /** `_handle_failure` while retries are left. */
  function Retry(db: Db, j: JobId, now: Time, maxAttempts: nat): (r: Db)
    requires Rows(db.ex) && OwnJob(db, j)
    ensures Rows(r.ex) && Framed(db.ex, r.ex)
  {
    var n := db.jobs[j].task;
    var k := db.ex.retries[n] + 1;
    var ex := SetState(db.ex, n, Enqueued).(retries := db.ex.retries[n := k]);
    Db(ex, Acknowledge(db.jobs, j, now) + [NewJob(ex, n, now + Backoff(db.ex.config[n], k), now, maxAttempts)])
  }

  /** The task is failed for good; its pending descendants fail with it. */
  ghost function FailTask(ex: Execution, n: Name, now: Time): (r: Execution)
    ensures Framed(ex, r)
    ensures n in ex.state ==> r.state.Keys == ex.state.Keys && r.retries == ex.retries
  {
    hide Refresh, StatusOf, Doomed;
    var failed := SetState(ex, n, Failure);
    Refresh(failed.(state := FailDownstream(ex.graph, failed.state)), now)
  }

  /** One more failed attempt is on the task's record. */
  function CountedFailure(ex: Execution, n: Name): (r: Execution)
    requires n in ex.retries
    ensures r == ex.(retries := r.retries) && (Rows(ex) ==> Rows(r))
  {
    ex.(retries := ex.retries[n := ex.retries[n] + 1])
  }

  /** `_handle_failure` once the retries are used up. */
  ghost function Exhaust(db: Db, j: JobId, now: Time): (r: Db)
    requires Rows(db.ex) && OwnJob(db, j)
    ensures Rows(r.ex) && Framed(db.ex, r.ex)
  {
    var n := db.jobs[j].task;
    Db(FailTask(CountedFailure(db.ex, n), n, now), Acknowledge(db.jobs, j, now))
  }

  /** `_handle_failure` */
  ghost function HandleFailure(db: Db, j: JobId, now: Time, maxAttempts: nat): (r: Db)
    requires Rows(db.ex) && OwnJob(db, j)
    ensures Rows(r.ex) && Framed(db.ex, r.ex)
  {
    var n := db.jobs[j].task;
    if db.ex.config[n].allowFailure then Complete(db, j, now, maxAttempts)
    else if db.ex.retries[n] + 1 <= db.ex.config[n].maxRetries then Retry(db, j, now, maxAttempts)
    else Exhaust(db, j, now)
  }

  /** The rest of `_run_task`, once the handler has answered. */
  ghost function Finish(db: Db, j: JobId, ok: bool, now: Time, maxAttempts: nat): (r: Db)
    requires Rows(db.ex) && OwnJob(db, j)
    ensures Rows(r.ex) && Framed(db.ex, r.ex)
  {
    if Succeeds(db.ex, db.jobs[j].task, ok) then FinishOk(db, j, now, maxAttempts)
    else HandleFailure(db, j, now, maxAttempts)
  }

  /** The first `fail_first_n` attempts fail whatever the handler would answer. */
  predicate Succeeds(ex: Execution, n: Name, ok: bool)
    requires n in ex.config && n in ex.retries
  {
    ok && ex.retries[n] >= ex.config[n].failFirstN
  }

  /** `handle_dead_letter` */
  ghost function HandleDeadLetter(ex: Execution, n: Name, now: Time): (r: Execution)
    ensures Framed(ex, r) && (Rows(ex) ==> Rows(r))
  {
    if n !in ex.state || Satisfied(ex.state[n]) || ex.state[n] == Failure then ex
    else FailTask(ex, n, now)
  }

  // ---- the transactions of an operator ----

  /** What a cancellation makes of a task's state. */
  function Withdrawn(x: TaskState): TaskState {
    if x == Pending || x == Enqueued || x == Retrying then Stopped else x
  }

  /** `cancel_execution` */
  function CancelExecution(db: Db, now: Time): (r: Db)
    ensures SameDefinitions(db.ex, r.ex) && (Rows(db.ex) ==> Rows(r.ex))
    ensures db.ex.cancellationRequested ==> r.ex.cancellationRequested
  {
    if Terminal(db.ex.status) then db
    else
      var state := map n | n in db.ex.state :: Withdrawn(db.ex.state[n]);
      Db(Refresh(db.ex.(cancellationRequested := true, state := state), now),
         CancelExecutionJobs(db.jobs, db.ex.id, now))
  }

  predicate MaySkip(ex: Execution, n: Name) {
    n in ex.state && ex.state[n] != Running && !Satisfied(ex.state[n])
  }

  /** `skip_task` */
  function SkipTask(db: Db, n: Name, now: Time, maxAttempts: nat): (r: Db)
    requires Rows(db.ex)
    ensures Rows(r.ex) && Framed(db.ex, r.ex)
  {
    hide Refresh, StatusOf, CancelTaskJobs;
    if !MaySkip(db.ex, n) then db
    else
      var next := EnqueueReady(Db(SetState(db.ex, n, Skipped), CancelTaskJobs(db.jobs, db.ex.id, n, now)), now,
                               maxAttempts);
      next.(ex := Refresh(next.ex, now))
  }

  predicate MayRetry(ex: Execution, n: Name) {
    n in ex.state && ex.state[n] != Running && !Satisfied(ex.state[n])
  }

  /** The part of `retry_task` before its first commit. */
  ghost function ResetBranch(ex: Execution, n: Name): Execution {
    var reset := set m | m in ex.state && (m == n || Reaches(ex.graph, n, m))
      && (ex.state[m] == Failure || ex.state[m] == Stopped || ex.state[m] == Skipped || ex.state[m] == Pending);
    ex.(state := map m | m in ex.state :: if m in reset then Pending else ex.state[m],
        retries := map m | m in ex.retries :: if m in reset then 0 else ex.retries[m],
        cancellationRequested := false,
        status := StatusRunning,
        finishedAt := None)
  }

  /** `retry_task` */
  ghost function RetryTask(db: Db, n: Name, now: Time, maxAttempts: nat): Db
    requires Rows(db.ex)
  {
    if !MayRetry(db.ex, n) then db
    else EnqueueReady(db.(ex := ResetBranch(db.ex, n)), now, maxAttempts)
  }

  // ---- creation ----

  function InitialRows(id: ExecutionId, tenant: TenantId, workflow: WorkflowId, doc: Document): Execution {
    var names := NamesOf(doc);
    Execution(id, tenant, workflow, seq(|doc|, i requires 0 <= i < |doc| => doc[i].name), GraphOf(doc), ConfigOf(doc),
              map n | n in names :: Pending, map n | n in names :: 0, false, StatusRunning, None, [Started])
  }

  function ConfigOf(doc: Document): map<Name, Config> {
    if doc == [] then map[]
    else ConfigOf(doc[..|doc| - 1])[doc[|doc| - 1].name := doc[|doc| - 1].config]
  }
}
