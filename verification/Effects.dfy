/** What the calls of `backend/services/execution_service.py` leave in the columns, said without the functions that
    compute it. */
module Effects {
  import opened Dag
  import opened Tasks
  import opened Q = QueueRecords
  import opened E = ExecutionState
  import opened Readiness
  import opened EngineCore

  // ---- the status ----

  predicate AllAre(st: States, xs: set<TaskState>) { forall n | n in st :: st[n] in xs }

  predicate NoneIs(st: States, xs: set<TaskState>) { forall n | n in st :: st[n] !in xs }

  /** Which status goes with which task states. */
  predicate StatusFits(status: ExecutionStatus, st: States, cancelled: bool) {
    && (status == StatusPending <==> st == map[])
    && (status == StatusFailed <==> !NoneIs(st, {Failure}))
    && (status == StatusSuccess <==> st != map[] && AllAre(st, {Success, Skipped}) && !cancelled)
    && (status == StatusCancelled <==> st != map[] && NoneIs(st, {Failure}) && LooksCancelled(st, cancelled))
  }

  predicate LooksCancelled(st: States, cancelled: bool) {
    || (cancelled && AllAre(st, {Success, Skipped, Stopped}))
    || (!NoneIs(st, {Stopped}) && NoneIs(st, {Pending, Enqueued, Running}))
  }

  lemma StatusMeans(st: States, cancelled: bool)
    ensures StatusFits(StatusOf(st, cancelled), st, cancelled)
  {
    if st != map[] { var n :| n in st; assert st[n] == st[n]; }
  }

  /** The status fits, and the moment of the end and its event go with it. */
  predicate Refreshed(ex: Execution, r: Execution, now: Time) {
    && r == ex.(status := r.status, finishedAt := r.finishedAt, outbox := r.outbox)
    && StatusFits(r.status, ex.state, ex.cancellationRequested)
    && (r.status == StatusPending ==> r.finishedAt == ex.finishedAt && r.outbox == ex.outbox)
    && (r.status == StatusRunning ==> r.finishedAt == None && r.outbox == ex.outbox)
    && (r.status in {StatusSuccess, StatusFailed, StatusCancelled} ==>
         && r.finishedAt == (if ex.finishedAt == None then Some(now) else ex.finishedAt)
         && r.outbox == (if ex.status == r.status then ex.outbox else ex.outbox + [Finished(r.status)]))
  }

  lemma RefreshEffect(ex: Execution, now: Time)
    ensures Refreshed(ex, Refresh(ex, now), now)
  {
    StatusMeans(ex.state, ex.cancellationRequested);
    hide StatusOf, StatusFits;
  }

  // ---- a pass ----

  /** The state in which a pass sees task `d` when it comes to row `i`: rows further up are already decided. */
  function Seen(order: seq<Name>, st: States, st': States, i: nat, d: Name): TaskState
    requires i <= |order| && d in st && d in st'
  {
    if d in order[..i] then st'[d] else st[d]
  }

  /** A dependency of row `i` has been seen in that state. */
  predicate SeesDep(g: Graph, order: seq<Name>, st: States, st': States, i: nat, x: TaskState)
    requires i < |order| && order[i] in g
  {
    exists d | d in g[order[i]] :: d in st && d in st' && Seen(order, st, st', i, d) == x
  }

  /** What a pass makes of row `i`. */
  predicate DecidedAt(g: Graph, order: seq<Name>, st: States, st': States, i: nat)
    requires i < |order| && order[i] in g
  {
    var n := order[i];
    && n in st && n in st'
    && (st[n] != Pending ==> st'[n] == st[n])
    && (st[n] == Pending ==>
         var failed := (exists d | d in g[n] :: d !in st) || SeesDep(g, order, st, st', i, Failure);
         && (st'[n] == Failure <==> failed)
         && (st'[n] == Stopped <==> !failed && SeesDep(g, order, st, st', i, Stopped))
         && (st'[n] == Enqueued <==> forall d | d in g[n] :: d in st && st[d] in {Success, Skipped})
         && st'[n] in {Failure, Stopped, Enqueued, Pending})
  }

  /** The columns of a fresh job for task `n`. */
  predicate Fills(job: Job, ex: Execution, n: Name, availableAt: Time, now: Time, retries: nat, maxAttempts: nat) {
    && job.tenant == ex.tenant && job.workflow == ex.workflow && job.execution == ex.id && job.task == n
    && n in ex.config && job.priority == ex.config[n].priority
    && job.availableAt == availableAt && job.createdAt == now && job.retryCount == retries
    && job.attempts == 0 && job.maxAttempts == maxAttempts && !job.deadLettered && job.state == Queued
    && job.leasedBy == None && job.leasedAt == None && job.leaseExpiresAt == None && job.completedAt == None
  }

  predicate NewlyQueued(st: States, st': States, n: Name) {
    n in st && n in st' && st[n] == Pending && st'[n] == Enqueued
  }

  /** The `k`-th job of the table is the first job of a newly queued task, and waits for the task's delay. */
  predicate FirstOf(db: Db, r: Db, k: JobId, now: Time, maxAttempts: nat) {
    && k < |r.jobs|
    && var n := r.jobs[k].task;
    && NewlyQueued(db.ex.state, r.ex.state, n) && n in db.ex.config && n in db.ex.retries
    && Fills(r.jobs[k], db.ex, n, now + db.ex.config[n].delaySeconds, now, db.ex.retries[n], maxAttempts)
  }

  /** The table has grown by one job for each newly queued task. */
  ghost predicate Queues(db: Db, r: Db, now: Time, maxAttempts: nat) {
    && |db.jobs| <= |r.jobs| && r.jobs[..|db.jobs|] == db.jobs
    && (forall k: JobId :: |db.jobs| <= k < |r.jobs| ==> FirstOf(db, r, k, now, maxAttempts))
    && (forall n :: NewlyQueued(db.ex.state, r.ex.state, n) ==>
         exists k: JobId :: |db.jobs| <= k < |r.jobs| && r.jobs[k].task == n)
    && (forall k, l :: |db.jobs| <= k < l < |r.jobs| ==> r.jobs[k].task != r.jobs[l].task)
  }

  /** Every row is decided in list order. */
  ghost predicate DecidedInOrder(g: Graph, order: seq<Name>, st: States, st': States) {
    && st'.Keys == st.Keys
    && forall i: nat :: i < |order| ==> order[i] in g && DecidedAt(g, order, st, st', i)
  }

  /** Everything unfinished is cancelled. */
  predicate Swept(st: States, st': States) {
    && st'.Keys == st.Keys
    && forall n | n in st :: st'[n] == if st[n] in {Pending, Enqueued, Running, Retrying} then Stopped else st[n]
  }

  /** What `enqueue_ready_tasks` makes of the rows and the table. */
  ghost predicate PassedOn(db: Db, r: Db, now: Time, maxAttempts: nat) {
    && Refreshed(db.ex.(state := r.ex.state), r.ex, now)
    && if db.ex.cancellationRequested then r.jobs == db.jobs && Swept(db.ex.state, r.ex.state)
       else DecidedInOrder(db.ex.graph, db.ex.order, db.ex.state, r.ex.state) && Queues(db, r, now, maxAttempts)
  }

  /** One row of the pass on its own: the task is decided and, if it is queued, gets its first job. */
  predicate OneDecided(db: Db, n: Name, r: Db, now: Time, maxAttempts: nat)
    requires Rows(db.ex) && n in db.ex.state
  {
    && n in db.ex.graph && r.ex == db.ex.(state := r.ex.state) && r.ex.state.Keys == db.ex.state.Keys
    && DecidedAt(db.ex.graph, [n], db.ex.state, r.ex.state, 0)
    && (forall m | m in db.ex.state :: m != n ==> r.ex.state[m] == db.ex.state[m])
    && if NewlyQueued(db.ex.state, r.ex.state, n)
       then |r.jobs| == |db.jobs| + 1 && r.jobs[..|db.jobs|] == db.jobs && r.jobs[|db.jobs|].task == n
         && FirstOf(db, r, |db.jobs|, now, maxAttempts)
       else r.jobs == db.jobs
  }

  // ---- failure ----

  /** The set holds the failed tasks and every pending task that depends on a member. */
  ghost predicate ClosedUnderFailure(g: Graph, st: States, s: set<Name>) {
    && (forall n :: n in st && st[n] == Failure ==> n in s)
    && (forall n, d :: n in g && n in st && st[n] == Pending && d in g[n] && d in s ==> n in s)
  }

  /** Pending tasks that wait for a failed one have failed, and no more of them than necessary. */
  ghost predicate Propagated(g: Graph, st: States, st': States) {
    && st'.Keys == st.Keys
    && (forall n :: n in st ==> st'[n] == st[n] || (st[n] == Pending && st'[n] == Failure))
    && (forall n, d :: n in g && n in st && d in g[n] && d in st && st'[d] == Failure ==> st'[n] != Pending)
    && (forall s: set<Name>, n :: ClosedUnderFailure(g, st, s) && n in st && st'[n] == Failure ==> n in s)
  }

  /** Task `n` has failed for good. */
  ghost predicate FailedFor(ex: Execution, n: Name, r: Execution, now: Time)
    requires n in ex.state
  {
    Propagated(ex.graph, ex.state[n := Failure], r.state) && Refreshed(ex.(state := r.state), r, now)
  }

  /** What `handle_dead_letter` makes of the rows. */
  ghost predicate LetterHandled(ex: Execution, n: Name, r: Execution, now: Time) {
    if n in ex.state && ex.state[n] in {Pending, Enqueued, Running, Retrying, Stopped} then FailedFor(ex, n, r, now)
    else r == ex
  }

  // ---- a worker's transactions ----

  /** What `execute_task` makes of the rows and the table, and whether the handler is to run. */
  predicate StartedAs(db: Db, j: JobId, r: Db, inside: bool, now: Time)
    requires OwnJob(db, j)
  {
    var n := db.jobs[j].task;
    if db.ex.state[n] in {Success, Skipped, Failure, Stopped} then
      !inside && r == Db(db.ex, Acknowledge(db.jobs, j, now))
    else if db.ex.cancellationRequested then !inside && StoppedEnd(db, j, r, now)
    else inside && r == Db(db.ex.(state := db.ex.state[n := Running]), db.jobs)
  }

  /** The attempt counts as cancelled. */
  predicate StoppedEnd(db: Db, j: JobId, r: Db, now: Time)
    requires OwnJob(db, j)
  {
    && Refreshed(db.ex.(state := db.ex.state[db.jobs[j].task := Stopped]), r.ex, now)
    && r.jobs == Acknowledge(db.jobs, j, now)
  }

  /** The task has succeeded, and a pass has followed. */
  ghost predicate GoodEnd(db: Db, j: JobId, r: Db, now: Time, maxAttempts: nat)
    requires OwnJob(db, j)
  {
    var ex := db.ex.(state := db.ex.state[db.jobs[j].task := Success]);
    PassedOn(Db(ex, Acknowledge(db.jobs, j, now)), r, now, maxAttempts)
  }

  /** The failed attempt is counted, and the next one is queued behind a wait that doubles with each failure. */
  predicate RetriedEnd(db: Db, j: JobId, r: Db, now: Time, maxAttempts: nat)
    requires Rows(db.ex) && OwnJob(db, j)
  {
    var n := db.jobs[j].task;
    var k, wait := db.ex.retries[n], db.ex.config[n].backoffSeconds * Power2(db.ex.retries[n]) as real;
    && r.ex == db.ex.(state := db.ex.state[n := Enqueued], retries := db.ex.retries[n := k + 1])
    && |r.jobs| == |db.jobs| + 1 && r.jobs[..|db.jobs|] == Acknowledge(db.jobs, j, now)
    && Fills(r.jobs[|db.jobs|], db.ex, n, now + wait, now, k + 1, maxAttempts)
  }

  /** The last attempt has failed. */
  ghost predicate BadEnd(db: Db, j: JobId, r: Db, now: Time)
    requires Rows(db.ex) && OwnJob(db, j)
  {
    var n := db.jobs[j].task;
    && FailedFor(db.ex.(retries := db.ex.retries[n := db.ex.retries[n] + 1]), n, r.ex, now)
    && r.jobs == Acknowledge(db.jobs, j, now)
  }

  /** What a failed attempt leads to. */
  ghost predicate FailureHandled(db: Db, j: JobId, r: Db, now: Time, maxAttempts: nat)
    requires Rows(db.ex) && OwnJob(db, j)
  {
    var n := db.jobs[j].task;
    if db.ex.config[n].allowFailure then GoodEnd(db, j, r, now, maxAttempts)
    else if db.ex.retries[n] < db.ex.config[n].maxRetries then RetriedEnd(db, j, r, now, maxAttempts)
    else BadEnd(db, j, r, now)
  }

  /** What a handler's answer leads to. */
  ghost predicate FinishedAs(db: Db, j: JobId, ok: bool, r: Db, now: Time, maxAttempts: nat)
    requires Rows(db.ex) && OwnJob(db, j)
  {
    var n := db.jobs[j].task;
    if ok && db.ex.config[n].failFirstN <= db.ex.retries[n] then
      if db.ex.cancellationRequested then StoppedEnd(db, j, r, now) else GoodEnd(db, j, r, now, maxAttempts)
    else FailureHandled(db, j, r, now, maxAttempts)
  }

  // ---- an operator's calls ----

  /** What `cancel_execution` makes of the rows and the table: nothing once the execution has ended. */
  predicate CancelledAs(db: Db, r: Db, now: Time) {
    if db.ex.status in {StatusSuccess, StatusFailed, StatusCancelled} then r == db
    else
      && Refreshed(db.ex.(cancellationRequested := true, state := r.ex.state), r.ex, now)
      && r.ex.state.Keys == db.ex.state.Keys
      && (forall n | n in db.ex.state ::
           r.ex.state[n] == if db.ex.state[n] in {Pending, Enqueued, Retrying} then Stopped else db.ex.state[n])
      && r.jobs == CancelExecutionJobs(db.jobs, db.ex.id, now)
  }

  /** A skip or a retry of the task is accepted. */
  predicate Changeable(ex: Execution, n: Name) {
    n in ex.state && ex.state[n] in {Pending, Enqueued, Retrying, Failure, Stopped}
  }

  /** What `skip_task` makes of the rows and the table. */
  ghost predicate SkippedAs(db: Db, n: Name, r: Db, now: Time, maxAttempts: nat) {
    if Changeable(db.ex, n) then
      var ex := db.ex.(state := db.ex.state[n := Skipped]);
      PassedOn(Db(ex, CancelTaskJobs(db.jobs, db.ex.id, n, now)), r, now, maxAttempts)
    else r == db
  }

  // ---- creation ----

  /** The row of task `i` of the document is as the document says, and untouched. */
  predicate RowOf(ex: Execution, doc: Document, i: nat)
    requires i < |doc|
  {
    var n := doc[i].name;
    && i < |ex.order| && ex.order[i] == n
    && n in ex.graph && ex.graph[n] == doc[i].dependencies && n in ex.config && ex.config[n] == doc[i].config
    && n in ex.state && ex.state[n] == Pending && n in ex.retries && ex.retries[n] == 0
  }

  /** What `_spawn` makes of a document. */
  ghost predicate CreatedAs(ex: Execution, id: ExecutionId, tenant: TenantId, workflow: WorkflowId, doc: Document) {
    && ex.id == id && ex.tenant == tenant && ex.workflow == workflow
    && !ex.cancellationRequested && ex.status == StatusRunning && ex.finishedAt == None && ex.outbox == [Started]
    && |ex.order| == |doc| && Rows(ex) && forall i: nat :: i < |doc| ==> RowOf(ex, doc, i)
  }

  // ---- proofs: the pass ----

  lemma SweepEffect(st: States)
    ensures Swept(st, StopLive(st))
  {
  }

  /** One row, with nothing decided before it. */
  lemma RuleDecides(g: Graph, st: States, n: Name, rest: seq<Name>, st': States)
    requires n in g && n in st && st'.Keys == st.Keys && st'[n] == if st[n] == Pending then Rule(g, st, n) else st[n]
    ensures DecidedAt(g, [n] + rest, st, st', 0)
  {
    var order := [n] + rest;
    assert order[..0] == [] && order[0] == n;
    assert forall d :: d in st ==> Seen(order, st, st', 0, d) == st[d];
    assert SeesDep(g, order, st, st', 0, Failure) == SomeDep(g, st, n, Failure);
    assert SeesDep(g, order, st, st', 0, Stopped) == SomeDep(g, st, n, Stopped);
  }

  /** Rows further down see the first row decided. */
  lemma DecidedLater(g: Graph, st: States, st1: States, st': States, n: Name, rest: seq<Name>, i: nat)
    requires i < |rest| && rest[i] in g && n !in rest && DecidedAt(g, rest, st1, st', i)
    requires st1.Keys == st.Keys == st'.Keys && n in st && st1[n] == st'[n]
    requires forall d :: d in st && d != n ==> st1[d] == st[d]
    requires forall d :: d in st ==> (Satisfied(st[d]) <==> Satisfied(st1[d])) && (Satisfied(st[d]) ==> st1[d] == st[d])
    ensures DecidedAt(g, [n] + rest, st, st', i + 1)
  {
    var order := [n] + rest;
    assert order[..i + 1] == [n] + rest[..i] && order[i + 1] == rest[i];
    forall d | d in st ensures Seen(order, st, st', i + 1, d) == Seen(rest, st1, st', i, d) {
      assert d in order[..i + 1] <==> d == n || d in rest[..i];
    }
    assert SeesDep(g, order, st, st', i + 1, Failure) == SeesDep(g, rest, st1, st', i, Failure);
    assert SeesDep(g, order, st, st', i + 1, Stopped) == SeesDep(g, rest, st1, st', i, Stopped);
    hide Seen, SeesDep;
    assert rest[i] != n;
  }

  lemma EnqueueOneEffect(db: Db, n: Name, now: Time, maxAttempts: nat)
    requires Rows(db.ex) && n in db.ex.state
    ensures OneDecided(db, n, EnqueueOne(db, n, now, maxAttempts), now, maxAttempts)
  {
    var r, st := EnqueueOne(db, n, now, maxAttempts), db.ex.state;
    OneRow(db, n, now, maxAttempts);
    RuleDecides(db.ex.graph, st, n, [], r.ex.state);
    assert [n] + [] == [n];
    assert n in db.ex.config && n in db.ex.retries;
    FirstJobFills(db.ex, n, now, maxAttempts);
    hide Rows, Rule, DecidedAt, FirstJob;
  }

  lemma {:induction false} PassDecidesInOrder(db: Db, names: seq<Name>, now: Time, maxAttempts: nat)
    requires Rows(db.ex) && Elements(names) <= Elements(db.ex.order) && Distinct(names)
    ensures var st' := EnqueueAll(db, names, now, maxAttempts).ex.state;
      && DecidedInOrder(db.ex.graph, names, db.ex.state, st')
      && forall n :: n in db.ex.state && n !in names ==> st'[n] == db.ex.state[n]
    decreases |names|
  {
    if names != [] {
      var n, rest := names[0], names[1..];
      assert n in Elements(names) && Elements(rest) <= Elements(names) && names == [n] + rest && n !in rest;
      var db1, g, st := EnqueueOne(db, n, now, maxAttempts), db.ex.graph, db.ex.state;
      OneRow(db, n, now, maxAttempts);
      hide Rows, Elements, Distinct, EnqueueOne, DecidedAt, Rule, Framed;
      assert Distinct(rest) by { RestDistinct(names); }
      PassDecidesInOrder(db1, rest, now, maxAttempts);
      var st1, st' := db1.ex.state, EnqueueAll(db, names, now, maxAttempts).ex.state;
      assert EnqueueAll(db, names, now, maxAttempts) == EnqueueAll(db1, rest, now, maxAttempts);
      RuleDecides(g, st, n, rest, st');
      forall i: nat | i < |names| ensures names[i] in g && DecidedAt(g, names, st, st', i) {
        if i > 0 { assert rest[i - 1] == names[i]; DecidedLater(g, st, st1, st', n, rest, i - 1); }
      }
    }
  }

  lemma RestDistinct(names: seq<Name>)
    requires Distinct(names) && names != []
    ensures Distinct(names[1..])
  {
  }

  lemma OneRow(db: Db, n: Name, now: Time, maxAttempts: nat)
    requires Rows(db.ex) && n in db.ex.state
    ensures var ex1, st := EnqueueOne(db, n, now, maxAttempts).ex, db.ex.state;
      && Rows(ex1) && ex1.graph == db.ex.graph && ex1.order == db.ex.order && n in db.ex.graph
      && ex1.state.Keys == st.Keys && ex1.state[n] == (if st[n] == Pending then Rule(db.ex.graph, st, n) else st[n])
      && (forall d :: d in st && d != n ==> ex1.state[d] == st[d])
      && (forall d :: d in st ==> (Satisfied(st[d]) <==> Satisfied(ex1.state[d])))
      && (forall d :: d in st && Satisfied(st[d]) ==> ex1.state[d] == st[d])
  {
    hide FirstJob, Missing, SomeDep, Ready;
  }

  lemma FirstJobFills(ex: Execution, n: Name, now: Time, maxAttempts: nat)
    requires n in ex.config && n in ex.retries
    ensures Fills(FirstJob(ex, n, now, maxAttempts), ex, n, now + ex.config[n].delaySeconds, now, ex.retries[n],
                  maxAttempts)
  {
  }

  /** The first jobs of the listed tasks, filled in. */
  lemma FirstJobsFill(ex: Execution, names: seq<Name>, now: Time, maxAttempts: nat)
    requires forall n :: n in names ==> n in ex.config && n in ex.retries
    ensures var added := FirstJobs(ex, names, now, maxAttempts);
      |added| == |names| && forall i :: 0 <= i < |names| ==> names[i] in names && Fills(added[i], ex, names[i],
        now + ex.config[names[i]].delaySeconds, now, ex.retries[names[i]], maxAttempts)
  {
    hide Fills, FirstJob, FirstJobs;
    FirstJobsAre(ex, names, now, maxAttempts);
    forall i | 0 <= i < |names|
      ensures names[i] in names && Fills(FirstJobs(ex, names, now, maxAttempts)[i], ex, names[i],
        now + ex.config[names[i]].delaySeconds, now, ex.retries[names[i]], maxAttempts) {
      FirstJobFills(ex, names[i], now, maxAttempts);
    }
  }

  /** The tasks ready before the pass are those queued by it. */
  lemma ReadyAreQueued(g: Graph, st: States, st': States, order: seq<Name>)
    requires Distinct(order) && (forall n :: n in order ==> n in g && n in st) && (forall n :: n in st ==> n in order)
    requires Decided(g, st, st', order)
    ensures Distinct(ReadyNames(g, st, order))
    ensures forall n :: n in ReadyNames(g, st, order) <==> NewlyQueued(st, st', n)
  {
    hide Distinct, Ready, ReadyNames;
    ReadyNamesAre(g, st, order);
  }

  lemma RowsListed(ex: Execution)
    requires Rows(ex)
    ensures forall n :: n in ex.order <==> n in ex.state
  {
    forall n ensures n in ex.order <==> n in ex.state { assert n in ex.order <==> n in Elements(ex.order); }
  }

  lemma PassQueues(db: Db, now: Time, maxAttempts: nat)
    requires Rows(db.ex) && Distinct(db.ex.order)
    ensures Queues(db, EnqueueAll(db, db.ex.order, now, maxAttempts), now, maxAttempts)
  {
    var r, g, st, order := EnqueueAll(db, db.ex.order, now, maxAttempts), db.ex.graph, db.ex.state, db.ex.order;
    hide Rows, EnqueueAll, Distinct, Queues, Decided, NewlyQueued, ReadyNames, FirstJobs, Fills, Framed;
    RowsListed(db.ex);
    PassQueuesReady(db, order, now, maxAttempts);
    ReadyAreQueued(g, st, r.ex.state, order);
    var names := ReadyNames(g, st, order);
    FirstJobsFill(db.ex, names, now, maxAttempts);
    AddedQueues(db, r, names, FirstJobs(db.ex, names, now, maxAttempts), now, maxAttempts);
  }

  lemma AddedQueues(db: Db, r: Db, names: seq<Name>, added: Jobs, now: Time, maxAttempts: nat)
    requires r.jobs == db.jobs + added && |added| == |names| && Distinct(names)
    requires forall n :: n in names <==> NewlyQueued(db.ex.state, r.ex.state, n)
    requires forall n :: n in names ==> n in db.ex.config && n in db.ex.retries
    requires forall i :: 0 <= i < |names| ==> names[i] in names && Fills(added[i], db.ex, names[i],
      now + db.ex.config[names[i]].delaySeconds, now, db.ex.retries[names[i]], maxAttempts)
    ensures Queues(db, r, now, maxAttempts)
  {
    hide Fills, NewlyQueued;
    forall i | 0 <= i < |names| ensures added[i].task == names[i] {
      TaskOfFilled(added[i], db.ex, names[i], now, maxAttempts);
    }
    forall k: JobId | |db.jobs| <= k < |r.jobs| ensures FirstOf(db, r, k, now, maxAttempts) {
      assert r.jobs[k] == added[k - |db.jobs|] && names[k - |db.jobs|] in names;
    }
    forall n | NewlyQueued(db.ex.state, r.ex.state, n)
      ensures exists k: JobId :: |db.jobs| <= k < |r.jobs| && r.jobs[k].task == n {
      var i :| 0 <= i < |names| && names[i] == n;
      assert r.jobs[|db.jobs| + i].task == n;
    }
    forall k, l | |db.jobs| <= k < l < |r.jobs| ensures r.jobs[k].task != r.jobs[l].task {
      NamesDiffer(names, k - |db.jobs|, l - |db.jobs|);
    }
  }

  lemma TaskOfFilled(job: Job, ex: Execution, n: Name, now: Time, maxAttempts: nat)
    requires n in ex.config && n in ex.retries
    requires Fills(job, ex, n, now + ex.config[n].delaySeconds, now, ex.retries[n], maxAttempts)
    ensures job.task == n
  {
  }

  lemma NamesDiffer(names: seq<Name>, i: nat, j: nat)
    requires Distinct(names) && i < j < |names|
    ensures names[i] != names[j]
  {
  }

  /** `enqueue_ready_tasks` decides every row in list order and queues one job for each task that was ready. */
  lemma EnqueueReadyEffect(db: Db, now: Time, maxAttempts: nat)
    requires Rows(db.ex) && Distinct(db.ex.order)
    ensures PassedOn(db, EnqueueReady(db, now, maxAttempts), now, maxAttempts)
  {
    hide Rows, Distinct, EnqueueAll, StopLive, Refresh, Refreshed, Swept, Queues, DecidedInOrder;
    if db.ex.cancellationRequested {
      SweepEffect(db.ex.state);
      RefreshEffect(db.ex.(state := StopLive(db.ex.state)), now);
    } else {
      var all := EnqueueAll(db, db.ex.order, now, maxAttempts);
      PassDecidesInOrder(db, db.ex.order, now, maxAttempts);
      PassQueues(db, now, maxAttempts);
      PassQueuesReady(db, db.ex.order, now, maxAttempts);
      RefreshEffect(all.ex, now);
      QueuesSame(db, all, EnqueueReady(db, now, maxAttempts), now, maxAttempts);
    }
  }

  lemma QueuesSame(db: Db, r: Db, r': Db, now: Time, maxAttempts: nat)
    requires Queues(db, r, now, maxAttempts) && r'.jobs == r.jobs && r'.ex.state == r.ex.state
    ensures Queues(db, r', now, maxAttempts)
  {
    hide Fills, NewlyQueued;
    forall k: JobId | |db.jobs| <= k < |r'.jobs| ensures FirstOf(db, r', k, now, maxAttempts) {
      assert FirstOf(db, r, k, now, maxAttempts);
    }
  }

  // ---- proofs: the transactions ----

  lemma PropagationEffect(g: Graph, st: States)
    ensures Propagated(g, st, FailDownstream(g, st))
  {
    FailDownstreamCloses(g, st);
    FailDownstreamChanges(g, st);
    var st' := FailDownstream(g, st);
    hide FailDownstream;
    assert forall n, d :: n in g && n in st && d in g[n] && d in st && st'[d] == Failure ==>
      SomeDep(g, st', n, Failure);
    forall s: set<Name>, n | ClosedUnderFailure(g, st, s) && n in st && st'[n] == Failure ensures n in s {
      FailDownstreamIsLeast(g, st, s);
    }
  }

  lemma FailTaskEffect(ex: Execution, n: Name, now: Time)
    requires n in ex.state
    ensures FailedFor(ex, n, FailTask(ex, n, now), now)
  {
    var failed := SetState(ex, n, Failure);
    PropagationEffect(ex.graph, failed.state);
    hide FailDownstream, Refresh, Refreshed, Propagated;
    RefreshEffect(failed.(state := FailDownstream(ex.graph, failed.state)), now);
  }

  lemma HandleDeadLetterEffect(ex: Execution, n: Name, now: Time)
    ensures LetterHandled(ex, n, HandleDeadLetter(ex, n, now), now)
  {
    hide FailTask, FailedFor;
    if n in ex.state { FailTaskEffect(ex, n, now); }
  }

  lemma StopEffect(db: Db, j: JobId, now: Time)
    requires Rows(db.ex) && OwnJob(db, j)
    ensures StoppedEnd(db, j, FinishStopped(db, j, now), now)
  {
    RefreshEffect(SetState(db.ex, db.jobs[j].task, Stopped), now);
    hide Refresh, Refreshed, Acknowledge, Rows;
  }

  lemma StartEffect(db: Db, j: JobId, now: Time)
    requires Rows(db.ex) && OwnJob(db, j)
    ensures StartedAs(db, j, Start(db, j, now), Starts(db, j), now)
  {
    RefreshEffect(SetState(db.ex, db.jobs[j].task, Stopped), now);
    hide Refresh, Refreshed, Acknowledge, Rows;
  }

  /** Refreshing once more does not show. */
  lemma PassedOnRefreshed(db: Db, r: Db, now: Time, maxAttempts: nat)
    requires Rows(db.ex) && Distinct(db.ex.order) && r == EnqueueReady(db, now, maxAttempts)
    ensures Refresh(r.ex, now) == r.ex
  {
    hide Rows, Distinct, EnqueueAll, StopLive, StatusOf;
  }

  lemma CompleteEffect(db: Db, j: JobId, now: Time, maxAttempts: nat)
    requires Rows(db.ex) && OwnJob(db, j) && Distinct(db.ex.order)
    ensures GoodEnd(db, j, Complete(db, j, now, maxAttempts), now, maxAttempts)
  {
    var done := Db(SetState(db.ex, db.jobs[j].task, Success), Acknowledge(db.jobs, j, now));
    assert Rows(done.ex);
    hide Rows, Distinct, EnqueueReady, PassedOn, Refresh, Acknowledge;
    EnqueueReadyEffect(done, now, maxAttempts);
    PassedOnRefreshed(done, EnqueueReady(done, now, maxAttempts), now, maxAttempts);
  }

  lemma SkipEffect(db: Db, n: Name, now: Time, maxAttempts: nat)
    requires Rows(db.ex) && Distinct(db.ex.order)
    ensures SkippedAs(db, n, SkipTask(db, n, now, maxAttempts), now, maxAttempts)
  {
    if MaySkip(db.ex, n) {
      var base := Db(SetState(db.ex, n, Skipped), CancelTaskJobs(db.jobs, db.ex.id, n, now));
      assert Rows(base.ex);
      hide Rows, Distinct, EnqueueReady, PassedOn, Refresh, CancelTaskJobs;
      EnqueueReadyEffect(base, now, maxAttempts);
      PassedOnRefreshed(base, EnqueueReady(base, now, maxAttempts), now, maxAttempts);
    }
  }

  lemma RetryEffect(db: Db, j: JobId, now: Time, maxAttempts: nat)
    requires Rows(db.ex) && OwnJob(db, j)
    ensures RetriedEnd(db, j, Retry(db, j, now, maxAttempts), now, maxAttempts)
  {
    hide Power2, Acknowledged;
  }

  lemma CountingIs(ex: Execution, n: Name)
    requires Rows(ex) && n in ex.state
    ensures n in ex.retries && n in ex.config
    ensures var ex1 := CountedFailure(ex, n);
      ex1 == ex.(retries := ex.retries[n := ex.retries[n] + 1]) && n in ex1.state && Rows(ex1)
  {
  }

  lemma ExhaustIs(db: Db, j: JobId, now: Time)
    requires Rows(db.ex) && OwnJob(db, j)
    ensures var n := db.jobs[j].task;
      n in db.ex.retries
      && Exhaust(db, j, now) == Db(FailTask(CountedFailure(db.ex, n), n, now), Acknowledge(db.jobs, j, now))
  {
    hide FailTask, Acknowledge, CountedFailure;
  }

  lemma ExhaustEffect(db: Db, j: JobId, now: Time)
    requires Rows(db.ex) && OwnJob(db, j)
    ensures BadEnd(db, j, Exhaust(db, j, now), now)
  {
    hide FailTask, FailedFor, Acknowledge, CountedFailure, Rows, Exhaust, Framed, Power2;
    var n := db.jobs[j].task;
    CountingIs(db.ex, n);
    ExhaustIs(db, j, now);
    FailTaskEffect(CountedFailure(db.ex, n), n, now);
  }

  lemma HandleFailureEffect(db: Db, j: JobId, now: Time, maxAttempts: nat)
    requires Rows(db.ex) && OwnJob(db, j) && Distinct(db.ex.order)
    ensures FailureHandled(db, j, HandleFailure(db, j, now, maxAttempts), now, maxAttempts)
  {
    CountingIs(db.ex, db.jobs[j].task);
    hide Complete, Retry, Exhaust, GoodEnd, RetriedEnd, BadEnd, Rows, Distinct, Framed, CountedFailure;
    if db.ex.config[db.jobs[j].task].allowFailure {
      CompleteEffect(db, j, now, maxAttempts);
    } else if db.ex.retries[db.jobs[j].task] < db.ex.config[db.jobs[j].task].maxRetries {
      RetryEffect(db, j, now, maxAttempts);
    } else {
      ExhaustEffect(db, j, now);
    }
  }

  lemma FinishEffect(db: Db, j: JobId, ok: bool, now: Time, maxAttempts: nat)
    requires Rows(db.ex) && OwnJob(db, j) && Distinct(db.ex.order)
    ensures FinishedAs(db, j, ok, Finish(db, j, ok, now, maxAttempts), now, maxAttempts)
  {
    CountingIs(db.ex, db.jobs[j].task);
    hide Complete, FinishStopped, HandleFailure, GoodEnd, StoppedEnd, FailureHandled, Rows, Distinct, Framed,
      CountedFailure;
    if !Succeeds(db.ex, db.jobs[j].task, ok) {
      HandleFailureEffect(db, j, now, maxAttempts);
    } else if db.ex.cancellationRequested {
      StopEffect(db, j, now);
    } else {
      CompleteEffect(db, j, now, maxAttempts);
    }
  }

  lemma CancelEffect(db: Db, now: Time)
    ensures CancelledAs(db, CancelExecution(db, now), now)
  {
    if !Terminal(db.ex.status) {
      var state := map n | n in db.ex.state :: Withdrawn(db.ex.state[n]);
      RefreshEffect(db.ex.(cancellationRequested := true, state := state), now);
      hide Refresh, Refreshed, CancelExecutionJobs;
    }
  }

  // ---- proofs: creation ----

  lemma {:induction false} ConfigKeys(doc: Document)
    ensures ConfigOf(doc).Keys == NamesOf(doc)
  {
    if doc != [] {
      var front := doc[..|doc| - 1];
      ConfigKeys(front);
      assert NamesOf(doc) == NamesOf(front) + {doc[|doc| - 1].name};
    }
  }

  lemma {:induction false} ConfigAt(doc: Document, i: nat)
    requires UniqueNames(doc) && i < |doc|
    ensures doc[i].name in ConfigOf(doc) && ConfigOf(doc)[doc[i].name] == doc[i].config
  {
    if i < |doc| - 1 {
      ConfigAt(doc[..|doc| - 1], i);
    }
  }

  lemma OrderNames(doc: Document, order: seq<Name>)
    requires |order| == |doc| && forall i :: 0 <= i < |doc| ==> order[i] == doc[i].name
    ensures Elements(order) == NamesOf(doc)
  {
    forall n ensures n in Elements(order) <==> n in NamesOf(doc) {
      if n in NamesOf(doc) { var i :| 0 <= i < |doc| && doc[i].name == n; assert order[i] == n; }
      if n in order { var i :| 0 <= i < |order| && order[i] == n; assert doc[i].name == n; }
    }
  }

  /** Each task's row carries the task's own name, dependencies and configuration. */
  lemma InitialRowsEffect(id: ExecutionId, tenant: TenantId, workflow: WorkflowId, doc: Document)
    requires UniqueNames(doc)
    ensures CreatedAs(InitialRows(id, tenant, workflow, doc), id, tenant, workflow, doc)
  {
    var ex := InitialRows(id, tenant, workflow, doc);
    GraphKeys(doc);
    ConfigKeys(doc);
    OrderNames(doc, ex.order);
    forall i: nat | i < |doc| ensures RowOf(ex, doc, i) {
      GraphAt(doc, i);
      ConfigAt(doc, i);
      assert doc[i].name in NamesOf(doc);
    }
    hide Elements;
  }
}
