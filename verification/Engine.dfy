/** The workflow engine as one transition system: the rows of one execution, its
    jobs in the queue, the workers inside them, and the dead letters on their way. */
module Engine {
  import opened Dag
  import opened Q = QueueRecords
  import opened E = ExecutionState

  datatype Settings = Settings(maxAttempts: nat, leaseSeconds: Time)

  /** How far the live worker holding a job has got. */
  datatype Phase = Holding | Inside

  datatype Sys = Sys(
    db: Db,
    runs: map<JobId, Phase>,     // live workers, by the job they claimed
    letters: set<JobId>,         // dead-lettered jobs nobody has handled yet
    buffer: set<JobId>,          // those of them still in memory, waiting to be delivered
    starts: map<Name, nat>,      // history: how often each task's handler was started
    lost: set<Name>)             // history: tasks given up because their workers were lost

  datatype Step =
    | Claim(j: JobId, worker: WorkerId, now: Time)
    | Start(j: JobId, now: Time)
    | Renew(j: JobId, worker: WorkerId, now: Time)
    | Finish(j: JobId, ok: bool, now: Time)
    | Interrupt(j: JobId, now: Time)
    | Crash(j: JobId)
    | ReapLeases(now: Time)
    | Deliver(j: JobId, now: Time)
    | Discard(part: set<JobId>)
    | ReapHung(n: Name, now: Time)
    | Finalize(now: Time)
    | Cancel(now: Time)
    | Skip(n: Name, now: Time)

  predicate IsInside(s: Sys, j: JobId) {
    j in s.runs && s.runs[j] == Inside && OwnJob(s.db, j)
  }

  /** Fail-stop: whoever loses its lease is dead. `EngineTiming.OnTimeIsFailStop` discharges this. */
  predicate FailStop(s: Sys, now: Time) {
    forall j | j in s.runs :: j < |s.db.jobs| ==> !Expired(s.db.jobs[j], now)
  }

  /** The watchdog lists running tasks and strikes them later, whatever has become of them. That it then meets nobody
      inside is an assumption; `EngineStrikes.OnTimeRunIsRun` says exactly when it holds. */
  predicate MayBeListed(s: Sys, n: Name) {
    n in s.db.ex.state && (s.db.ex.state[n] == Running || (n in s.starts && s.starts[n] > 0))
  }

  predicate Enabled(s: Sys, step: Step) {
    match step
    case Claim(j, _, _) => OwnJob(s.db, j) && s.db.jobs[j].state == Queued
    case Start(j, _) => OwnJob(s.db, j) && j in s.runs && s.runs[j] == Holding
    case Renew(j, _, _) => OwnJob(s.db, j) && j in s.runs
    case Finish(j, _, _) => IsInside(s, j)
    case Interrupt(j, _) => IsInside(s, j) && s.db.ex.cancellationRequested
    case Crash(j) => j in s.runs
    case ReapLeases(now) => FailStop(s, now)
    case Deliver(j, _) => j in s.buffer && OwnJob(s.db, j)
    case Discard(part) => part != {} && part <= s.buffer
    case ReapHung(n, _) => MayBeListed(s, n) && n !in InsideTasks(s.db.jobs, s.runs)
    case Finalize(_) => !Terminal(s.db.ex.status) && s.db.ex.state != map[] && forall n | n in s.db.ex.state ::
      !Live(s.db.ex.state[n])
    case Cancel(_) => true
    case Skip(n, _) => MaySkip(s.db.ex, n)
  }

  function AfterClaim(c: Settings, s: Sys, j: JobId, worker: WorkerId, now: Time): (r: Sys)
    requires j < |s.db.jobs|
    ensures Rows(s.db.ex) && s.starts.Keys == s.db.ex.state.Keys ==>
      StepFrame(s, r) && r.db.ex.cancellationRequested == s.db.ex.cancellationRequested
  {
    s.(db := s.db.(jobs := Q.Claim(s.db.jobs, j, worker, now, c.leaseSeconds)), runs := s.runs[j := Holding])
  }

  /** A live worker extends its lease. */
  function AfterRenew(c: Settings, s: Sys, j: JobId, worker: WorkerId, now: Time): (r: Sys)
    requires j < |s.db.jobs|
    ensures Rows(s.db.ex) && s.starts.Keys == s.db.ex.state.Keys ==>
      StepFrame(s, r) && r.db.ex.cancellationRequested == s.db.ex.cancellationRequested
  {
    s.(db := s.db.(jobs := Q.Renew(s.db.jobs, j, worker, now, c.leaseSeconds)))
  }

  function AfterStart(s: Sys, j: JobId, now: Time): (r: Sys)
    requires Rows(s.db.ex) && OwnJob(s.db, j) && s.db.jobs[j].task in s.starts
    ensures Rows(s.db.ex) && s.starts.Keys == s.db.ex.state.Keys ==>
      StepFrame(s, r) && r.db.ex.cancellationRequested == s.db.ex.cancellationRequested
  {
    var n := s.db.jobs[j].task;
    var db := E.Start(s.db, j, now);
    if Starts(s.db, j) then s.(db := db, runs := s.runs[j := Inside], starts := s.starts[n := s.starts[n] + 1])
    else s.(db := db, runs := s.runs - {j})
  }

  ghost function AfterFinish(c: Settings, s: Sys, j: JobId, ok: bool, now: Time): (r: Sys)
    requires Rows(s.db.ex) && OwnJob(s.db, j)
    ensures Rows(s.db.ex) && s.starts.Keys == s.db.ex.state.Keys ==>
      StepFrame(s, r) && r.db.ex.cancellationRequested == s.db.ex.cancellationRequested
  {
    s.(db := E.Finish(s.db, j, ok, now, c.maxAttempts), runs := s.runs - {j})
  }

  function AfterInterrupt(s: Sys, j: JobId, now: Time): (r: Sys)
    requires Rows(s.db.ex) && OwnJob(s.db, j)
    ensures Rows(s.db.ex) && s.starts.Keys == s.db.ex.state.Keys ==>
      StepFrame(s, r) && r.db.ex.cancellationRequested == s.db.ex.cancellationRequested
  {
    s.(db := FinishStopped(s.db, j, now), runs := s.runs - {j})
  }

  /** `requeue_stale_jobs`: expired leases go back to the queue or become dead letters. */
  function AfterReapLeases(s: Sys, now: Time): (r: Sys)
    ensures Rows(s.db.ex) && s.starts.Keys == s.db.ex.state.Keys ==>
      StepFrame(s, r) && r.db.ex.cancellationRequested == s.db.ex.cancellationRequested
  {
    var dead := DeadLetters(s.db.jobs, now);
    s.(db := s.db.(jobs := RequeueStale(s.db.jobs, now)), letters := s.letters + dead, buffer := s.buffer + dead)
  }

  /** A worker's loss makes `handle_dead_letter` fail the task. */
  ghost function LoseTask(s: Sys, n: Name, now: Time): (r: Sys)
    ensures Rows(s.db.ex) && s.starts.Keys == s.db.ex.state.Keys ==>
      StepFrame(s, r) && r.db.ex.cancellationRequested == s.db.ex.cancellationRequested
  {
    s.(db := s.db.(ex := HandleDeadLetter(s.db.ex, n, now)),
       lost := if n in s.db.ex.state && !Satisfied(s.db.ex.state[n]) && s.db.ex.state[n] != Failure then s.lost + {n}
         else s.lost)
  }

  ghost function AfterDeliver(s: Sys, j: JobId, now: Time): (r: Sys)
    requires j < |s.db.jobs|
    ensures Rows(s.db.ex) && s.starts.Keys == s.db.ex.state.Keys ==>
      StepFrame(s, r) && r.db.ex.cancellationRequested == s.db.ex.cancellationRequested
  {
    LoseTask(s.(letters := s.letters - {j}, buffer := s.buffer - {j}), s.db.jobs[j].task, now)
  }

  /** What every step respects. */
  predicate StepFrame(s: Sys, s': Sys) {
    && Rows(s'.db.ex) && s'.starts.Keys == s'.db.ex.state.Keys && SameDefinitions(s.db.ex, s'.db.ex)
    && (s.db.ex.cancellationRequested ==> s'.db.ex.cancellationRequested)
  }

  ghost function Apply(c: Settings, s: Sys, step: Step): (r: Sys)
    requires Rows(s.db.ex) && s.starts.Keys == s.db.ex.state.Keys && Enabled(s, step)
    ensures StepFrame(s, r) && (!step.Cancel? ==> r.db.ex.cancellationRequested == s.db.ex.cancellationRequested)
  {
    match step
    case Claim(j, worker, now) => AfterClaim(c, s, j, worker, now)
    case Start(j, now) => AfterStart(s, j, now)
    case Renew(j, worker, now) => AfterRenew(c, s, j, worker, now)
    case Finish(j, ok, now) => AfterFinish(c, s, j, ok, now)
    case Interrupt(j, now) => AfterInterrupt(s, j, now)
    case Crash(j) => s.(runs := s.runs - {j})
    case ReapLeases(now) => AfterReapLeases(s, now)
    case Deliver(j, now) => AfterDeliver(s, j, now)
    case Discard(part) => s.(buffer := s.buffer - part)
    case ReapHung(n, now) => LoseTask(s, n, now)
    case Finalize(now) => s.(db := s.db.(ex := Refresh(s.db.ex, now)))
    case Cancel(now) => s.(db := CancelExecution(s.db, now))
    case Skip(n, now) => s.(db := SkipTask(s.db, n, now, c.maxAttempts))
  }

  /** The state `_spawn` leaves behind. */
  function Spawned(c: Settings, ex: Execution, now: Time): Sys
    requires Rows(ex)
  {
    Sys(EnqueueReady(Db(ex, []), now, c.maxAttempts), map[], {}, {}, map n | n in ex.state :: 0, {})
  }

  /** The rows `_spawn` starts from, for a document the validator accepted. */
  ghost predicate Fresh(ex: Execution) {
    && Rows(ex) && Known(ex.graph) && Acyclic(ex.graph) && Distinct(ex.order) && ex.order != []
    && (forall n :: n in ex.state ==> ex.state[n] == Pending && ex.retries[n] == 0)
    && !ex.cancellationRequested && ex.status == StatusRunning && ex.finishedAt == None && ex.outbox == [Started]
  }

  // ---- the invariant ----

  /** What the invariant looks at: task states, the task of every job, the tasks a
      worker is inside, and the jobs that may still do something for their task. */
  datatype View = View(st: States, tasks: seq<Name>, inside: set<Name>, owners: set<JobId>)

  function TasksOf(jobs: Jobs): seq<Name> {
    seq(|jobs|, j requires 0 <= j < |jobs| => jobs[j].task)
  }

  function InsideTasks(jobs: Jobs, runs: map<JobId, Phase>): set<Name> {
    set j | j in runs && j < |jobs| && runs[j] == Inside :: jobs[j].task
  }

  function Owners(jobs: Jobs, runs: map<JobId, Phase>, letters: set<JobId>): set<JobId> {
    set j: JobId | j < |jobs| && (Active(jobs[j]) || j in runs || j in letters)
  }

  function ViewOf(s: Sys): View {
    View(s.db.ex.state, TasksOf(s.db.jobs), InsideTasks(s.db.jobs, s.runs), Owners(s.db.jobs, s.runs, s.letters))
  }

  /** A job exists for every task that was ever queued, and for no pending one. */
  ghost predicate Worked(v: View) {
    && (forall n :: n in v.st && (v.st[n] == Enqueued || v.st[n] == Running || v.st[n] == Success) ==> n in v.tasks)
    && (forall n :: n in v.tasks ==> n in v.st && v.st[n] != Pending)
  }

  /** A dependency that is satisfied and left alone. */
  predicate Done(v: View, d: Name) {
    d in v.st && Satisfied(v.st[d]) && d !in v.inside
  }

  /** The dependencies of a task that ever had a job are satisfied, and no worker is inside them. */
  ghost predicate DepsDone(g: Graph, v: View) {
    forall n, d :: n in v.tasks && n in g && d in g[n] ==> Done(v, d)
  }

  /** No two jobs can act for one task. */
  ghost predicate OneOwner(v: View) {
    && (forall j :: j in v.owners ==> j < |v.tasks|)
    && (forall j, k :: j in v.owners && k in v.owners && v.tasks[j] == v.tasks[k] ==> j == k)
  }

  /** Whoever is inside a task finds it running. */
  ghost predicate Manned(v: View) {
    forall n :: n in v.inside ==> n in v.st && v.st[n] == Running
  }

  predicate Owned(v: View, n: Name) {
    exists j | j in v.owners :: j < |v.tasks| && v.tasks[j] == n
  }

  /** Every queued or running task is taken care of by a job or a dead letter. */
  ghost predicate CaredFor(v: View) {
    && Manned(v)
    && (forall n :: n in v.st ==> v.st[n] != Stopped)
    && (forall n :: n in v.st && (v.st[n] == Enqueued || v.st[n] == Running) ==> Owned(v, n))
  }

  ghost predicate ViewOk(g: Graph, cancellationRequested: bool, v: View) {
    && v.st.Keys == g.Keys
    && (forall n :: n in v.st ==> v.st[n] != Retrying)
    && Worked(v) && DepsDone(g, v) && OneOwner(v)
    && (!cancellationRequested ==> CaredFor(v))
  }

  ghost predicate Shape(c: Settings, ex: Execution, starts: map<Name, nat>) {
    && Rows(ex) && Known(ex.graph) && Acyclic(ex.graph) && Distinct(ex.order) && ex.order != []
    && starts.Keys == ex.state.Keys
    && c.maxAttempts >= 1
  }

  predicate JobOk(c: Settings, id: ExecutionId, job: Job) {
    && job.execution == id && job.maxAttempts == c.maxAttempts && job.attempts <= c.maxAttempts
    && (job.state == Queued ==> job.attempts < c.maxAttempts)
    && (job.state == Leased ==> 1 <= job.attempts <= c.maxAttempts && job.leaseExpiresAt.Some?)
  }

  ghost predicate JobsOk(c: Settings, id: ExecutionId, jobs: Jobs) {
    forall j :: 0 <= j < |jobs| ==> JobOk(c, id, jobs[j])
  }

  /** A live worker's job is leased, unless a cancellation took it away. */
  ghost predicate RunsOk(cancellationRequested: bool, jobs: Jobs, runs: map<JobId, Phase>) {
    forall j :: j in runs ==>
      j < |jobs| && (jobs[j].state == Leased || (jobs[j].state == Q.Cancelled && cancellationRequested))
  }

  ghost predicate LettersOk(jobs: Jobs, letters: set<JobId>, buffer: set<JobId>) {
    (forall j :: j in letters ==> j < |jobs| && jobs[j].state == Failed) && buffer <= letters
  }

  ghost predicate Core(c: Settings, s: Sys) {
    && Shape(c, s.db.ex, s.starts)
    && JobsOk(c, s.db.ex.id, s.db.jobs)
    && RunsOk(s.db.ex.cancellationRequested, s.db.jobs, s.runs)
    && LettersOk(s.db.jobs, s.letters, s.buffer)
    && ViewOk(s.db.ex.graph, s.db.ex.cancellationRequested, ViewOf(s))
  }

  /** No pending task is ready or blocked for good. */
  ghost predicate Settled(g: Graph, st: States) {
    forall n :: n in st && st[n] == Pending && n in g ==> !SomeDep(g, st, n, Failure) && !Ready(g, st, n)
  }

  ghost predicate Inv(c: Settings, s: Sys) {
    Core(c, s) && (!s.db.ex.cancellationRequested ==> Settled(s.db.ex.graph, s.db.ex.state))
  }
}
