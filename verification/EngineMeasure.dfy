/** Every run without a cancellation comes to rest. */
module EngineMeasure {
  import opened Dag
  import opened Sums
  import opened Tasks
  import opened Q = QueueRecords
  import opened E = ExecutionState
  import opened Engine
  import opened EngineCore
  import opened EngineInv
  import opened EngineStatus
  import opened EngineCancel
  import opened EngineQuiet
  import opened EngineOutcome

  // ---- what is still to come ----

  /** More than the steps one job can still cause. */
  function JobCost(maxAttempts: nat): nat { FreshWeight(maxAttempts) + 1 }

  function FreshWeight(maxAttempts: nat): nat { 6 * maxAttempts + 1 }

  /** What a task may cause in all: every permitted try is one job. */
  function PendingWeight(maxAttempts: nat, maxRetries: nat): nat { (maxRetries + 1) * JobCost(maxAttempts) + 2 }

  /** What a task may still cause, apart from its present job. */
  function TaskWeight(maxAttempts: nat, cfg: Config, x: TaskState, retries: nat): nat {
    match x
    case Pending => PendingWeight(maxAttempts, cfg.maxRetries)
    case Failure => 1
    case Stopped => 1
    case Success => 0
    case Skipped => 0
    case _ => (if retries <= cfg.maxRetries then cfg.maxRetries - retries else 0) * JobCost(maxAttempts) + 2
  }

  /** What a job may still cause. */
  function JobWeight(job: Job, run: Option<Phase>, lettered: bool, buffered: bool): nat {
    var left := if job.attempts <= job.maxAttempts then job.maxAttempts - job.attempts else 0;
    match job.state
    case Queued => 6 * left + 1
    case Leased => 6 * left + (match run case Some(Holding) => 6 case Some(Inside) => 5 case None => 4)
    case Failed => if buffered then 2 else if lettered then 1 else 0
    case _ => 0
  }

  function TaskWeights(maxAttempts: nat, ex: Execution): seq<nat>
    requires Rows(ex)
  {
    seq(|ex.order|, i requires 0 <= i < |ex.order| =>
      assert ex.order[i] in Elements(ex.order);
      TaskWeight(maxAttempts, ex.config[ex.order[i]], ex.state[ex.order[i]], ex.retries[ex.order[i]]))
  }

  function RunOf(runs: map<JobId, Phase>, j: JobId): Option<Phase> {
    if j in runs then Some(runs[j]) else None
  }

  function JobWeights(jobs: Jobs, runs: map<JobId, Phase>, letters: set<JobId>, buffer: set<JobId>): seq<nat> {
    seq(|jobs|, i requires 0 <= i < |jobs| => JobWeight(jobs[i], RunOf(runs, i), i in letters, i in buffer))
  }

  function TaskTotal(maxAttempts: nat, ex: Execution): nat
    requires Rows(ex)
  {
    Total(TaskWeights(maxAttempts, ex))
  }

  function JobTotal(jobs: Jobs, runs: map<JobId, Phase>, letters: set<JobId>, buffer: set<JobId>): nat {
    Total(JobWeights(jobs, runs, letters, buffer))
  }

  /** How much can still happen without an operator's help. */
  function Measure(c: Settings, s: Sys): nat
    requires Rows(s.db.ex)
  {
    TaskTotal(c.maxAttempts, s.db.ex) + JobTotal(s.db.jobs, s.runs, s.letters, s.buffer)
  }

  // ---- tasks ----

  /** Only task `n` changes, and its weight drops by `drop`. */
  lemma OneTaskDrops(maxAttempts: nat, ex: Execution, ex': Execution, n: Name, drop: nat)
    requires Rows(ex) && Rows(ex') && SameDefinitions(ex, ex') && n in ex.state
    requires forall m :: m in ex.state && m != n ==> ex'.state[m] == ex.state[m] && ex'.retries[m] == ex.retries[m]
    requires TaskWeight(maxAttempts, ex.config[n], ex'.state[n], ex'.retries[n]) + drop
      <= TaskWeight(maxAttempts, ex.config[n], ex.state[n], ex.retries[n])
    ensures TaskTotal(maxAttempts, ex') + drop <= TaskTotal(maxAttempts, ex)
  {
    var w, w' := TaskWeights(maxAttempts, ex), TaskWeights(maxAttempts, ex');
    var k :| 0 <= k < |ex.order| && ex.order[k] == n;
    hide TaskWeight;
    forall i | 0 <= i < |w| ensures w'[i] <= w[i] {
      assert ex.order[i] in Elements(ex.order);
    }
    TotalDrops(w, w', k, drop);
  }

  /** Tasks only fail or stay as they are. */
  lemma FailingDrops(maxAttempts: nat, ex: Execution, ex': Execution)
    requires Rows(ex) && Rows(ex') && SameDefinitions(ex, ex') && ex'.retries == ex.retries
    requires forall m :: m in ex.state ==>
      ex'.state[m] == ex.state[m] || (ex.state[m] == Pending && ex'.state[m] == Failure)
    ensures TaskTotal(maxAttempts, ex') <= TaskTotal(maxAttempts, ex)
  {
    var w, w' := TaskWeights(maxAttempts, ex), TaskWeights(maxAttempts, ex');
    forall i | 0 <= i < |w| ensures w'[i] <= w[i] {
      var m := ex.order[i];
      assert m in Elements(ex.order);
    }
    TotalLe(w, w');
  }

  lemma SameTotal(maxAttempts: nat, ex: Execution, ex': Execution)
    requires Rows(ex) && Rows(ex') && SameDefinitions(ex, ex') && ex'.retries == ex.retries && ex'.state == ex.state
    ensures TaskTotal(maxAttempts, ex') == TaskTotal(maxAttempts, ex)
  {
    assert TaskWeights(maxAttempts, ex') == TaskWeights(maxAttempts, ex);
  }

  /** `added` are fresh jobs. */
  ghost predicate FreshJobs(added: Jobs, maxAttempts: nat) {
    forall i :: 0 <= i < |added| ==> Untaken(added[i]) && added[i].maxAttempts == maxAttempts
  }

  /** The added jobs are for tasks that were pending. */
  ghost predicate ForPending(st: States, added: Jobs) {
    forall i :: 0 <= i < |added| ==> added[i].task in st && st[added[i].task] == Pending
  }

  ghost predicate FewerPending(st: States, st': States) {
    forall n :: n in st' && st'[n] == Pending ==> n in st && st[n] == Pending
  }

  /** The table grew by fresh jobs, each paid for by a pending task. */
  ghost predicate Paid(maxAttempts: nat, db: Db, db': Db, added: Jobs)
    requires Rows(db.ex) && Rows(db'.ex)
  {
    && db'.jobs == db.jobs + added && FreshJobs(added, maxAttempts)
    && ForPending(db.ex.state, added) && FewerPending(db.ex.state, db'.ex.state)
    && TaskTotal(maxAttempts, db'.ex) + JobCost(maxAttempts) * |added| <= TaskTotal(maxAttempts, db.ex)
  }

  lemma {:induction false} PassPays(db: Db, names: seq<Name>, now: Time, maxAttempts: nat) returns (added: Jobs)
    requires Rows(db.ex) && Elements(names) <= Elements(db.ex.order)
    ensures Paid(maxAttempts, db, EnqueueAll(db, names, now, maxAttempts), added)
    decreases |names|
  {
    if names == [] {
      added := [];
    } else {
      assert names[0] in Elements(names) && Elements(names[1..]) <= Elements(names);
      var db1 := EnqueueOne(db, names[0], now, maxAttempts);
      var first := OnePays(db, names[0], now, maxAttempts);
      hide Paid, EnqueueOne, Elements;
      var rest := PassPays(db1, names[1..], now, maxAttempts);
      added := first + rest;
      PaidThen(maxAttempts, db, db1, EnqueueAll(db, names, now, maxAttempts), first, rest);
    }
  }

  lemma PaidThen(maxAttempts: nat, a: Db, b: Db, d: Db, first: Jobs, rest: Jobs)
    requires Rows(a.ex) && Rows(b.ex) && Rows(d.ex) && Paid(maxAttempts, a, b, first) && Paid(maxAttempts, b, d, rest)
    ensures Paid(maxAttempts, a, d, first + rest)
  {
    hide Rows, TaskTotal, JobCost;
    assert a.jobs + first + rest == a.jobs + (first + rest);
    assert JobCost(maxAttempts) * |first + rest| == JobCost(maxAttempts) * |first| + JobCost(maxAttempts) * |rest|;
  }

  lemma OnePays(db: Db, n: Name, now: Time, maxAttempts: nat) returns (added: Jobs)
    requires Rows(db.ex) && n in db.ex.state
    ensures Paid(maxAttempts, db, EnqueueOne(db, n, now, maxAttempts), added)
  {
    var db1 := EnqueueOne(db, n, now, maxAttempts);
    var k := if db.ex.state[n] == Pending && Rule(db.ex.graph, db.ex.state, n) == Enqueued then 1 else 0;
    added := if k == 1 then [FirstJob(db.ex, n, now, maxAttempts)] else [];
    OneStays(db, n, now, maxAttempts);
    assert db.jobs + [] == db.jobs;
    assert db1.jobs == db.jobs + added && FreshJobs(added, maxAttempts) && ForPending(db.ex.state, added)
      by { hide Rule, TaskTotal, Rows; }
    assert FewerPending(db.ex.state, db1.ex.state) by { hide Rule, TaskTotal, Rows; }
    hide Rule, TaskWeight, TaskTotal, JobCost, FreshJobs, ForPending, FewerPending, FirstJob;
    TaskDropsByRule(maxAttempts, db.ex.config[n], db.ex.state[n], db1.ex.state[n], db.ex.retries[n], k);
    hide Rows;
    OneTaskDrops(maxAttempts, db.ex, db1.ex, n, JobCost(maxAttempts) * k);
  }

  lemma OneStays(db: Db, n: Name, now: Time, maxAttempts: nat)
    requires Rows(db.ex) && n in db.ex.state
    ensures Rows(EnqueueOne(db, n, now, maxAttempts).ex)
  {
    hide Rule, FirstJob;
  }

  lemma TaskDropsByRule(maxAttempts: nat, cfg: Config, x: TaskState, x': TaskState, retries: nat, k: nat)
    requires x == x' || (x == Pending && (x' == Enqueued || x' == Failure || x' == Stopped))
    requires k == if x == Pending && x' == Enqueued then 1 else 0
    ensures TaskWeight(maxAttempts, cfg, x', retries) + JobCost(maxAttempts) * k
      <= TaskWeight(maxAttempts, cfg, x, retries)
  {
    var left: nat := if retries <= cfg.maxRetries then cfg.maxRetries - retries else 0;
    Multiply(left, cfg.maxRetries, JobCost(maxAttempts));
  }

  lemma Multiply(a: nat, b: nat, k: nat)
    requires a <= b
    ensures a * k <= b * k
    ensures (a + 1) * k == a * k + k
    ensures (b + 1) * k == b * k + k
  {
  }

  lemma ReadyPays(db: Db, now: Time, maxAttempts: nat) returns (added: Jobs)
    requires Rows(db.ex) && !db.ex.cancellationRequested
    ensures Paid(maxAttempts, db, EnqueueReady(db, now, maxAttempts), added)
  {
    var all := EnqueueAll(db, db.ex.order, now, maxAttempts);
    added := PassPays(db, db.ex.order, now, maxAttempts);
    RefreshTotal(maxAttempts, all.ex, now);
    hide EnqueueAll, Refresh, TaskTotal, Rows;
  }

  lemma RefreshTotal(maxAttempts: nat, ex: Execution, now: Time)
    requires Rows(ex)
    ensures Rows(Refresh(ex, now)) && TaskTotal(maxAttempts, Refresh(ex, now)) == TaskTotal(maxAttempts, ex)
  {
    hide StatusOf, TaskTotal;
    SameTotal(maxAttempts, ex, Refresh(ex, now));
  }

  /** Setting a task's state and then queueing what became ready. */
  lemma SetPays(ex: Execution, jobs: Jobs, n: Name, x: TaskState, drop: nat, now: Time, maxAttempts: nat)
    returns (added: Jobs)
    requires Rows(ex) && n in ex.state && !ex.cancellationRequested
    requires TaskWeight(maxAttempts, ex.config[n], x, ex.retries[n]) + drop
      <= TaskWeight(maxAttempts, ex.config[n], ex.state[n], ex.retries[n])
    ensures Rows(SetState(ex, n, x))
    ensures var r := EnqueueReady(Db(SetState(ex, n, x), jobs), now, maxAttempts);
      && r.jobs == jobs + added && FreshJobs(added, maxAttempts) && (x != Pending ==> ForPending(ex.state, added))
      && TaskTotal(maxAttempts, r.ex) + JobCost(maxAttempts) * |added| + drop <= TaskTotal(maxAttempts, ex)
  {
    SetStateRows(ex, n, x);
    var ex1 := SetState(ex, n, x);
    hide Rows, EnqueueReady, TaskTotal, TaskWeight, FreshJobs, FewerPending;
    OneTaskDrops(maxAttempts, ex, ex1, n, drop);
    added := ReadyPays(Db(ex1, jobs), now, maxAttempts);
  }

  /** Failing a task for good, and its pending descendants with it. */
  lemma FailTaskPays(maxAttempts: nat, ex: Execution, ex1: Execution, n: Name, drop: nat, now: Time)
    requires Rows(ex) && n in ex.state && n in ex1.retries && ex1 == ex.(retries := ex.retries[n := ex1.retries[n]])
    requires drop + 1 <= TaskWeight(maxAttempts, ex.config[n], ex.state[n], ex.retries[n])
    ensures Rows(FailTask(ex1, n, now))
      && TaskTotal(maxAttempts, FailTask(ex1, n, now)) + drop <= TaskTotal(maxAttempts, ex)
  {
    assert Rows(ex1);
    SetStateRows(ex1, n, Failure);
    var ex2 := SetState(ex1, n, Failure);
    hide TaskTotal, Rows;
    OneTaskDrops(maxAttempts, ex, ex2, n, drop);
    hide TaskWeight;
    var ex3 := ex2.(state := FailDownstream(ex2.graph, ex2.state));
    FailDownstreamChanges(ex2.graph, ex2.state);
    hide FailDownstream, Refresh;
    DownstreamRows(ex2, ex3);
    FailingDrops(maxAttempts, ex2, ex3);
    RefreshTotal(maxAttempts, ex3, now);
  }

  lemma DownstreamRows(ex: Execution, ex': Execution)
    requires Rows(ex) && ex' == ex.(state := ex'.state) && ex'.state.Keys == ex.state.Keys
    ensures Rows(ex')
  {
  }

  // ---- jobs ----

  lemma {:induction false} FreshJobsWeigh(jobs: Jobs, added: Jobs, maxAttempts: nat, runs: map<JobId, Phase>,
      letters: set<JobId>, buffer: set<JobId>)
    requires FreshJobs(added, maxAttempts)
    ensures JobTotal(jobs + added, runs, letters, buffer)
      == JobTotal(jobs, runs, letters, buffer) + |added| * FreshWeight(maxAttempts)
  {
    if added == [] {
      assert jobs + added == jobs;
    } else {
      var front, last := added[..|added| - 1], added[|added| - 1];
      FreshJobsWeigh(jobs, front, maxAttempts, runs, letters, buffer);
      assert jobs + added == (jobs + front) + [last];
      FreshJobWeighs(jobs + front, last, maxAttempts, runs, letters, buffer);
      hide JobTotal, FreshWeight, FreshJobs;
      Multiply(|front|, |front|, FreshWeight(maxAttempts));
    }
  }

  lemma FreshJobWeighs(jobs: Jobs, job: Job, maxAttempts: nat, runs: map<JobId, Phase>, letters: set<JobId>,
                       buffer: set<JobId>)
    requires job.state == Queued && job.attempts == 0 && job.maxAttempts == maxAttempts
    ensures JobTotal(jobs + [job], runs, letters, buffer)
      == JobTotal(jobs, runs, letters, buffer) + FreshWeight(maxAttempts)
  {
    var w := JobWeights(jobs, runs, letters, buffer);
    assert JobWeights(jobs + [job], runs, letters, buffer) == w + [6 * maxAttempts + 1];
    TotalAppend(w, 6 * maxAttempts + 1);
  }

  /** What a job weighs in a given state of the engine. */
  function WeightIn(jobs: Jobs, runs: map<JobId, Phase>, letters: set<JobId>, buffer: set<JobId>, i: JobId): nat
    requires i < |jobs|
  {
    JobWeight(jobs[i], RunOf(runs, i), i in letters, i in buffer)
  }

  lemma OneJobDrops(jobs: Jobs, runs: map<JobId, Phase>, letters: set<JobId>, buffer: set<JobId>,
                    jobs': Jobs, runs': map<JobId, Phase>, letters': set<JobId>, buffer': set<JobId>, j: JobId,
                      drop: nat)
    requires |jobs'| == |jobs| && j < |jobs|
    requires forall i: JobId :: i < |jobs| ==>
      WeightIn(jobs', runs', letters', buffer', i) <= WeightIn(jobs, runs, letters, buffer, i)
    requires WeightIn(jobs', runs', letters', buffer', j) + drop <= WeightIn(jobs, runs, letters, buffer, j)
    ensures JobTotal(jobs', runs', letters', buffer') + drop <= JobTotal(jobs, runs, letters, buffer)
  {
    var w, w' := JobWeights(jobs, runs, letters, buffer), JobWeights(jobs', runs', letters', buffer');
    assert forall i: JobId :: i < |jobs| ==>
      w[i] == WeightIn(jobs, runs, letters, buffer, i) && w'[i] == WeightIn(jobs', runs', letters', buffer', i);
    hide WeightIn;
    TotalDrops(w, w', j, drop);
  }

  lemma JobsDrop(jobs: Jobs, runs: map<JobId, Phase>, letters: set<JobId>, buffer: set<JobId>,
                 jobs': Jobs, runs': map<JobId, Phase>, letters': set<JobId>, buffer': set<JobId>)
    requires |jobs'| == |jobs|
    requires forall i: JobId :: i < |jobs| ==>
      WeightIn(jobs', runs', letters', buffer', i) <= WeightIn(jobs, runs, letters, buffer, i)
    ensures JobTotal(jobs', runs', letters', buffer') <= JobTotal(jobs, runs, letters, buffer)
  {
    var w, w' := JobWeights(jobs, runs, letters, buffer), JobWeights(jobs', runs', letters', buffer');
    assert forall i: JobId :: i < |jobs| ==>
      w[i] == WeightIn(jobs, runs, letters, buffer, i) && w'[i] == WeightIn(jobs', runs', letters', buffer', i);
    hide WeightIn;
    TotalLe(w, w');
  }

  /** A worker's job is acknowledged and the worker leaves. */
  lemma LeavingDrops(s: Sys, j: JobId, now: Time)
    requires j in s.runs && j < |s.db.jobs| && s.db.jobs[j].state == Leased
    ensures JobTotal(Acknowledge(s.db.jobs, j, now), s.runs - {j}, s.letters, s.buffer) + 1
      <= JobTotal(s.db.jobs, s.runs, s.letters, s.buffer)
  {
    OneJobDrops(s.db.jobs, s.runs, s.letters, s.buffer, Acknowledge(s.db.jobs, j, now), s.runs - {j}, s.letters,
                s.buffer, j, 1);
  }

  /** Fresh jobs cost less than what the tasks paid for them. */
  lemma Settle(c: Settings, s: Sys, s': Sys, base: Jobs, added: Jobs, drop: nat, drop': nat)
    requires Rows(s.db.ex) && Rows(s'.db.ex) && s'.db.jobs == base + added && FreshJobs(added, c.maxAttempts)
    requires TaskTotal(c.maxAttempts, s'.db.ex) + JobCost(c.maxAttempts) * |added| + drop
      <= TaskTotal(c.maxAttempts, s.db.ex)
    requires JobTotal(base, s'.runs, s'.letters, s'.buffer) + drop' <= JobTotal(s.db.jobs, s.runs, s.letters, s.buffer)
    ensures Measure(c, s') + drop + drop' <= Measure(c, s)
  {
    hide Rows, TaskTotal, JobTotal;
    FreshJobsWeigh(base, added, c.maxAttempts, s'.runs, s'.letters, s'.buffer);
    hide FreshWeight;
    assert JobCost(c.maxAttempts) * |added| == |added| * FreshWeight(c.maxAttempts) + |added|;
  }

  lemma SettlePlain(c: Settings, s: Sys, s': Sys, drop: nat, drop': nat)
    requires Rows(s.db.ex) && Rows(s'.db.ex)
      && TaskTotal(c.maxAttempts, s'.db.ex) + drop <= TaskTotal(c.maxAttempts, s.db.ex)
    requires JobTotal(s'.db.jobs, s'.runs, s'.letters, s'.buffer) + drop'
      <= JobTotal(s.db.jobs, s.runs, s.letters, s.buffer)
    ensures Measure(c, s') + drop + drop' <= Measure(c, s)
  {
    hide Rows, TaskTotal, JobTotal;
  }

  // ---- steps ----

  /** What the invariant says about a live worker's job and its task. */
  lemma RunFacts(c: Settings, s: Sys, j: JobId)
    requires Inv(c, s) && !s.db.ex.cancellationRequested && j in s.runs
    ensures j < |s.db.jobs| && s.db.jobs[j].state == Leased && s.db.jobs[j].attempts <= s.db.jobs[j].maxAttempts
    ensures IsInside(s, j) ==> s.db.ex.state[s.db.jobs[j].task] == Running
  {
    if IsInside(s, j) { InsideIsCalm(c, s, j); }
    hide ViewOk, Shape;
  }

  lemma FinishMeasure(c: Settings, s: Sys, j: JobId, ok: bool, now: Time)
    requires Rows(s.db.ex) && IsInside(s, j) && Inv(c, s) && !s.db.ex.cancellationRequested
    ensures Measure(c, AfterFinish(c, s, j, ok, now)) < Measure(c, s)
  {
    var ex, n := s.db.ex, s.db.jobs[j].task;
    assert n in ex.config && n in ex.retries;
    hide Inv, Measure, Complete, E.Retry, E.Exhaust, Succeeds, Acknowledge, JobTotal, Rows;
    RunFacts(c, s, j);
    LeavingDrops(s, j, now);
    FinishIs(s.db, j, ok, now, c.maxAttempts);
    hide E.Finish;
    assert AfterFinish(c, s, j, ok, now) == LeavingWith(s, j, E.Finish(s.db, j, ok, now, c.maxAttempts));
    hide LeavingWith;
    if Succeeds(ex, n, ok) || ex.config[n].allowFailure {
      CompleteMeasure(c, s, j, now);
    } else if ex.retries[n] + 1 <= ex.config[n].maxRetries {
      RetryMeasure(c, s, j, now);
    } else {
      ExhaustMeasure(c, s, j, now);
    }
  }

  lemma FinishIs(db: Db, j: JobId, ok: bool, now: Time, maxAttempts: nat)
    requires Rows(db.ex) && OwnJob(db, j) && !db.ex.cancellationRequested
    ensures var ex, n := db.ex, db.jobs[j].task;
      E.Finish(db, j, ok, now, maxAttempts) ==
        if Succeeds(ex, n, ok) || ex.config[n].allowFailure then Complete(db, j, now, maxAttempts)
        else if ex.retries[n] + 1 <= ex.config[n].maxRetries then E.Retry(db, j, now, maxAttempts)
        else E.Exhaust(db, j, now)
  {
    hide Rows, Complete, E.Retry, E.Exhaust, Succeeds;
  }

  /** The worker in job `j` leaves its task behind with the given rows. */
  function LeavingWith(s: Sys, j: JobId, db: Db): Sys {
    s.(db := db, runs := s.runs - {j})
  }

  lemma CompleteMeasure(c: Settings, s: Sys, j: JobId, now: Time)
    requires Rows(s.db.ex) && OwnJob(s.db, j) && !s.db.ex.cancellationRequested
    requires JobTotal(Acknowledge(s.db.jobs, j, now), s.runs - {j}, s.letters, s.buffer) + 1
      <= JobTotal(s.db.jobs, s.runs, s.letters, s.buffer)
    ensures Measure(c, LeavingWith(s, j, Complete(s.db, j, now, c.maxAttempts))) < Measure(c, s)
  {
    hide Rows, Measure, JobTotal, TaskTotal, FreshJobs, EnqueueReady, Acknowledge, Refresh;
    var base := Acknowledge(s.db.jobs, j, now);
    var added := SetPays(s.db.ex, base, s.db.jobs[j].task, Success, 0, now, c.maxAttempts);
    var next := EnqueueReady(Db(SetState(s.db.ex, s.db.jobs[j].task, Success), base), now, c.maxAttempts);
    RefreshTotal(c.maxAttempts, next.ex, now);
    Settle(c, s, LeavingWith(s, j, Complete(s.db, j, now, c.maxAttempts)), base, added, 0, 1);
  }

  lemma RetryMeasure(c: Settings, s: Sys, j: JobId, now: Time)
    requires Rows(s.db.ex) && OwnJob(s.db, j) && s.db.ex.state[s.db.jobs[j].task] == Running
    requires s.db.ex.retries[s.db.jobs[j].task] + 1 <= s.db.ex.config[s.db.jobs[j].task].maxRetries
    requires JobTotal(Acknowledge(s.db.jobs, j, now), s.runs - {j}, s.letters, s.buffer) + 1
      <= JobTotal(s.db.jobs, s.runs, s.letters, s.buffer)
    ensures Measure(c, LeavingWith(s, j, E.Retry(s.db, j, now, c.maxAttempts))) < Measure(c, s)
  {
    var added := RetryTasks(c.maxAttempts, s.db, j, now);
    hide Rows, Measure, JobTotal, TaskTotal, Acknowledge, E.Retry, FreshJobs, JobCost;
    Settle(c, s, LeavingWith(s, j, E.Retry(s.db, j, now, c.maxAttempts)), Acknowledge(s.db.jobs, j, now), added, 0, 1);
  }

  lemma RetryTasks(maxAttempts: nat, db: Db, j: JobId, now: Time) returns (added: Jobs)
    requires Rows(db.ex) && OwnJob(db, j) && db.ex.state[db.jobs[j].task] == Running
    requires db.ex.retries[db.jobs[j].task] + 1 <= db.ex.config[db.jobs[j].task].maxRetries
    ensures FreshJobs(added, maxAttempts)
    ensures var r := E.Retry(db, j, now, maxAttempts);
      r.jobs == Acknowledge(db.jobs, j, now) + added
      && TaskTotal(maxAttempts, r.ex) + JobCost(maxAttempts) * |added| <= TaskTotal(maxAttempts, db.ex)
  {
    var n := db.jobs[j].task;
    var k, cfg := db.ex.retries[n], db.ex.config[n];
    RetryCost(maxAttempts, cfg, k);
    added := RetryAdds(db, j, now, maxAttempts);
    hide Rows, TaskTotal, Acknowledge, TaskWeight, JobCost, E.Retry, FreshJobs;
    OneTaskDrops(maxAttempts, db.ex, E.Retry(db, j, now, maxAttempts).ex, n, JobCost(maxAttempts));
  }

  lemma RetryCost(maxAttempts: nat, cfg: Config, k: nat)
    requires k + 1 <= cfg.maxRetries
    ensures TaskWeight(maxAttempts, cfg, Enqueued, k + 1) + JobCost(maxAttempts)
      <= TaskWeight(maxAttempts, cfg, Running, k)
  {
    Multiply(cfg.maxRetries - (k + 1), cfg.maxRetries - k, JobCost(maxAttempts));
  }

  lemma RetryAdds(db: Db, j: JobId, now: Time, maxAttempts: nat) returns (added: Jobs)
    requires Rows(db.ex) && OwnJob(db, j)
    ensures |added| == 1 && FreshJobs(added, maxAttempts)
    ensures var r, n := E.Retry(db, j, now, maxAttempts), db.jobs[j].task;
      && r.jobs == Acknowledge(db.jobs, j, now) + added
      && r.ex == SetState(db.ex, n, Enqueued).(retries := db.ex.retries[n := db.ex.retries[n] + 1])
  {
    hide Acknowledge, Rows, Backoff;
    added := [E.Retry(db, j, now, maxAttempts).jobs[|Acknowledge(db.jobs, j, now)|]];
  }

  lemma ExhaustMeasure(c: Settings, s: Sys, j: JobId, now: Time)
    requires Rows(s.db.ex) && OwnJob(s.db, j) && s.db.ex.state[s.db.jobs[j].task] == Running
    requires JobTotal(Acknowledge(s.db.jobs, j, now), s.runs - {j}, s.letters, s.buffer) + 1
      <= JobTotal(s.db.jobs, s.runs, s.letters, s.buffer)
    ensures Measure(c, LeavingWith(s, j, E.Exhaust(s.db, j, now))) < Measure(c, s)
  {
    ExhaustTasks(c.maxAttempts, s.db, j, now);
    hide Rows, Measure, JobTotal, TaskTotal, FailTask, Acknowledge;
    SettlePlain(c, s, LeavingWith(s, j, E.Exhaust(s.db, j, now)), 0, 1);
  }

  lemma ExhaustTasks(maxAttempts: nat, db: Db, j: JobId, now: Time)
    requires Rows(db.ex) && OwnJob(db, j) && db.ex.state[db.jobs[j].task] == Running
    ensures TaskTotal(maxAttempts, E.Exhaust(db, j, now).ex) <= TaskTotal(maxAttempts, db.ex)
  {
    var n := db.jobs[j].task;
    RunningWeighs(maxAttempts, db.ex.config[n], db.ex.retries[n]);
    var ex1 := CountedFailure(db.ex, n);
    hide TaskTotal, TaskWeight, FailTask, Acknowledge, Rows;
    FailTaskPays(maxAttempts, db.ex, ex1, n, 0, now);
  }

  lemma RunningWeighs(maxAttempts: nat, cfg: Config, k: nat)
    ensures TaskWeight(maxAttempts, cfg, Running, k) >= 2
  {
    var left: nat := if k <= cfg.maxRetries then cfg.maxRetries - k else 0;
    assert left * JobCost(maxAttempts) >= 0;
  }

  /** A step that leaves the tasks' rows alone. */
  lemma JobStepMeasure(c: Settings, s: Sys, s': Sys, j: JobId)
    requires Rows(s.db.ex) && s'.db.ex == s.db.ex && |s'.db.jobs| == |s.db.jobs| && j < |s.db.jobs|
    requires forall i: JobId :: i < |s.db.jobs| ==>
      WeightIn(s'.db.jobs, s'.runs, s'.letters, s'.buffer, i) <= WeightIn(s.db.jobs, s.runs, s.letters, s.buffer, i)
    requires WeightIn(s'.db.jobs, s'.runs, s'.letters, s'.buffer, j)
      < WeightIn(s.db.jobs, s.runs, s.letters, s.buffer, j)
    ensures Measure(c, s') < Measure(c, s)
  {
    hide Rows, TaskTotal, WeightIn;
    OneJobDrops(s.db.jobs, s.runs, s.letters, s.buffer, s'.db.jobs, s'.runs, s'.letters, s'.buffer, j, 1);
    hide JobTotal;
  }

  lemma ClaimMeasure(c: Settings, s: Sys, j: JobId, worker: WorkerId, now: Time)
    requires Rows(s.db.ex) && Enabled(s, Step.Claim(j, worker, now)) && JobsOk(c, s.db.ex.id, s.db.jobs)
    ensures Measure(c, AfterClaim(c, s, j, worker, now)) < Measure(c, s)
  {
    hide Rows, Measure;
    assert JobOk(c, s.db.ex.id, s.db.jobs[j]);
    JobStepMeasure(c, s, AfterClaim(c, s, j, worker, now), j);
  }

  lemma StartMeasure(c: Settings, s: Sys, j: JobId, now: Time)
    requires Rows(s.db.ex) && Enabled(s, Step.Start(j, now)) && s.db.jobs[j].task in s.starts
      && !s.db.ex.cancellationRequested
    requires s.db.jobs[j].state == Leased && s.db.ex.state[s.db.jobs[j].task] != Pending
      && s.db.ex.state[s.db.jobs[j].task] != Retrying
    ensures Measure(c, AfterStart(s, j, now)) < Measure(c, s)
  {
    hide Measure;
    var s', n := AfterStart(s, j, now), s.db.jobs[j].task;
    if Starts(s.db, j) {
      hide TaskTotal, JobTotal;
      assert s'.db.jobs == s.db.jobs && s'.db.ex == SetState(s.db.ex, n, Running);
      OneTaskDrops(c.maxAttempts, s.db.ex, s'.db.ex, n, 0);
      OneJobDrops(s.db.jobs, s.runs, s.letters, s.buffer, s'.db.jobs, s'.runs, s'.letters, s'.buffer, j, 1);
      SettlePlain(c, s, s', 0, 1);
    } else {
      LeavingDrops(s, j, now);
      hide TaskTotal, JobTotal, Acknowledge;
      SettlePlain(c, s, s', 0, 1);
    }
  }

  lemma CrashMeasure(c: Settings, s: Sys, j: JobId)
    requires Rows(s.db.ex) && j in s.runs && j < |s.db.jobs| && s.db.jobs[j].state == Leased
    ensures Measure(c, s.(runs := s.runs - {j})) < Measure(c, s)
  {
    hide Rows, Measure;
    JobStepMeasure(c, s, s.(runs := s.runs - {j}), j);
  }

  lemma ReapLeasesMeasure(c: Settings, s: Sys, now: Time)
    requires Rows(s.db.ex) && FailStop(s, now) && JobsOk(c, s.db.ex.id, s.db.jobs)
      && LettersOk(s.db.jobs, s.letters, s.buffer)
    ensures Measure(c, AfterReapLeases(s, now)) < Measure(c, s) || AfterReapLeases(s, now) == s
  {
    hide Rows, Measure;
    var s' := AfterReapLeases(s, now);
    if j: JobId :| j < |s.db.jobs| && Expired(s.db.jobs[j], now) {
      forall i: JobId | i < |s.db.jobs|
        ensures WeightIn(s'.db.jobs, s'.runs, s'.letters, s'.buffer, i)
          <= WeightIn(s.db.jobs, s.runs, s.letters, s.buffer, i)
        ensures Expired(s.db.jobs[i], now) ==>
          WeightIn(s'.db.jobs, s'.runs, s'.letters, s'.buffer, i) < WeightIn(s.db.jobs, s.runs, s.letters, s.buffer, i)
      {
        ReapDrops(c, s, now, i);
      }
      hide RequeueStale, WeightIn, FailStop;
      JobStepMeasure(c, s, s', j);
    } else {
      assert s'.db.jobs == s.db.jobs;
      assert s'.letters == s.letters && s'.buffer == s.buffer;
    }
  }

  lemma ReapDrops(c: Settings, s: Sys, now: Time, i: JobId)
    requires FailStop(s, now) && JobsOk(c, s.db.ex.id, s.db.jobs) && i < |s.db.jobs|
    ensures var s' := AfterReapLeases(s, now);
      var w, w' := WeightIn(s.db.jobs, s.runs, s.letters, s.buffer, i),
                   WeightIn(s'.db.jobs, s'.runs, s'.letters, s'.buffer, i);
      w' <= w && (Expired(s.db.jobs[i], now) ==> w' < w)
  {
    assert JobOk(c, s.db.ex.id, s.db.jobs[i]);
    hide Rows, StepFrame;
  }

  lemma DiscardMeasure(c: Settings, s: Sys, part: set<JobId>)
    requires Rows(s.db.ex) && part != {} && part <= s.buffer && LettersOk(s.db.jobs, s.letters, s.buffer)
    ensures Measure(c, s.(buffer := s.buffer - part)) < Measure(c, s)
  {
    hide Rows, Measure;
    var j :| j in part;
    assert j in s.letters;
    JobStepMeasure(c, s, s.(buffer := s.buffer - part), j);
  }

  lemma UnsatisfiedWeighs(maxAttempts: nat, cfg: Config, x: TaskState, k: nat)
    requires !Satisfied(x)
    ensures TaskWeight(maxAttempts, cfg, x, k) >= 1
    ensures x != Failure && x != Stopped ==> TaskWeight(maxAttempts, cfg, x, k) >= 2
  {
    if x != Pending && x != Failure && x != Stopped { RunningWeighs(maxAttempts, cfg, k); }
  }

  lemma LoseTasks(maxAttempts: nat, ex: Execution, n: Name, now: Time)
    requires Rows(ex) && n in ex.state
    ensures var r := HandleDeadLetter(ex, n, now);
      TaskTotal(maxAttempts, r) + (if Live(ex.state[n]) then 1 else 0) <= TaskTotal(maxAttempts, ex)
  {
    if !Satisfied(ex.state[n]) && ex.state[n] != Failure {
      UnsatisfiedWeighs(maxAttempts, ex.config[n], ex.state[n], ex.retries[n]);
      assert ex == ex.(retries := ex.retries[n := ex.retries[n]]);
      hide TaskTotal, TaskWeight, FailTask, Rows;
      FailTaskPays(maxAttempts, ex, ex, n, if Live(ex.state[n]) then 1 else 0, now);
    }
  }

  /** Striking an unfinished task uses something up; striking any other changes nothing. */
  lemma ReapHungMeasure(c: Settings, s: Sys, n: Name, now: Time)
    requires Rows(s.db.ex) && n in s.db.ex.state && s.db.ex.state[n] != Stopped
    ensures Rows(LoseTask(s, n, now).db.ex)
    ensures LoseTask(s, n, now) == s || Measure(c, LoseTask(s, n, now)) < Measure(c, s)
  {
    LoseTasks(c.maxAttempts, s.db.ex, n, now);
    hide Rows, HandleDeadLetter, TaskTotal, JobTotal;
  }

  lemma DeliverMeasure(c: Settings, s: Sys, j: JobId, now: Time)
    requires Rows(s.db.ex) && OwnJob(s.db, j) && j in s.buffer && LettersOk(s.db.jobs, s.letters, s.buffer)
    ensures Rows(AfterDeliver(s, j, now).db.ex) && Measure(c, AfterDeliver(s, j, now)) < Measure(c, s)
  {
    LetterDrops(s, j);
    hide Rows, HandleDeadLetter, TaskTotal, JobTotal;
    LoseTasks(c.maxAttempts, s.db.ex, s.db.jobs[j].task, now);
  }

  lemma LetterDrops(s: Sys, j: JobId)
    requires j < |s.db.jobs| && j in s.buffer && LettersOk(s.db.jobs, s.letters, s.buffer)
    ensures JobTotal(s.db.jobs, s.runs, s.letters - {j}, s.buffer - {j}) + 1
      <= JobTotal(s.db.jobs, s.runs, s.letters, s.buffer)
  {
    assert s.db.jobs[j].state == Failed by { assert j in s.letters; }
    hide JobTotal;
    OneJobDrops(s.db.jobs, s.runs, s.letters, s.buffer, s.db.jobs, s.runs, s.letters - {j}, s.buffer - {j}, j, 1);
  }

  lemma SkipMeasure(c: Settings, s: Sys, n: Name, now: Time)
    requires Rows(s.db.ex) && MaySkip(s.db.ex, n) && !s.db.ex.cancellationRequested
    ensures Measure(c, s.(db := SkipTask(s.db, n, now, c.maxAttempts))) < Measure(c, s)
  {
    var s' := s.(db := SkipTask(s.db, n, now, c.maxAttempts));
    var base := CancelTaskJobs(s.db.jobs, s.db.ex.id, n, now);
    CancellingDrops(s, n, now);
    var added := SkipTasks(c.maxAttempts, s.db, n, now);
    hide Measure, JobTotal, CancelTaskJobs, Rows, TaskTotal, SkipTask, JobCost, FreshJobs, ForPending;
    Settle(c, s, s', base, added, 1, 0);
  }

  lemma CancellingDrops(s: Sys, n: Name, now: Time)
    ensures JobTotal(CancelTaskJobs(s.db.jobs, s.db.ex.id, n, now), s.runs, s.letters, s.buffer)
      <= JobTotal(s.db.jobs, s.runs, s.letters, s.buffer)
  {
    hide JobTotal;
    JobsDrop(s.db.jobs, s.runs, s.letters, s.buffer, CancelTaskJobs(s.db.jobs, s.db.ex.id, n, now), s.runs, s.letters,
             s.buffer);
  }

  lemma SkipTasks(maxAttempts: nat, db: Db, n: Name, now: Time) returns (added: Jobs)
    requires Rows(db.ex) && MaySkip(db.ex, n) && !db.ex.cancellationRequested
    ensures FreshJobs(added, maxAttempts) && ForPending(db.ex.state, added)
    ensures var r := SkipTask(db, n, now, maxAttempts);
      r.jobs == CancelTaskJobs(db.jobs, db.ex.id, n, now) + added
      && TaskTotal(maxAttempts, r.ex) + JobCost(maxAttempts) * |added| + 1 <= TaskTotal(maxAttempts, db.ex)
  {
    UnsatisfiedWeighs(maxAttempts, db.ex.config[n], db.ex.state[n], db.ex.retries[n]);
    hide Rows, TaskTotal, CancelTaskJobs, EnqueueReady, Refresh, FreshJobs, JobCost, ForPending;
    var base := CancelTaskJobs(db.jobs, db.ex.id, n, now);
    added := SetPays(db.ex, base, n, Skipped, 1, now, maxAttempts);
    var next := EnqueueReady(Db(SetState(db.ex, n, Skipped), base), now, maxAttempts);
    RefreshTotal(maxAttempts, next.ex, now);
  }

  lemma NotLiveMeansTerminal(st: States)
    requires st != map[] && forall n :: n in st ==> !Live(st[n]) && st[n] != Stopped
    ensures Terminal(StatusOf(st, false))
  {
    assert AllEnded(st);
    hide StatusOf;
    EndedMeansTerminal(st);
  }

  /** The watchdog's repair of an unfinished status finds nothing to repair. */
  lemma NothingToFinalize(c: Settings, s: Sys, now: Time)
    requires Rows(s.db.ex) && Inv(c, s) && Agrees(s.db.ex) && !s.db.ex.cancellationRequested
    ensures !Enabled(s, Step.Finalize(now))
  {
    hide Inv, Settled, CaredFor, Acyclic, Distinct, Known, Rows, StatusOf;
    CalmFacts(c, s);
    if s.db.ex.state != map[] && forall n :: n in s.db.ex.state ==> !Live(s.db.ex.state[n]) {
      NotLiveMeansTerminal(s.db.ex.state);
    }
  }

  /** Without a cancellation, every step of the engine uses up some of what may still happen. Only these leave it as it
      is: a renewal, and a reaper's step that changes nothing at all, because no lease has expired or the task struck
      has ended. */
  lemma StepMeasure(c: Settings, s: Sys, step: Step)
    requires Rows(s.db.ex) && s.starts.Keys == s.db.ex.state.Keys && Enabled(s, step) && Inv(c, s) && Agrees(s.db.ex)
    requires !s.db.ex.cancellationRequested && !step.Cancel?
    ensures Measure(c, Apply(c, s, step)) < Measure(c, s)
      || (Measure(c, Apply(c, s, step)) == Measure(c, s)
          && (step.Renew? || ((step.ReapLeases? || step.ReapHung?) && Apply(c, s, step) == s)))
  {
    if step.Claim? || step.Crash? || step.ReapLeases? || step.Discard? || step.Renew? {
      hide *;
      QueueStepMeasure(c, s, step);
    } else {
      hide *;
      TaskStepMeasure(c, s, step);
    }
  }

  lemma TaskStepMeasure(c: Settings, s: Sys, step: Step)
    requires Rows(s.db.ex) && s.starts.Keys == s.db.ex.state.Keys && Enabled(s, step) && Inv(c, s) && Agrees(s.db.ex)
    requires !s.db.ex.cancellationRequested && !step.Cancel?
    requires !step.Claim? && !step.Crash? && !step.ReapLeases? && !step.Discard? && !step.Renew?
    ensures Measure(c, Apply(c, s, step)) < Measure(c, s) || (step.ReapHung? && Apply(c, s, step) == s)
  {
    if step.Start? || step.Finish? {
      hide *;
      WorkerStepMeasure(c, s, step);
    } else {
      hide *;
      OtherStepMeasure(c, s, step);
    }
  }

  lemma WorkerStepMeasure(c: Settings, s: Sys, step: Step)
    requires Rows(s.db.ex) && s.starts.Keys == s.db.ex.state.Keys && Enabled(s, step) && Inv(c, s)
    requires !s.db.ex.cancellationRequested && (step.Start? || step.Finish?)
    ensures Measure(c, Apply(c, s, step)) < Measure(c, s)
  {
    hide Inv, Measure, Rows, StepFrame, AfterStart, AfterFinish;
    match step
    case Start(j, now) => RunFacts(c, s, j); OwnerFacts(c, s, j); StartMeasure(c, s, j, now);
    case Finish(j, ok, now) => FinishMeasure(c, s, j, ok, now);
  }

  lemma OtherStepMeasure(c: Settings, s: Sys, step: Step)
    requires Rows(s.db.ex) && s.starts.Keys == s.db.ex.state.Keys && Enabled(s, step) && Inv(c, s) && Agrees(s.db.ex)
    requires !s.db.ex.cancellationRequested
    requires step.Interrupt? || step.Deliver? || step.ReapHung? || step.Finalize? || step.Skip?
    ensures Measure(c, Apply(c, s, step)) < Measure(c, s) || (step.ReapHung? && Apply(c, s, step) == s)
  {
    if step.Interrupt? || step.Finalize? {
      hide *;
      NotPossible(c, s, step);
    } else if step.Skip? {
      hide Inv, Agrees, Measure, Rows, SkipTask, StepFrame;
      SkipMeasure(c, s, step.n, step.now);
    } else {
      hide *;
      LossStepMeasure(c, s, step);
    }
  }

  lemma NotPossible(c: Settings, s: Sys, step: Step)
    requires Rows(s.db.ex) && Inv(c, s) && Agrees(s.db.ex) && !s.db.ex.cancellationRequested
      && (step.Interrupt? || step.Finalize?)
    ensures !Enabled(s, step)
  {
    if step.Finalize? { NothingToFinalize(c, s, step.now); }
  }

  lemma LossStepMeasure(c: Settings, s: Sys, step: Step)
    requires Rows(s.db.ex) && s.starts.Keys == s.db.ex.state.Keys && Enabled(s, step) && Inv(c, s)
    requires !s.db.ex.cancellationRequested && (step.Deliver? || step.ReapHung?)
    ensures Measure(c, Apply(c, s, step)) < Measure(c, s) || (step.ReapHung? && Apply(c, s, step) == s)
  {
    hide Inv, Measure, Rows, JobsOk, LettersOk, StepFrame, AfterDeliver, LoseTask, InsideTasks;
    InvTables(c, s);
    NoneStopped(c, s);
    match step
    case Deliver(j, now) => DeliverMeasure(c, s, j, now);
    case ReapHung(n, now) => ReapHungMeasure(c, s, n, now);
  }

  lemma RenewMeasure(c: Settings, s: Sys, j: JobId, worker: WorkerId, now: Time)
    requires Rows(s.db.ex) && j < |s.db.jobs|
    ensures Measure(c, AfterRenew(c, s, j, worker, now)) == Measure(c, s)
  {
    hide Rows, TaskTotal, StepFrame;
    var s' := AfterRenew(c, s, j, worker, now);
    assert JobWeights(s'.db.jobs, s.runs, s.letters, s.buffer) == JobWeights(s.db.jobs, s.runs, s.letters, s.buffer);
  }

  lemma QueueStepMeasure(c: Settings, s: Sys, step: Step)
    requires Rows(s.db.ex) && s.starts.Keys == s.db.ex.state.Keys && Enabled(s, step) && Inv(c, s)
    requires !s.db.ex.cancellationRequested
      && (step.Claim? || step.Crash? || step.ReapLeases? || step.Discard? || step.Renew?)
    ensures Measure(c, Apply(c, s, step)) < Measure(c, s)
      || (Measure(c, Apply(c, s, step)) == Measure(c, s)
          && (step.Renew? || (step.ReapLeases? && Apply(c, s, step) == s)))
  {
    hide Inv, Measure, Rows, JobsOk, LettersOk, StepFrame, FailStop, AfterClaim, AfterReapLeases, AfterRenew;
    InvTables(c, s);
    match step
    case Claim(j, worker, now) => ClaimMeasure(c, s, j, worker, now);
    case Renew(j, worker, now) => RenewMeasure(c, s, j, worker, now);
    case Crash(j) => RunFacts(c, s, j); CrashMeasure(c, s, j);
    case ReapLeases(now) => ReapLeasesMeasure(c, s, now);
    case Discard(part) => DiscardMeasure(c, s, part);
  }

  lemma NoneStopped(c: Settings, s: Sys)
    requires Inv(c, s) && !s.db.ex.cancellationRequested
    ensures forall n :: n in s.db.ex.state ==> s.db.ex.state[n] != Stopped
  {
    CalmFacts(c, s);
  }

  lemma InvTables(c: Settings, s: Sys)
    requires Inv(c, s)
    ensures Rows(s.db.ex) && JobsOk(c, s.db.ex.id, s.db.jobs) && LettersOk(s.db.jobs, s.letters, s.buffer)
  {
    hide ViewOk;
  }

  lemma OwnerFacts(c: Settings, s: Sys, j: JobId)
    requires Inv(c, s) && OwnJob(s.db, j) && j in s.runs
    ensures s.db.ex.state[s.db.jobs[j].task] != Pending && s.db.ex.state[s.db.jobs[j].task] != Retrying
  {
    OwnerOf(c, s, j);
  }

  // ---- whole runs ----

  /** How many of the first `k` steps of a run changed anything but a lease. */
  function Changes(states: seq<Sys>, steps: seq<Step>, k: nat): nat
    requires |states| == |steps| + 1 && k < |states|
  {
    if k == 0 then 0 else Changes(states, steps, k - 1) + if states[k] != states[k - 1] && !steps[k - 1].Renew? then 1
      else 0
  }

  /** What the task list allows at most: every attempt of every try of every task, five steps each and a bit. */
  function Budget(c: Settings, ex: Execution): nat
    requires Rows(ex)
  {
    Total(seq(|ex.order|, i requires 0 <= i < |ex.order| =>
      assert ex.order[i] in Elements(ex.order);
      PendingWeight(c.maxAttempts, ex.config[ex.order[i]].maxRetries)))
  }

  lemma SpawnedMeasure(c: Settings, ex: Execution, t0: Time)
    requires Rows(ex) && Fresh(ex)
    ensures Rows(Spawned(c, ex, t0).db.ex) && Measure(c, Spawned(c, ex, t0)) <= Budget(c, ex)
  {
    var s := Sys(Db(ex, []), map[], {}, {}, map n | n in ex.state :: 0, {});
    assert TaskTotal(c.maxAttempts, ex) == Budget(c, ex) by {
      hide JobCost;
      forall i | 0 <= i < |ex.order|
        ensures ex.state[ex.order[i]] == Pending { assert ex.order[i] in Elements(ex.order); }
      assert TaskWeights(c.maxAttempts, ex) == seq(|ex.order|, i requires 0 <= i < |ex.order| =>
        assert ex.order[i] in Elements(ex.order);
        PendingWeight(c.maxAttempts, ex.config[ex.order[i]].maxRetries));
    }
    assert !ex.cancellationRequested;
    hide Rows, Fresh, EnqueueReady, TaskTotal, Budget, JobCost, FreshJobs;
    var added := ReadyPays(Db(ex, []), t0, c.maxAttempts);
    Settle(c, s, Spawned(c, ex, t0), [], added, 0, 0);
  }

  /** Renewals apart, no run without a cancellation makes more changes than its task list allows, however its steps
      interleave. */
  lemma {:induction false} RunIsBounded(c: Settings, ex: Execution, t0: Time, states: seq<Sys>, steps: seq<Step>,
                                        k: nat)
    requires IsRun(c, ex, t0, states, steps) && NoCancel(steps) && k < |states|
    ensures Rows(ex) && Rows(states[k].db.ex) && Changes(states, steps, k) + Measure(c, states[k]) <= Budget(c, ex)
  {
    hide Inv, Fresh, Rows, Apply, Spawned, Measure, Budget, Agrees, Manned, ViewOf, Enabled;
    assert Rows(ex) && Fresh(ex);
    if k == 0 {
      SpawnedMeasure(c, ex, t0);
    } else {
      RunIsBounded(c, ex, t0, states, steps, k - 1);
      RunStepMeasure(c, ex, t0, states, steps, k - 1);
    }
  }

  lemma RunStepMeasure(c: Settings, ex: Execution, t0: Time, states: seq<Sys>, steps: seq<Step>, i: nat)
    requires IsRun(c, ex, t0, states, steps) && NoCancel(steps) && i < |steps|
    ensures Rows(states[i].db.ex) && Rows(states[i + 1].db.ex)
    ensures Measure(c, states[i + 1]) <= Measure(c, states[i])
    ensures Measure(c, states[i + 1]) < Measure(c, states[i]) || steps[i].Renew? || states[i + 1] == states[i]
  {
    RunKeepsInv(c, ex, t0, states, steps, i);
    UncancelledRun(c, ex, t0, states, steps, i);
    NoCancelNoSweeps(c, ex, t0, states, steps);
    RunAgrees(c, ex, t0, states, steps, i);
    assert Legal(c, states[i], steps[i], states[i + 1]);
    hide Inv, Fresh, Rows, Apply, Spawned, Measure, Budget, Agrees, Manned, ViewOf, Enabled;
    StepMeasure(c, states[i], steps[i]);
  }
}
