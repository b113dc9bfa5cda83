/** How often a task's handler is started. */
module EngineStarts {
  import opened Dag
  import opened Q = QueueRecords
  import opened E = ExecutionState
  import opened Engine
  import opened EngineCore
  import opened EngineInv
  import opened EngineStatus
  import opened EngineMoves
  import opened EngineSafety
  import opened EngineCancel
  import opened EngineOutcome
  import opened EngineMeasure

  /** A worker has claimed the job and not started it yet. */
  function Hold(runs: map<JobId, Phase>, j: JobId): nat { if j in runs && runs[j] == Holding then 1 else 0 }

  predicate IsOwner(jobs: Jobs, runs: map<JobId, Phase>, letters: set<JobId>, j: JobId) {
    j < |jobs| && (Active(jobs[j]) || j in runs || j in letters)
  }

  /** Handlers started so far, counted against the retries used up and the attempts of the present job. */
  ghost predicate TaskStarts(c: Settings, s: Sys, n: Name)
    requires Rows(s.db.ex) && s.starts.Keys == s.db.ex.state.Keys && n in s.db.ex.state
  {
    var ex := s.db.ex;
    && s.starts[n] <= (ex.config[n].maxRetries + 1) * c.maxAttempts
    && (ex.state[n] == Pending ==> s.starts[n] == 0 && ex.retries[n] == 0)
    && (Underway(s, n) ==> ex.retries[n] <= ex.config[n].maxRetries)
    && (forall j: JobId :: Underway(s, n) && IsOwner(s.db.jobs, s.runs, s.letters, j) && s.db.jobs[j].task == n ==>
          s.starts[n] + Hold(s.runs, j) <= ex.retries[n] * c.maxAttempts + s.db.jobs[j].attempts)
  }

  ghost predicate StartsOk(c: Settings, s: Sys)
    requires Rows(s.db.ex) && s.starts.Keys == s.db.ex.state.Keys
  {
    forall n :: n in s.db.ex.state ==> TaskStarts(c, s, n)
  }

  /** How a step treats the jobs: nobody starts owning an old job, every start uses up a claim, new jobs are fresh
      and for tasks that were pending or are tried again. */
  ghost predicate Flow(s: Sys, jobs: Jobs, runs: map<JobId, Phase>, letters: set<JobId>, started: set<JobId>,
                       again: set<Name>) {
    && |s.db.jobs| <= |jobs|
    && (forall j: JobId :: j < |s.db.jobs| ==> OldFlow(s, jobs, runs, letters, started, j))
    && (forall j: JobId :: |s.db.jobs| <= j < |jobs| ==>
      jobs[j].attempts == 0 && j !in runs && j !in letters && ForThis(s.db.ex.state, jobs[j], again))
  }

  predicate OldFlow(s: Sys, jobs: Jobs, runs: map<JobId, Phase>, letters: set<JobId>, started: set<JobId>, j: JobId)
    requires j < |s.db.jobs| <= |jobs|
  {
    && jobs[j].task == s.db.jobs[j].task
    && (IsOwner(jobs, runs, letters, j) ==> IsOwner(s.db.jobs, s.runs, s.letters, j))
    && s.db.jobs[j].attempts + Hold(runs, j) + (if j in started then 1 else 0) <= jobs[j].attempts + Hold(s.runs, j)
  }

  /** New jobs are for pending tasks or for those tried again. */
  ghost predicate ForThese(st: States, added: Jobs, again: set<Name>) {
    forall i :: 0 <= i < |added| ==> ForThis(st, added[i], again)
  }

  predicate ForThis(st: States, job: Job, again: set<Name>) {
    job.task in again || (job.task in st && st[job.task] == Pending)
  }

  /** Runs and letters speak of jobs in the table. */
  ghost predicate InTable(s: Sys) {
    (forall j :: j in s.runs ==> j < |s.db.jobs|) && (forall j :: j in s.letters ==> j < |s.db.jobs|)
  }

  lemma AckFlow(s: Sys, j: JobId, now: Time, added: Jobs, maxAttempts: nat, again: set<Name>)
    requires j in s.runs && j < |s.db.jobs| && InTable(s) && FreshJobs(added, maxAttempts)
      && ForThese(s.db.ex.state, added, again)
    ensures Flow(s, Acknowledge(s.db.jobs, j, now) + added, s.runs - {j}, s.letters, {}, again)
  {
  }

  /** The task tried again after a failed attempt. */
  function Again(ex: Execution, n: Name, ok: bool): set<Name>
    requires n in ex.config && n in ex.retries
  {
    if Succeeds(ex, n, ok) || ex.config[n].allowFailure then {} else {n}
  }

  lemma FinishAdds(db: Db, j: JobId, ok: bool, now: Time, maxAttempts: nat) returns (added: Jobs)
    requires Rows(db.ex) && OwnJob(db, j) && !db.ex.cancellationRequested && db.ex.state[db.jobs[j].task] == Running
    ensures FreshJobs(added, maxAttempts) && ForThese(db.ex.state, added, Again(db.ex, db.jobs[j].task, ok))
    ensures E.Finish(db, j, ok, now, maxAttempts).jobs == Acknowledge(db.jobs, j, now) + added
  {
    var ex, n := db.ex, db.jobs[j].task;
    assert n in ex.config && n in ex.retries;
    hide Rows, Complete, E.Retry, E.Exhaust, Succeeds, Acknowledge, E.Finish, FreshJobs;
    FinishIs(db, j, ok, now, maxAttempts);
    if Succeeds(ex, n, ok) || ex.config[n].allowFailure {
      added := CompleteAdds(db, j, now, maxAttempts);
    } else if ex.retries[n] + 1 <= ex.config[n].maxRetries {
      added := RetryAdds(db, j, now, maxAttempts);
      RetryAddsFor(db, j, now, maxAttempts);
    } else {
      added := [];
      ExhaustAdds(db, j, now, maxAttempts);
    }
  }

  lemma RetryAddsFor(db: Db, j: JobId, now: Time, maxAttempts: nat)
    requires Rows(db.ex) && OwnJob(db, j)
    ensures forall added: Jobs :: E.Retry(db, j, now, maxAttempts).jobs == Acknowledge(db.jobs, j, now) + added ==>
      ForThese(db.ex.state, added, {db.jobs[j].task})
  {
    hide Rows, Acknowledge, Backoff;
    forall added: Jobs | E.Retry(db, j, now, maxAttempts).jobs == Acknowledge(db.jobs, j, now) + added
      ensures ForThese(db.ex.state, added, {db.jobs[j].task})
    {
      forall i | 0 <= i < |added| ensures added[i].task == db.jobs[j].task {
        assert added[i] == (Acknowledge(db.jobs, j, now) + added)[|Acknowledge(db.jobs, j, now)| + i];
      }
    }
  }

  lemma ExhaustAdds(db: Db, j: JobId, now: Time, maxAttempts: nat)
    requires Rows(db.ex) && OwnJob(db, j)
    ensures E.Exhaust(db, j, now).jobs == Acknowledge(db.jobs, j, now) + [] && FreshJobs([], maxAttempts)
      && forall again :: ForThese(db.ex.state, [], again)
  {
    hide Rows, FailTask, Acknowledge;
  }

  lemma CompleteAdds(db: Db, j: JobId, now: Time, maxAttempts: nat) returns (added: Jobs)
    requires Rows(db.ex) && OwnJob(db, j) && !db.ex.cancellationRequested
    ensures FreshJobs(added, maxAttempts) && ForThese(db.ex.state, added, {})
    ensures Complete(db, j, now, maxAttempts).jobs == Acknowledge(db.jobs, j, now) + added
  {
    SetStateRows(db.ex, db.jobs[j].task, Success);
    hide Rows, EnqueueReady, FreshJobs, Acknowledge, Refresh, JobCost, TaskTotal, FewerPending;
    added := ReadyPays(Db(SetState(db.ex, db.jobs[j].task, Success), Acknowledge(db.jobs, j, now)), now, maxAttempts);
  }

  /** The job whose handler a step starts. */
  predicate StartsJob(s: Sys, step: Step) { step.Start? && OwnJob(s.db, step.j) && Starts(s.db, step.j) }

  function Started(s: Sys, step: Step): set<JobId> { if StartsJob(s, step) then {step.j} else {} }

  function Retried(s: Sys, step: Step): set<Name>
    requires Rows(s.db.ex)
  {
    if step.Finish? && OwnJob(s.db, step.j) then Again(s.db.ex, s.db.jobs[step.j].task, step.ok) else {}
  }

  lemma StepFlow(c: Settings, s: Sys, step: Step)
    requires Rows(s.db.ex) && s.starts.Keys == s.db.ex.state.Keys && Enabled(s, step) && InTable(s)
    requires !s.db.ex.cancellationRequested && !step.Cancel?
    requires step.Finish? ==> s.db.ex.state[s.db.jobs[step.j].task] == Running
    requires step.Deliver? ==> s.letters >= s.buffer
    requires step.ReapLeases? ==> InTable(s)
    ensures var s' := Apply(c, s, step); Flow(s, s'.db.jobs, s'.runs, s'.letters, Started(s, step), Retried(s, step))
  {
    hide Rows, Flow, StepFrame, InTable;
    match step
    case Finish(j, ok, now) =>
      hide E.Finish, Acknowledge;
      var added := FinishAdds(s.db, j, ok, now, c.maxAttempts);
      hide FreshJobs, ForThese, Again;
      AckFlow(s, j, now, added, c.maxAttempts, Retried(s, step));
    case Skip(n, now) => SkipFlow(c, s, n, now);
    case Start(j, now) => StartFlow(s, j, now);
    case _ => PlainFlow(c, s, step);
  }

  lemma SkipFlow(c: Settings, s: Sys, n: Name, now: Time)
    requires Rows(s.db.ex) && MaySkip(s.db.ex, n) && !s.db.ex.cancellationRequested && InTable(s)
    ensures Flow(s, SkipTask(s.db, n, now, c.maxAttempts).jobs, s.runs, s.letters, {}, {})
  {
    hide Rows, TaskTotal, JobCost, SkipTask, InTable, FreshJobs, Flow, ForPending;
    var added := SkipTasks(c.maxAttempts, s.db, n, now);
    CancelTaskFlow(s, n, now, added, c.maxAttempts);
  }

  lemma CancelTaskFlow(s: Sys, n: Name, now: Time, added: Jobs, maxAttempts: nat)
    requires InTable(s) && FreshJobs(added, maxAttempts) && ForPending(s.db.ex.state, added)
    ensures Flow(s, CancelTaskJobs(s.db.jobs, s.db.ex.id, n, now) + added, s.runs, s.letters, {}, {})
  {
  }

  lemma StartFlow(s: Sys, j: JobId, now: Time)
    requires Rows(s.db.ex) && Enabled(s, Step.Start(j, now)) && s.db.jobs[j].task in s.starts && InTable(s)
    ensures var s' := AfterStart(s, j, now);
      Flow(s, s'.db.jobs, s'.runs, s'.letters, Started(s, Step.Start(j, now)), {})
  {
    hide Rows, StatusOf, StepFrame;
  }

  lemma PlainFlow(c: Settings, s: Sys, step: Step)
    requires Rows(s.db.ex) && s.starts.Keys == s.db.ex.state.Keys && Enabled(s, step) && InTable(s)
    requires !s.db.ex.cancellationRequested && !step.Cancel? && !step.Finish? && !step.Skip? && !step.Start?
    ensures var s' := Apply(c, s, step); Flow(s, s'.db.jobs, s'.runs, s'.letters, {}, {})
  {
    hide Rows, StatusOf, StepFrame, HandleDeadLetter;
  }

  function OneMore(counts: map<Name, nat>, n: Name): map<Name, nat>
    requires n in counts
  {
    counts[n := counts[n] + 1]
  }

  /** What one step does to a task, as far as counting starts is concerned. */
  lemma StepCounts(c: Settings, s: Sys, step: Step)
    requires Rows(s.db.ex) && s.starts.Keys == s.db.ex.state.Keys && Enabled(s, step)
    requires !s.db.ex.cancellationRequested && !step.Cancel?
    ensures var s' := Apply(c, s, step);
      && s'.starts == (if StartsJob(s, step) then OneMore(s.starts, s.db.jobs[step.j].task) else s.starts)
      && s'.db.ex.retries == (if Retried(s, step) != {} then OneMore(s.db.ex.retries, s.db.jobs[step.j].task)
        else s.db.ex.retries)
  {
    hide Rows, StatusOf, E.Finish, E.Start, FinishStopped, SkipTask, HandleDeadLetter, StepFrame, Succeeds;
    if step.Skip? {
      SkipRetries(s.db, step.n, step.now, c.maxAttempts);
    } else {
      StepRetries(c, s, step);
    }
  }

  lemma SkipRetries(db: Db, n: Name, now: Time, maxAttempts: nat)
    requires Rows(db.ex) && MaySkip(db.ex, n)
    ensures SkipTask(db, n, now, maxAttempts).ex.retries == db.ex.retries
  {
    hide Rows, EnqueueReady, StatusOf, CancelTaskJobs;
    SetStateRows(db.ex, n, Skipped);
    EnqueueReadyRetries(Db(SetState(db.ex, n, Skipped), CancelTaskJobs(db.jobs, db.ex.id, n, now)), now, maxAttempts);
  }

  /** A task the step is not about, seen before and after. */
  lemma StartsElsewhere(c: Settings, s: Sys, s': Sys, n: Name, started: set<JobId>, again: set<Name>)
    requires Rows(s.db.ex) && s.starts.Keys == s.db.ex.state.Keys && Rows(s'.db.ex)
      && s'.starts.Keys == s'.db.ex.state.Keys
    requires n in s.db.ex.state && n in s'.db.ex.state && SameDefinitions(s.db.ex, s'.db.ex) && TaskStarts(c, s, n)
    requires Flow(s, s'.db.jobs, s'.runs, s'.letters, started, again)
    requires s'.starts[n] == s.starts[n] && s'.db.ex.retries[n] == s.db.ex.retries[n]
    requires s'.db.ex.state[n] == Pending ==> s.db.ex.state[n] == Pending
    requires Underway(s', n) ==> Underway(s, n) || s.db.ex.state[n] == Pending
    requires s.db.ex.state[n] == Pending ==> forall j :: 0 <= j < |s.db.jobs| ==> s.db.jobs[j].task != n
    requires n !in again
    ensures TaskStarts(c, s', n)
  {
    forall j: JobId | Underway(s', n) && IsOwner(s'.db.jobs, s'.runs, s'.letters, j) && s'.db.jobs[j].task == n
      ensures s'.starts[n] + Hold(s'.runs, j) <= s'.db.ex.retries[n] * c.maxAttempts + s'.db.jobs[j].attempts
    {
      if j < |s.db.jobs| {
        assert OldFlow(s, s'.db.jobs, s'.runs, s'.letters, started, j);
      } else {
        assert ForThis(s.db.ex.state, s'.db.jobs[j], again);
      }
    }
  }

  /** The task whose handler is started. */
  lemma StartsHere(c: Settings, s: Sys, s': Sys, n: Name, j: JobId, again: set<Name>)
    requires Rows(s.db.ex) && s.starts.Keys == s.db.ex.state.Keys && Rows(s'.db.ex)
      && s'.starts.Keys == s'.db.ex.state.Keys
    requires n in s.db.ex.state && n in s'.db.ex.state && SameDefinitions(s.db.ex, s'.db.ex) && TaskStarts(c, s, n)
    requires Flow(s, s'.db.jobs, s'.runs, s'.letters, {j}, again) && j < |s.db.jobs| && s.db.jobs[j].task == n
    requires s'.starts[n] == s.starts[n] + 1 && s'.db.ex.retries[n] == s.db.ex.retries[n]
    requires Underway(s, n) && s'.db.ex.state[n] == Running && IsOwner(s.db.jobs, s.runs, s.letters, j)
    requires s'.db.jobs[j].attempts <= c.maxAttempts
    requires forall k: JobId :: IsOwner(s'.db.jobs, s'.runs, s'.letters, k) && s'.db.jobs[k].task == n ==> k == j
    ensures TaskStarts(c, s', n)
  {
    assert OldFlow(s, s'.db.jobs, s'.runs, s'.letters, {j}, j);
    Multiply(s.db.ex.retries[n], s.db.ex.config[n].maxRetries, c.maxAttempts);
  }

  /** The task whose attempt failed and is tried again. */
  lemma StartsAgain(c: Settings, s: Sys, s': Sys, n: Name, j: JobId)
    requires Rows(s.db.ex) && s.starts.Keys == s.db.ex.state.Keys && Rows(s'.db.ex)
      && s'.starts.Keys == s'.db.ex.state.Keys
    requires n in s.db.ex.state && n in s'.db.ex.state && SameDefinitions(s.db.ex, s'.db.ex) && TaskStarts(c, s, n)
    requires s'.starts[n] == s.starts[n] && s'.db.ex.retries[n] == s.db.ex.retries[n] + 1
      && s.db.ex.retries[n] <= s.db.ex.config[n].maxRetries
    requires Underway(s, n) && IsOwner(s.db.jobs, s.runs, s.letters, j) && s.db.jobs[j].task == n
      && s.db.jobs[j].attempts <= c.maxAttempts
    requires s'.db.ex.state[n] != Pending && (Underway(s', n) ==> s'.db.ex.retries[n] <= s'.db.ex.config[n].maxRetries)
    requires forall k: JobId :: IsOwner(s'.db.jobs, s'.runs, s'.letters, k) && s'.db.jobs[k].task == n ==>
      Hold(s'.runs, k) == 0
    ensures TaskStarts(c, s', n)
  {
    Multiply(s.db.ex.retries[n], s.db.ex.config[n].maxRetries, c.maxAttempts);
    assert s.starts[n] <= s'.db.ex.retries[n] * c.maxAttempts;
  }

  lemma InvInTable(c: Settings, s: Sys)
    requires Inv(c, s)
    ensures Rows(s.db.ex) && s.starts.Keys == s.db.ex.state.Keys && Distinct(s.db.ex.order)
    ensures InTable(s) && s.letters >= s.buffer
      && forall j :: 0 <= j < |s.db.jobs| ==> s.db.jobs[j].attempts <= c.maxAttempts
  {
    hide ViewOk;
    forall j | 0 <= j < |s.db.jobs|
      ensures s.db.jobs[j].attempts <= c.maxAttempts { assert JobOk(c, s.db.ex.id, s.db.jobs[j]); }
  }

  /** At most one job can act for a task. */
  lemma OnlyOwner(c: Settings, s: Sys, j: JobId, k: JobId)
    requires Inv(c, s) && IsOwner(s.db.jobs, s.runs, s.letters, j) && IsOwner(s.db.jobs, s.runs, s.letters, k)
    requires s.db.jobs[j].task == s.db.jobs[k].task
    ensures j == k
  {
    hide Shape, JobsOk, RunsOk, LettersOk, Worked, DepsDone, CaredFor;
    var v := ViewOf(s);
    assert j in v.owners && k in v.owners && v.tasks[j] == v.tasks[k];
  }

  lemma StartingHere(c: Settings, s: Sys, step: Step)
    requires Rows(s.db.ex) && s.starts.Keys == s.db.ex.state.Keys && Enabled(s, step) && Inv(c, s)
      && Inv(c, Apply(c, s, step))
    requires !s.db.ex.cancellationRequested && StartsJob(s, step) && TaskStarts(c, s, s.db.jobs[step.j].task)
    ensures var n := s.db.jobs[step.j].task; n in Apply(c, s, step).db.ex.state && TaskStarts(c, Apply(c, s, step), n)
  {
    var s', n, j := Apply(c, s, step), s.db.jobs[step.j].task, step.j;
    hide Inv, Rows, Flow, TaskStarts, StepFrame, E.Start, StatusOf;
    InvInTable(c, s);
    InvInTable(c, s');
    StepFlow(c, s, step);
    StepCounts(c, s, step);
    OwnerFacts(c, s, j);
    StartRunning(c, s, step);
    StartLeaves(s, step);
    hide Apply, Enabled;
    forall k: JobId | IsOwner(s'.db.jobs, s'.runs, s'.letters, k) && s'.db.jobs[k].task == n ensures k == j {
      OnlyOwner(c, s', k, j);
    }
    StartsHere(c, s, s', n, j, Retried(s, step));
  }

  lemma StartLeaves(s: Sys, step: Step)
    requires Rows(s.db.ex) && Enabled(s, step) && StartsJob(s, step) && s.db.jobs[step.j].task in s.starts
    ensures var s', j := AfterStart(s, step.j, step.now), step.j;
      s'.db.jobs == s.db.jobs && IsOwner(s'.db.jobs, s'.runs, s'.letters, j) && IsOwner(s.db.jobs, s.runs, s.letters, j)
  {
    hide Rows, StepFrame;
  }

  lemma RetryingHere(c: Settings, s: Sys, step: Step)
    requires Rows(s.db.ex) && s.starts.Keys == s.db.ex.state.Keys && Enabled(s, step) && Inv(c, s)
      && Inv(c, Apply(c, s, step))
    requires !s.db.ex.cancellationRequested && Retried(s, step) != {} && TaskStarts(c, s, s.db.jobs[step.j].task)
    ensures var n := s.db.jobs[step.j].task; n in Apply(c, s, step).db.ex.state && TaskStarts(c, Apply(c, s, step), n)
  {
    var s', n, j := Apply(c, s, step), s.db.jobs[step.j].task, step.j;
    RetryingFacts(c, s, step);
    hide *;
    NobodyHolds(c, s, step);
    StartsAgain(c, s, s', n, j);
  }

  lemma RetryingFacts(c: Settings, s: Sys, step: Step)
    requires Rows(s.db.ex) && s.starts.Keys == s.db.ex.state.Keys && Enabled(s, step) && Inv(c, s)
    requires !s.db.ex.cancellationRequested && Retried(s, step) != {} && TaskStarts(c, s, s.db.jobs[step.j].task)
    ensures var s', n, j := Apply(c, s, step), s.db.jobs[step.j].task, step.j;
      && n in s.db.ex.state && n in s'.db.ex.state && StepFrame(s, s') && SameDefinitions(s.db.ex, s'.db.ex)
      && Rows(s'.db.ex) && s'.starts.Keys == s'.db.ex.state.Keys && s'.starts[n] == s.starts[n]
      && s'.db.ex.retries[n] == s.db.ex.retries[n] + 1 && s.db.ex.retries[n] <= s.db.ex.config[n].maxRetries
      && Underway(s, n) && IsOwner(s.db.jobs, s.runs, s.letters, j) && s.db.jobs[j].attempts <= c.maxAttempts
      && s'.db.ex.state[n] != Pending && (Underway(s', n) ==> s'.db.ex.retries[n] <= s'.db.ex.config[n].maxRetries)
      && step.Finish?
  {
    hide Inv, Rows, TaskStarts, Apply, Distinct, Succeeds;
    RetryingBefore(c, s, step);
    RetryingAfter(c, s, step);
    hide Enabled;
  }

  lemma RetryingBefore(c: Settings, s: Sys, step: Step)
    requires Rows(s.db.ex) && s.starts.Keys == s.db.ex.state.Keys && Enabled(s, step) && Inv(c, s)
    requires !s.db.ex.cancellationRequested && Retried(s, step) != {} && TaskStarts(c, s, s.db.jobs[step.j].task)
    ensures var n, j := s.db.jobs[step.j].task, step.j;
      && n in s.db.ex.state && n in s.db.ex.retries && n in s.db.ex.config && Distinct(s.db.ex.order)
      && s.db.ex.retries[n] <= s.db.ex.config[n].maxRetries
      && Underway(s, n) && IsOwner(s.db.jobs, s.runs, s.letters, j) && s.db.jobs[j].attempts <= c.maxAttempts
  {
    var n, j := s.db.jobs[step.j].task, step.j;
    assert n in s.db.ex.config && n in s.db.ex.retries;
    hide Inv, Rows, TaskStarts, Distinct;
    InvInTable(c, s);
    RunFacts(c, s, j);
    RetriesLeft(c, s, n);
  }

  lemma RetryingAfter(c: Settings, s: Sys, step: Step)
    requires Rows(s.db.ex) && s.starts.Keys == s.db.ex.state.Keys && Enabled(s, step) && Distinct(s.db.ex.order)
    requires !s.db.ex.cancellationRequested && Retried(s, step) != {}
    requires s.db.jobs[step.j].task in s.db.ex.retries && s.db.jobs[step.j].task in s.db.ex.config
      && s.db.jobs[step.j].task in s.db.ex.state
    ensures var s', n := Apply(c, s, step), s.db.jobs[step.j].task;
      && n in s'.db.ex.state && n in s'.db.ex.retries && n in s'.starts && StepFrame(s, s')
      && s'.starts[n] == s.starts[n] && s'.db.ex.retries[n] == s.db.ex.retries[n] + 1
      && s'.db.ex.state[n] != Pending && (Underway(s', n) ==> s'.db.ex.retries[n] <= s.db.ex.config[n].maxRetries)
  {
    hide Rows, Apply, Distinct, Enabled, Succeeds;
    StepCounts(c, s, step);
    RetryingMoves(c, s, step);
  }

  /** The worker that finishes was the only one at its task. */
  lemma NobodyHolds(c: Settings, s: Sys, step: Step)
    requires Rows(s.db.ex) && s.starts.Keys == s.db.ex.state.Keys && Enabled(s, step) && Inv(c, s)
    requires !s.db.ex.cancellationRequested && step.Finish?
    ensures var s', n := Apply(c, s, step), s.db.jobs[step.j].task;
      forall k: JobId :: IsOwner(s'.db.jobs, s'.runs, s'.letters, k) && s'.db.jobs[k].task == n ==>
        Hold(s'.runs, k) == 0
  {
    var s', n, j := Apply(c, s, step), s.db.jobs[step.j].task, step.j;
    assert s'.runs == s.runs - {j};
    OnlyRun(c, s, j);
    FlowOf(c, s, step);
    hide Inv, Rows, StepFrame, Apply, IsOwner, Enabled;
    forall k: JobId | IsOwner(s'.db.jobs, s'.runs, s'.letters, k) && s'.db.jobs[k].task == n
      ensures Hold(s'.runs, k) == 0 {
      if k < |s.db.jobs| { assert OldFlow(s, s'.db.jobs, s'.runs, s'.letters, Started(s, step), k); }
    }
  }

  lemma OnlyRun(c: Settings, s: Sys, j: JobId)
    requires Inv(c, s) && OwnJob(s.db, j) && j in s.runs
    ensures forall k :: k in s.runs && k < |s.db.jobs| && s.db.jobs[k].task == s.db.jobs[j].task ==> k == j
  {
    OwnerOf(c, s, j);
    InsideOnce(s, j);
  }

  lemma RetriesLeft(c: Settings, s: Sys, n: Name)
    requires Rows(s.db.ex) && s.starts.Keys == s.db.ex.state.Keys && n in s.db.ex.state && TaskStarts(c, s, n)
      && Underway(s, n)
    ensures s.db.ex.retries[n] <= s.db.ex.config[n].maxRetries
  {
  }

  lemma RetryingMoves(c: Settings, s: Sys, step: Step)
    requires Rows(s.db.ex) && s.starts.Keys == s.db.ex.state.Keys && Enabled(s, step) && Distinct(s.db.ex.order)
    requires !s.db.ex.cancellationRequested && Retried(s, step) != {}
    ensures var n, st' := s.db.jobs[step.j].task, Apply(c, s, step).db.ex.state;
      n in s.db.ex.state && n in st' && st'[n] == if s.db.ex.retries[n] + 1 <= s.db.ex.config[n].maxRetries
        then Enqueued else Failure
  {
    assert s.db.jobs[step.j].task in Acted(s, step);
    hide Rows, Distinct, Apply, Elsewhere, Succeeds;
    StepMoves(c, s, step);
    StepKeys(c, s, step);
  }

  /** A task neither started nor tried again by the step. */
  lemma MovingElsewhere(c: Settings, s: Sys, step: Step, n: Name)
    requires Rows(s.db.ex) && s.starts.Keys == s.db.ex.state.Keys && Enabled(s, step) && Distinct(s.db.ex.order)
    requires !s.db.ex.cancellationRequested && !step.Cancel? && n in s.db.ex.state
    requires (StartsJob(s, step) || Retried(s, step) != {}) ==> n != s.db.jobs[step.j].task
    ensures var s' := Apply(c, s, step);
      && n in s'.db.ex.state && (s'.db.ex.state[n] == Pending ==> s.db.ex.state[n] == Pending)
      && (Underway(s', n) ==> Underway(s, n) || s.db.ex.state[n] == Pending)
  {
    hide Rows, Distinct, Apply, Elsewhere, Succeeds, Sweeps;
    StepMoves(c, s, step);
    StepKeys(c, s, step);
    if n !in Acted(s, step) { MovedElsewhere(c, s, step, n); }
  }

  lemma MovedElsewhere(c: Settings, s: Sys, step: Step, n: Name)
    requires Rows(s.db.ex) && s.starts.Keys == s.db.ex.state.Keys && Enabled(s, step) && Distinct(s.db.ex.order)
    requires !s.db.ex.cancellationRequested && !step.Cancel? && n in s.db.ex.state && n !in Acted(s, step)
    ensures n in Apply(c, s, step).db.ex.state && Moved(s.db.ex.state[n], Apply(c, s, step).db.ex.state[n], false)
  {
    hide Rows, Distinct, Apply, Acted, ActedOk, Enabled;
    StepMoves(c, s, step);
  }

  lemma StepKeepsTaskStarts(c: Settings, s: Sys, step: Step, n: Name)
    requires Rows(s.db.ex) && s.starts.Keys == s.db.ex.state.Keys && Enabled(s, step) && Inv(c, s)
      && Inv(c, Apply(c, s, step))
    requires !s.db.ex.cancellationRequested && !step.Cancel? && n in s.db.ex.state && TaskStarts(c, s, n)
    ensures n in Apply(c, s, step).db.ex.state && TaskStarts(c, Apply(c, s, step), n)
  {
    InvInTable(c, s);
    hide Inv, Rows, TaskStarts, StepFrame, Distinct, Apply, Flow;
    if StartsJob(s, step) && n == s.db.jobs[step.j].task {
      StartingHere(c, s, step);
    } else if Retried(s, step) != {} && n == s.db.jobs[step.j].task {
      RetryingHere(c, s, step);
    } else {
      FlowOf(c, s, step);
      PendingHasNoJob(c, s, n);
      hide Enabled, Starts, Again;
      OtherTaskStarts(c, s, step, n);
    }
  }

  lemma OtherTaskStarts(c: Settings, s: Sys, step: Step, n: Name)
    requires Rows(s.db.ex) && s.starts.Keys == s.db.ex.state.Keys && Enabled(s, step) && Distinct(s.db.ex.order)
    requires !s.db.ex.cancellationRequested && !step.Cancel? && n in s.db.ex.state && TaskStarts(c, s, n)
    requires (StartsJob(s, step) || Retried(s, step) != {}) ==> n != s.db.jobs[step.j].task
    requires var s' := Apply(c, s, step); Flow(s, s'.db.jobs, s'.runs, s'.letters, Started(s, step), Retried(s, step))
    requires s.db.ex.state[n] == Pending ==> forall j :: 0 <= j < |s.db.jobs| ==> s.db.jobs[j].task != n
    ensures n in Apply(c, s, step).db.ex.state && TaskStarts(c, Apply(c, s, step), n)
  {
    CountsElsewhere(c, s, step, n);
    hide *;
    MovingElsewhere(c, s, step, n);
    StartsElsewhere(c, s, Apply(c, s, step), n, Started(s, step), Retried(s, step));
  }

  lemma CountsElsewhere(c: Settings, s: Sys, step: Step, n: Name)
    requires Rows(s.db.ex) && s.starts.Keys == s.db.ex.state.Keys && Enabled(s, step)
    requires !s.db.ex.cancellationRequested && !step.Cancel? && n in s.db.ex.state && n in s.db.ex.retries
    requires (StartsJob(s, step) || Retried(s, step) != {}) ==> n != s.db.jobs[step.j].task
    ensures var s' := Apply(c, s, step);
      && n in s'.starts && s'.starts[n] == s.starts[n]
      && n in s'.db.ex.retries && s'.db.ex.retries[n] == s.db.ex.retries[n]
      && n !in Retried(s, step)
  {
    StepCounts(c, s, step);
    hide Rows, Apply, Enabled, Starts, Succeeds;
  }

  lemma FlowOf(c: Settings, s: Sys, step: Step)
    requires Rows(s.db.ex) && s.starts.Keys == s.db.ex.state.Keys && Enabled(s, step) && Inv(c, s)
    requires !s.db.ex.cancellationRequested && !step.Cancel?
    ensures var s' := Apply(c, s, step);
      && Flow(s, s'.db.jobs, s'.runs, s'.letters, Started(s, step), Retried(s, step)) && StepFrame(s, s')
  {
    InvInTable(c, s);
    hide Inv, Rows, Flow, Apply, Distinct, StepFrame;
    if step.Finish? { RunFacts(c, s, step.j); }
    StepFlow(c, s, step);
  }

  lemma PendingHasNoJob(c: Settings, s: Sys, n: Name)
    requires Inv(c, s) && !s.db.ex.cancellationRequested
    ensures n in s.db.ex.state && s.db.ex.state[n] == Pending ==> forall j :: 0 <= j < |s.db.jobs| ==>
      s.db.jobs[j].task != n
  {
    WorkIsOwned(c, s);
    hide Core, Settled, Outstanding;
  }

  lemma SpawnedStarts(c: Settings, ex: Execution, t0: Time)
    requires Rows(ex) && Fresh(ex) && c.maxAttempts >= 1 && Rows(Spawned(c, ex, t0).db.ex)
      && Spawned(c, ex, t0).db.ex.state.Keys == ex.state.Keys
    ensures StartsOk(c, Spawned(c, ex, t0))
  {
    EnqueueReadyRetries(Db(ex, []), t0, c.maxAttempts);
    hide EnqueueReady, Known, Acyclic, Distinct, TaskStarts, Rows;
    forall n | n in ex.state ensures TaskStarts(c, Spawned(c, ex, t0), n) {
      NothingStarted(c, Spawned(c, ex, t0), n);
    }
  }

  lemma NothingStarted(c: Settings, s: Sys, n: Name)
    requires Rows(s.db.ex) && s.starts.Keys == s.db.ex.state.Keys && n in s.db.ex.state
    requires s.starts[n] == 0 && s.db.ex.retries[n] == 0 && s.runs == map[]
    ensures TaskStarts(c, s, n)
  {
    assert 0 <= (s.db.ex.config[n].maxRetries + 1) * c.maxAttempts;
  }

  lemma StepKeepsStarts(c: Settings, s: Sys, step: Step)
    requires Rows(s.db.ex) && s.starts.Keys == s.db.ex.state.Keys && Enabled(s, step) && Inv(c, s)
    requires !s.db.ex.cancellationRequested && !step.Cancel? && StartsOk(c, s)
    ensures StartsOk(c, Apply(c, s, step))
  {
    hide Inv, Apply, Rows, Enabled, TaskStarts;
    StepKeepsInv(c, s, step);
    InvInTable(c, s);
    StepKeys(c, s, step);
    forall n | n in Apply(c, s, step).db.ex.state ensures TaskStarts(c, Apply(c, s, step), n) {
      StepKeepsTaskStarts(c, s, step, n);
    }
  }

  lemma {:induction false} RunStarts(c: Settings, ex: Execution, t0: Time, states: seq<Sys>, steps: seq<Step>, i: nat)
    requires IsRun(c, ex, t0, states, steps) && NoCancel(steps) && i < |states|
    ensures Rows(states[i].db.ex) && states[i].starts.Keys == states[i].db.ex.state.Keys && StartsOk(c, states[i])
  {
    hide Inv, Apply, Rows, Enabled, StartsOk, Fresh, Spawned, Distinct, InTable;
    RunKeepsInv(c, ex, t0, states, steps, i);
    InvInTable(c, states[i]);
    if i == 0 {
      SpawnedRows(c, ex, t0);
      SpawnedStarts(c, ex, t0);
    } else {
      RunStarts(c, ex, t0, states, steps, i - 1);
      RunKeepsInv(c, ex, t0, states, steps, i - 1);
      UncancelledRun(c, ex, t0, states, steps, i - 1);
      assert Legal(c, states[i - 1], steps[i - 1], states[i]);
      StepKeepsStarts(c, states[i - 1], steps[i - 1]);
    }
  }

  lemma SpawnedRows(c: Settings, ex: Execution, t0: Time)
    requires Rows(ex)
    ensures Rows(Spawned(c, ex, t0).db.ex) && Spawned(c, ex, t0).db.ex.state.Keys == ex.state.Keys
  {
    hide EnqueueReady;
    assert Spawned(c, ex, t0).db.ex.order == ex.order;
  }

  /** In every run without a cancellation, however often workers crash, a task's handler starts at most once per attempt
      of each of its permitted tries. */
  lemma StartsAreBounded(c: Settings, ex: Execution, t0: Time, states: seq<Sys>, steps: seq<Step>, i: nat, n: Name)
    requires IsRun(c, ex, t0, states, steps) && NoCancel(steps) && i < |states| && n in ex.config
    ensures n in states[i].starts && states[i].starts[n] <= (ex.config[n].maxRetries + 1) * c.maxAttempts
  {
    hide IsRun, Core, Rows, StartsOk;
    RunStarts(c, ex, t0, states, steps, i);
    RunCore(c, ex, t0, states, steps, i);
    StartsBound(c, states[i], n);
  }

  lemma StartsBound(c: Settings, s: Sys, n: Name)
    requires Rows(s.db.ex) && s.starts.Keys == s.db.ex.state.Keys && StartsOk(c, s) && n in s.db.ex.config
    ensures n in s.starts && s.starts[n] <= (s.db.ex.config[n].maxRetries + 1) * c.maxAttempts
  {
    assert n in s.db.ex.state;
    hide Rows;
    assert TaskStarts(c, s, n);
  }
}
