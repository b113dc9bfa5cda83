/** Safety of whole runs: dependencies, ownership of work, cancellation. */
module EngineSafety {
  import opened Dag
  import opened Q = QueueRecords
  import opened E = ExecutionState
  import opened Engine
  import opened EngineCore
  import opened EngineInv
  import opened EngineMoves
  import opened Readiness

  // ---- the job table only grows ----

  ghost predicate Grows(jobs: Jobs, jobs': Jobs) {
    |jobs| <= |jobs'| && forall k :: 0 <= k < |jobs| ==> jobs'[k].task == jobs[k].task
  }

  lemma EnqueueReadyGrows(db: Db, now: Time, maxAttempts: nat)
    requires Rows(db.ex) && Distinct(db.ex.order)
    ensures Grows(db.jobs, EnqueueReady(db, now, maxAttempts).jobs)
  {
    PassQueuesReady(db, db.ex.order, now, maxAttempts);
    hide EnqueueAll, StatusOf, Rows, FirstJobs, ReadyNames, Decided, Distinct;
  }

  lemma GrowsThen(a: Jobs, b: Jobs, c: Jobs)
    requires Grows(a, b) && Grows(b, c)
    ensures Grows(a, c)
  {
  }

  lemma CompleteGrows(db: Db, j: JobId, now: Time, maxAttempts: nat)
    requires Rows(db.ex) && OwnJob(db, j) && Distinct(db.ex.order)
    ensures Grows(db.jobs, Complete(db, j, now, maxAttempts).jobs)
  {
    var n := db.jobs[j].task;
    SetStateRows(db.ex, n, Success);
    var done := Db(SetState(db.ex, n, Success), Acknowledge(db.jobs, j, now));
    assert Grows(db.jobs, done.jobs);
    hide Grows, Rows, Distinct, EnqueueReady, StatusOf, Acknowledge;
    EnqueueReadyGrows(done, now, maxAttempts);
    GrowsThen(db.jobs, done.jobs, EnqueueReady(done, now, maxAttempts).jobs);
  }

  lemma SkipGrows(db: Db, n: Name, now: Time, maxAttempts: nat)
    requires Rows(db.ex) && MaySkip(db.ex, n) && Distinct(db.ex.order)
    ensures Grows(db.jobs, SkipTask(db, n, now, maxAttempts).jobs)
  {
    SetStateRows(db.ex, n, Skipped);
    var skipped := Db(SetState(db.ex, n, Skipped), CancelTaskJobs(db.jobs, db.ex.id, n, now));
    assert Grows(db.jobs, skipped.jobs);
    hide Grows, Rows, Distinct, EnqueueReady, StatusOf, CancelTaskJobs;
    EnqueueReadyGrows(skipped, now, maxAttempts);
    GrowsThen(db.jobs, skipped.jobs, EnqueueReady(skipped, now, maxAttempts).jobs);
  }

  lemma AckGrows(db: Db, j: JobId, now: Time, maxAttempts: nat)
    requires Rows(db.ex) && OwnJob(db, j)
    ensures Grows(db.jobs, Acknowledge(db.jobs, j, now))
    ensures Grows(db.jobs, E.Retry(db, j, now, maxAttempts).jobs)
    ensures Grows(db.jobs, E.Exhaust(db, j, now).jobs) && Grows(db.jobs, FinishStopped(db, j, now).jobs)
  {
    hide StatusOf, FailTask, Rows, NewJob, Backoff;
  }

  lemma StepGrows(c: Settings, s: Sys, step: Step)
    requires Rows(s.db.ex) && s.starts.Keys == s.db.ex.state.Keys && Enabled(s, step) && Distinct(s.db.ex.order)
    ensures Grows(s.db.jobs, Apply(c, s, step).db.jobs)
  {
    hide Rows, Distinct, StatusOf, Complete, E.Retry, E.Exhaust, FinishStopped, SkipTask, HandleDeadLetter,
      Acknowledge, Succeeds, StepFrame;
    match step
    case Finish(j, ok, now) => CompleteGrows(s.db, j, now, c.maxAttempts); AckGrows(s.db, j, now, c.maxAttempts);
    case Interrupt(j, now) => AckGrows(s.db, j, now, c.maxAttempts);
    case Start(j, now) => AckGrows(s.db, j, now, c.maxAttempts);
    case Skip(n, now) => SkipGrows(s.db, n, now, c.maxAttempts);
    case _ =>
  }

  // ---- who gets inside ----

  lemma InsideFewer(jobs: Jobs, runs: map<JobId, Phase>, jobs': Jobs, runs': map<JobId, Phase>, extra: set<Name>)
    requires Grows(jobs, jobs') && forall k :: k in runs ==> k < |jobs|
    requires forall k :: k in runs' && runs'[k] == Inside ==>
      (k in runs && runs[k] == Inside) || (k < |jobs| && jobs[k].task in extra)
    ensures InsideTasks(jobs', runs') <= InsideTasks(jobs, runs) + extra
  {
    forall n | n in InsideTasks(jobs', runs') ensures n in InsideTasks(jobs, runs) + extra {
      var k :| k in runs' && k < |jobs'| && runs'[k] == Inside && jobs'[k].task == n;
      assert jobs[k].task == n;
    }
  }

  /** A worker gets inside a task only by starting it. */
  lemma StepInside(c: Settings, s: Sys, step: Step)
    requires Rows(s.db.ex) && s.starts.Keys == s.db.ex.state.Keys && Enabled(s, step) && Core(c, s)
    ensures ViewOf(Apply(c, s, step)).inside <= ViewOf(s).inside +
      (if step.Start? && Starts(s.db, step.j) then {s.db.jobs[step.j].task} else {})
  {
    var s' := Apply(c, s, step);
    assert Distinct(s.db.ex.order) && forall k :: k in s.runs ==> k < |s.db.jobs|;
    StepGrows(c, s, step);
    RunsAfter(c, s, step);
    hide Core, Apply, Grows, InsideTasks, Owners, TasksOf;
    InsideFewer(s.db.jobs, s.runs, s'.db.jobs, s'.runs,
                if step.Start? && Starts(s.db, step.j) then {s.db.jobs[step.j].task} else {});
  }

  lemma RunsAfter(c: Settings, s: Sys, step: Step)
    requires Rows(s.db.ex) && s.starts.Keys == s.db.ex.state.Keys && Enabled(s, step)
    ensures var runs' := Apply(c, s, step).runs;
      forall k :: k in runs' && runs'[k] == Inside ==>
        (k in s.runs && s.runs[k] == Inside) || (step.Start? && Starts(s.db, step.j) && k == step.j)
  {
    hide Rows, StatusOf, E.Finish, E.Start, FinishStopped, SkipTask, CancelExecution, HandleDeadLetter, RequeueStale,
      DeadLetters, StepFrame, Q.Claim;
  }

  // ---- dependency safety ----

  /** A step about a satisfied task leaves it alone, unless a worker is inside. */
  lemma ActedSatisfied(c: Settings, s: Sys, step: Step, d: Name)
    requires Rows(s.db.ex) && Enabled(s, step) && d in Acted(s, step) && d in s.db.ex.state
      && Satisfied(s.db.ex.state[d])
    requires d !in ViewOf(s).inside
    ensures forall x :: ActedOk(s, step, s.db.ex.state[d], x) ==> x == s.db.ex.state[d]
    ensures step.Start? ==> !Starts(s.db, step.j)
  {
    hide Rows;
  }

  /** A satisfied task nobody is inside stays as it is. */
  lemma StepKeepsDone(c: Settings, s: Sys, step: Step, d: Name)
    requires Rows(s.db.ex) && s.starts.Keys == s.db.ex.state.Keys && Enabled(s, step) && Core(c, s)
      && Done(ViewOf(s), d)
    ensures Apply(c, s, step).db.ex.state[d] == s.db.ex.state[d] && Done(ViewOf(Apply(c, s, step)), d)
  {
    hide Known, Acyclic, JobsOk, RunsOk, LettersOk, ViewOk, Rows, Distinct, StepFrame, Apply, Enabled, ActedOk,
      InsideTasks, Owners, TasksOf, OwnJob, Starts;
    StepMoves(c, s, step);
    StepInside(c, s, step);
    if d in Acted(s, step) {
      ActedSatisfied(c, s, step, d);
    }
    if step.Start? { StartActs(s, step); }
  }

  lemma StartActs(s: Sys, step: Step)
    requires Rows(s.db.ex) && Enabled(s, step) && step.Start?
    ensures Acted(s, step) == {s.db.jobs[step.j].task}
  {
  }

  lemma {:induction false} RunKeepsDone(c: Settings, ex: Execution, t0: Time, states: seq<Sys>, steps: seq<Step>,
                                        i: nat, k: nat, d: Name)
    requires IsRun(c, ex, t0, states, steps) && i <= k < |states| && Done(ViewOf(states[i]), d)
    ensures Done(ViewOf(states[k]), d) && states[k].db.ex.state[d] == states[i].db.ex.state[d]
  {
    hide Fresh, Inv, Core, Rows, Apply, Spawned, InsideTasks, Owners, TasksOf, Enabled;
    if i < k {
      RunKeepsDone(c, ex, t0, states, steps, i, k - 1, d);
      RunCore(c, ex, t0, states, steps, k - 1);
      assert Legal(c, states[k - 1], steps[k - 1], states[k]);
      StepKeepsDone(c, states[k - 1], steps[k - 1], d);
    }
  }

  lemma RunCore(c: Settings, ex: Execution, t0: Time, states: seq<Sys>, steps: seq<Step>, i: nat)
    requires IsRun(c, ex, t0, states, steps) && i < |states|
    ensures Core(c, states[i]) && states[i].db.ex.graph == ex.graph && states[i].db.ex.config == ex.config
  {
    RunKeepsInv(c, ex, t0, states, steps, i);
    hide Core, IsRun, Settled;
  }

  /** In every state of every run, whatever crashed, was cancelled or skipped: the dependencies of a task that is
      queued, running or successful, or that ever had a job, are satisfied, and they stay so to the end of the run. */
  lemma DependencySafety(c: Settings, ex: Execution, t0: Time, states: seq<Sys>, steps: seq<Step>, i: nat, k: nat,
                         n: Name, d: Name)
    requires IsRun(c, ex, t0, states, steps) && i <= k < |states| && n in ex.graph && d in ex.graph[n]
    requires n in TasksOf(states[i].db.jobs) || (n in states[i].db.ex.state &&
      (states[i].db.ex.state[n] == Enqueued || states[i].db.ex.state[n] == Running
        || states[i].db.ex.state[n] == Success))
    ensures d in states[i].db.ex.state && Satisfied(states[i].db.ex.state[d])
    ensures d in states[k].db.ex.state && states[k].db.ex.state[d] == states[i].db.ex.state[d]
  {
    RunCore(c, ex, t0, states, steps, i);
    DepsAreDone(c, states[i], n, d);
    hide IsRun, Core, ViewOf;
    RunKeepsDone(c, ex, t0, states, steps, i, k, d);
  }

  lemma DepsAreDone(c: Settings, s: Sys, n: Name, d: Name)
    requires Core(c, s) && n in s.db.ex.graph && d in s.db.ex.graph[n]
    requires n in ViewOf(s).tasks || (n in s.db.ex.state &&
      (s.db.ex.state[n] == Enqueued || s.db.ex.state[n] == Running || s.db.ex.state[n] == Success))
    ensures Done(ViewOf(s), d)
  {
    hide Shape, JobsOk, RunsOk, LettersOk, InsideTasks, Owners, TasksOf;
    var v := ViewOf(s);
    assert n in v.tasks;
  }

  // ---- when a satisfied state is left ----

  /** The step takes the task out of the state it is in. */
  ghost predicate Leaves(c: Settings, s: Sys, step: Step, d: Name) {
    && Rows(s.db.ex) && s.starts.Keys == s.db.ex.state.Keys && Enabled(s, step)
    && var st' := Apply(c, s, step).db.ex.state; d in s.db.ex.state && d in st' && st'[d] != s.db.ex.state[d]
  }

  /** A worker inside a satisfied task can be interrupted, which cancels the task. */
  lemma InsideLeaves(c: Settings, s: Sys, d: Name) returns (step: Step)
    requires Rows(s.db.ex) && s.starts.Keys == s.db.ex.state.Keys && Core(c, s)
    requires d in s.db.ex.state && Satisfied(s.db.ex.state[d]) && d in ViewOf(s).inside
    ensures Leaves(c, s, step, d)
  {
    if !s.db.ex.cancellationRequested {
      NotInside(c, s, d);
      assert false;
    }
    hide Core, Rows;
    var j :| j in s.runs && j < |s.db.jobs| && s.runs[j] == Inside && s.db.jobs[j].task == d;
    step := Step.Interrupt(j, 0.0);
    assert Enabled(s, step);
    InterruptStops(c, s, step);
    hide Apply, Enabled;
  }

  lemma InterruptStops(c: Settings, s: Sys, step: Step)
    requires Rows(s.db.ex) && s.starts.Keys == s.db.ex.state.Keys && Enabled(s, step) && step.Interrupt?
    ensures var d, st' := s.db.jobs[step.j].task, Apply(c, s, step).db.ex.state; d in st' && st'[d] == Stopped
  {
    hide Rows, StatusOf, Acknowledge, StepFrame;
  }

  /** Success and skipped can be left in exactly one situation: a worker is still inside the task. */
  lemma SatisfiedIsLeftExactly(c: Settings, s: Sys, d: Name)
    requires Rows(s.db.ex) && s.starts.Keys == s.db.ex.state.Keys && Core(c, s)
    requires d in s.db.ex.state && Satisfied(s.db.ex.state[d])
    ensures (exists step: Step :: Leaves(c, s, step, d)) <==> d in ViewOf(s).inside
  {
    hide Core, Rows, Apply, Enabled, InsideTasks;
    if d in ViewOf(s).inside {
      var step := InsideLeaves(c, s, d);
    } else {
      forall step: Step ensures !Leaves(c, s, step, d) {
        if Leaves(c, s, step, d) { StepKeepsDone(c, s, step, d); }
      }
    }
  }

  /** The run goes on from where `states` ends. */
  ghost predicate Continues(c: Settings, ex: Execution, t0: Time, states: seq<Sys>, steps: seq<Step>,
                            states': seq<Sys>, steps': seq<Step>) {
    && IsRun(c, ex, t0, states', steps') && |states| <= |states'| && |steps| <= |steps'|
    && states == states'[..|states|] && steps == steps'[..|steps|]
  }

  lemma StepContinues(c: Settings, ex: Execution, t0: Time, states: seq<Sys>, steps: seq<Step>, step: Step)
    requires IsRun(c, ex, t0, states, steps)
    requires var s := states[|steps|]; Rows(s.db.ex) && s.starts.Keys == s.db.ex.state.Keys && Enabled(s, step)
    ensures Continues(c, ex, t0, states, steps, states + [Apply(c, states[|steps|], step)], steps + [step])
  {
    var s' := Apply(c, states[|steps|], step);
    assert Legal(c, states[|steps|], step, s') && |states| == |steps| + 1;
    hide *;
    RunAppend(c, ex, t0, states, steps, step, s');
    AppendContinues(c, ex, t0, states, steps, step, s');
  }

  lemma AppendContinues(c: Settings, ex: Execution, t0: Time, states: seq<Sys>, steps: seq<Step>, step: Step, s': Sys)
    requires |states| == |steps| + 1 && IsRun(c, ex, t0, states + [s'], steps + [step])
    ensures Continues(c, ex, t0, states, steps, states + [s'], steps + [step])
  {
    hide IsRun;
  }

  lemma RunAppend(c: Settings, ex: Execution, t0: Time, states: seq<Sys>, steps: seq<Step>, step: Step, s': Sys)
    requires IsRun(c, ex, t0, states, steps) && Legal(c, states[|steps|], step, s')
    ensures IsRun(c, ex, t0, states + [s'], steps + [step])
  {
    var states', steps' := states + [s'], steps + [step];
    hide Rows, Fresh, Spawned, Legal;
    forall i | 0 <= i < |steps'| ensures Legal(c, states'[i], steps'[i], states'[i + 1]) {
      if i < |steps| { assert Legal(c, states[i], steps[i], states[i + 1]); }
    }
  }

  /** Some way the run may go on ends with the task out of the state it is in now. */
  ghost predicate MayBeLeft(c: Settings, ex: Execution, t0: Time, states: seq<Sys>, steps: seq<Step>, d: Name)
    requires |states| == |steps| + 1
  {
    exists states': seq<Sys>, steps': seq<Step> :: Continues(c, ex, t0, states, steps, states', steps')
      && DiffersAt(states[|steps|].db.ex.state, states'[|states'| - 1].db.ex.state, d)
  }

  predicate DiffersAt(st: States, st': States, d: Name) { d in st && d in st' && st'[d] != st[d] }

  /** Over whole runs, with cancellations and skips: a satisfied task is left in some continuation of a run if and
      only if a worker is still inside it. */
  lemma SatisfiedMayBeLeftExactly(c: Settings, ex: Execution, t0: Time, states: seq<Sys>, steps: seq<Step>, d: Name)
    requires IsRun(c, ex, t0, states, steps)
    requires d in states[|steps|].db.ex.state && Satisfied(states[|steps|].db.ex.state[d])
    ensures MayBeLeft(c, ex, t0, states, steps, d) <==> d in ViewOf(states[|steps|]).inside
  {
    RunCore(c, ex, t0, states, steps, |steps|);
    if d in ViewOf(states[|steps|]).inside {
      InsideMayBeLeft(c, ex, t0, states, steps, d);
    } else {
      hide Core, InsideTasks, IsRun;
      forall states': seq<Sys>, steps': seq<Step> | Continues(c, ex, t0, states, steps, states', steps')
        ensures !DiffersAt(states[|steps|].db.ex.state, states'[|states'| - 1].db.ex.state, d)
      {
        DoneContinues(c, ex, t0, states, steps, states', steps', d);
      }
    }
  }

  lemma InsideMayBeLeft(c: Settings, ex: Execution, t0: Time, states: seq<Sys>, steps: seq<Step>, d: Name)
    requires IsRun(c, ex, t0, states, steps) && Core(c, states[|steps|])
    requires d in states[|steps|].db.ex.state && Satisfied(states[|steps|].db.ex.state[d])
      && d in ViewOf(states[|steps|]).inside
    ensures MayBeLeft(c, ex, t0, states, steps, d)
  {
    var s := states[|steps|];
    assert Rows(s.db.ex) && s.starts.Keys == s.db.ex.state.Keys && |states| == |steps| + 1;
    hide Core, Rows, IsRun, Apply, Enabled, ViewOf, Continues;
    var step := InsideLeaves(c, s, d);
    StepContinues(c, ex, t0, states, steps, step);
    assert DiffersAt(s.db.ex.state, Apply(c, s, step).db.ex.state, d);
    hide *;
    LeftByOne(c, ex, t0, states, steps, step, Apply(c, s, step), d);
  }

  lemma LeftByOne(c: Settings, ex: Execution, t0: Time, states: seq<Sys>, steps: seq<Step>, step: Step, s': Sys,
                  d: Name)
    requires |states| == |steps| + 1 && Continues(c, ex, t0, states, steps, states + [s'], steps + [step])
    requires DiffersAt(states[|steps|].db.ex.state, s'.db.ex.state, d)
    ensures MayBeLeft(c, ex, t0, states, steps, d)
  {
    hide Continues, DiffersAt;
    var states', steps' := states + [s'], steps + [step];
    assert states'[|states'| - 1] == s';
  }

  lemma DoneContinues(c: Settings, ex: Execution, t0: Time, states: seq<Sys>, steps: seq<Step>,
                      states': seq<Sys>, steps': seq<Step>, d: Name)
    requires |states| == |steps| + 1 && Continues(c, ex, t0, states, steps, states', steps')
      && Done(ViewOf(states[|steps|]), d)
    ensures !DiffersAt(states[|steps|].db.ex.state, states'[|states'| - 1].db.ex.state, d)
  {
    var last := |states'| - 1;
    assert |states'| == |steps'| + 1 && states'[|steps|] == states[|steps|];
    hide IsRun, InsideTasks;
    RunKeepsDone(c, ex, t0, states', steps', |steps|, last, d);
  }

  /** In particular, without a cancellation success and skipped are never left. */
  lemma SatisfiedForever(c: Settings, ex: Execution, t0: Time, states: seq<Sys>, steps: seq<Step>, i: nat, k: nat,
                         d: Name)
    requires IsRun(c, ex, t0, states, steps) && i <= k < |states| && !states[i].db.ex.cancellationRequested
    requires d in states[i].db.ex.state && Satisfied(states[i].db.ex.state[d])
    ensures d in states[k].db.ex.state && states[k].db.ex.state[d] == states[i].db.ex.state[d]
  {
    RunCore(c, ex, t0, states, steps, i);
    NotInside(c, states[i], d);
    hide IsRun, Core, InsideTasks;
    RunKeepsDone(c, ex, t0, states, steps, i, k, d);
  }

  // ---- ownership of work ----

  /** While no cancellation is requested: pending tasks have no job; queued and running ones have exactly one job
      that is queued or leased, or exactly one dead letter; and no task ever has two. */
  lemma NoLostOrDuplicatedWork(c: Settings, ex: Execution, t0: Time, states: seq<Sys>, steps: seq<Step>, i: nat)
    requires IsRun(c, ex, t0, states, steps) && i < |states| && NoCancel(steps)
    ensures forall j :: 0 <= j < |states[i].db.jobs| ==>
      states[i].db.jobs[j].task in states[i].db.ex.state && states[i].db.ex.state[states[i].db.jobs[j].task] != Pending
    ensures forall n :: Underway(states[i], n) ==> exists j: JobId :: Outstanding(states[i], n, j)
    ensures forall n, j: JobId, k: JobId :: Outstanding(states[i], n, j) && Outstanding(states[i], n, k) ==> j == k
  {
    UncancelledRun(c, ex, t0, states, steps, i);
    RunCore(c, ex, t0, states, steps, i);
    hide IsRun;
    WorkIsOwned(c, states[i]);
  }

  /** `j` is a job for `n` that is queued or leased, or dead-lettered and not handled yet. */
  predicate Outstanding(s: Sys, n: Name, j: JobId) {
    j < |s.db.jobs| && s.db.jobs[j].task == n && (Active(s.db.jobs[j]) || j in s.letters)
  }

  predicate Underway(s: Sys, n: Name) {
    n in s.db.ex.state && (s.db.ex.state[n] == Enqueued || s.db.ex.state[n] == Running)
  }

  lemma WorkIsOwned(c: Settings, s: Sys)
    requires Core(c, s) && !s.db.ex.cancellationRequested
    ensures forall j :: 0 <= j < |s.db.jobs| ==>
      s.db.jobs[j].task in s.db.ex.state && s.db.ex.state[s.db.jobs[j].task] != Pending
    ensures forall n :: Underway(s, n) ==> exists j: JobId :: Outstanding(s, n, j)
    ensures forall n, j: JobId, k: JobId :: Outstanding(s, n, j) && Outstanding(s, n, k) ==> j == k
  {
    hide Shape, JobsOk, DepsDone, Manned;
    var v := ViewOf(s);
    forall j | 0 <= j < |s.db.jobs|
      ensures s.db.jobs[j].task in s.db.ex.state && s.db.ex.state[s.db.jobs[j].task] != Pending {
      assert v.tasks[j] in v.tasks;
    }
    forall n | Underway(s, n) ensures exists j: JobId :: Outstanding(s, n, j) {
      assert Owned(v, n);
      var j :| j in v.owners && j < |v.tasks| && v.tasks[j] == n;
      assert Outstanding(s, n, j);
    }
    forall n, j: JobId, k: JobId | Outstanding(s, n, j) && Outstanding(s, n, k) ensures j == k {
      assert j in v.owners && k in v.owners && v.tasks[j] == v.tasks[k];
    }
  }
}
