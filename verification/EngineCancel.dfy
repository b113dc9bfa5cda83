/** What a cancellation promises. */
module EngineCancel {
  import opened Dag
  import opened Q = QueueRecords
  import opened E = ExecutionState
  import opened Engine
  import opened EngineCore
  import opened EngineInv
  import opened EngineStatus
  import opened EngineMoves
  import opened EngineSafety

  // ---- workers find their task running ----

  lemma RunningStays(c: Settings, s: Sys, step: Step, n: Name)
    requires Rows(s.db.ex) && s.starts.Keys == s.db.ex.state.Keys && Enabled(s, step) && Core(c, s)
    requires n in s.db.ex.state && s.db.ex.state[n] == Running && n !in Acted(s, step) && !Sweeps(s, step)
    ensures Apply(c, s, step).db.ex.state[n] == Running
  {
    assert Distinct(s.db.ex.order);
    hide *;
    if step.Cancel? {
      CancelStepSparesRunning(c, s, step, n);
    } else {
      OtherStepSparesRunning(c, s, step, n);
    }
  }

  lemma CancelStepSparesRunning(c: Settings, s: Sys, step: Step, n: Name)
    requires Rows(s.db.ex) && s.starts.Keys == s.db.ex.state.Keys && Enabled(s, step) && step.Cancel?
    requires n in s.db.ex.state && s.db.ex.state[n] == Running
    ensures n in Apply(c, s, step).db.ex.state && Apply(c, s, step).db.ex.state[n] == Running
  {
    hide Rows, StepFrame, CancelExecution;
    CancelSparesRunning(s.db, step.now, n);
  }

  lemma OtherStepSparesRunning(c: Settings, s: Sys, step: Step, n: Name)
    requires Rows(s.db.ex) && s.starts.Keys == s.db.ex.state.Keys && Enabled(s, step) && Distinct(s.db.ex.order)
    requires n in s.db.ex.state && s.db.ex.state[n] == Running && n !in Acted(s, step) && !Sweeps(s, step)
      && !step.Cancel?
    ensures n in Apply(c, s, step).db.ex.state && Apply(c, s, step).db.ex.state[n] == Running
  {
    hide Rows, Distinct, Sweeps, Acted, ActedOk, Enabled, Apply;
    StepMoves(c, s, step);
  }

  lemma CancelSparesRunning(db: Db, now: Time, n: Name)
    requires n in db.ex.state && db.ex.state[n] == Running
    ensures n in CancelExecution(db, now).ex.state && CancelExecution(db, now).ex.state[n] == Running
  {
    hide StatusOf, CancelExecutionJobs;
  }

  /** Only its own worker is ever inside the task a step is about. */
  lemma ActedNotInside(c: Settings, s: Sys, step: Step, n: Name)
    requires Rows(s.db.ex) && Enabled(s, step) && Core(c, s)
    requires n in Acted(s, step) && Manned(ViewOf(s)) && !step.Finish? && !step.Interrupt?
    ensures n !in ViewOf(s).inside
  {
    hide Core, InsideTasks, Owners, TasksOf, Rows, Core', Starts;
    match step
    case Start(j, now) => OwnerOf(c, s, j);
    case Deliver(j, now) => DeliverShows(c, s, j);
    case _ =>
  }

  lemma LeavesInside(c: Settings, s: Sys, j: JobId, s': Sys)
    requires Core(c, s) && IsInside(s, j) && s'.runs == s.runs - {j} && Grows(s.db.jobs, s'.db.jobs)
    ensures s.db.jobs[j].task !in ViewOf(s').inside
  {
    OwnerOf(c, s, j);
    InsideOnce(s, j);
    assert forall k :: k in s.runs ==> k < |s.db.jobs|;
    hide Core, Owners, TasksOf, Core';
    forall k | k in s'.runs && k < |s'.db.jobs| ensures s'.db.jobs[k].task != s.db.jobs[j].task {
      assert k in s.runs;
    }
  }

  lemma FinishLeaves(c: Settings, s: Sys, step: Step)
    requires Rows(s.db.ex) && s.starts.Keys == s.db.ex.state.Keys && Enabled(s, step) && Core(c, s)
    requires step.Finish? || step.Interrupt?
    ensures s.db.jobs[step.j].task !in ViewOf(Apply(c, s, step)).inside && Acted(s, step) == {s.db.jobs[step.j].task}
  {
    assert Distinct(s.db.ex.order);
    hide Core, Rows, Distinct, Grows, ViewOf, StepFrame;
    FinishRuns(c, s, step);
    StepGrows(c, s, step);
    hide Apply, Enabled;
    LeavesInside(c, s, step.j, Apply(c, s, step));
  }

  lemma FinishRuns(c: Settings, s: Sys, step: Step)
    requires Rows(s.db.ex) && s.starts.Keys == s.db.ex.state.Keys && Enabled(s, step)
      && (step.Finish? || step.Interrupt?)
    ensures Apply(c, s, step).runs == s.runs - {step.j} && IsInside(s, step.j)
      && Acted(s, step) == {s.db.jobs[step.j].task}
  {
    hide Rows, E.Finish, FinishStopped;
  }

  lemma StartRunning(c: Settings, s: Sys, step: Step)
    requires Rows(s.db.ex) && s.starts.Keys == s.db.ex.state.Keys && Enabled(s, step) && step.Start?
      && Starts(s.db, step.j)
    ensures Acted(s, step) == {s.db.jobs[step.j].task}
      && Apply(c, s, step).db.ex.state[s.db.jobs[step.j].task] == Running
  {
    hide Rows;
  }

  /** As long as nobody sweeps, whoever is inside a task finds it running. */
  lemma StepKeepsManned(c: Settings, s: Sys, step: Step)
    requires Rows(s.db.ex) && s.starts.Keys == s.db.ex.state.Keys && Enabled(s, step) && Core(c, s)
    requires Manned(ViewOf(s)) && !Sweeps(s, step)
    ensures Manned(ViewOf(Apply(c, s, step)))
  {
    hide Core, Rows, Apply, Enabled, InsideTasks, Owners, TasksOf, Sweeps, Acted, Starts, StepFrame;
    var s' := Apply(c, s, step);
    StepInside(c, s, step);
    forall n | n in ViewOf(s').inside ensures n in s'.db.ex.state && s'.db.ex.state[n] == Running {
      InsideRunning(c, s, step, n);
    }
  }

  lemma InsideRunning(c: Settings, s: Sys, step: Step, n: Name)
    requires Rows(s.db.ex) && s.starts.Keys == s.db.ex.state.Keys && Enabled(s, step) && Core(c, s)
    requires Manned(ViewOf(s)) && !Sweeps(s, step) && n in ViewOf(Apply(c, s, step)).inside
    ensures n in Apply(c, s, step).db.ex.state && Apply(c, s, step).db.ex.state[n] == Running
  {
    assert step.Start? ==> OwnJob(s.db, step.j);
    hide Core, Rows, Apply, Enabled, InsideTasks, Owners, TasksOf, Sweeps, Acted, Starts, StepFrame;
    ActedInState(s, step);
    StepInside(c, s, step);
    StepStates(c, s, step);
    if step.Finish? || step.Interrupt? { FinishLeaves(c, s, step); }
    if step.Start? && Starts(s.db, step.j) { StartRunning(c, s, step); }
    if n in ViewOf(s).inside {
      if n in Acted(s, step) {
        if !step.Finish? && !step.Interrupt? { ActedNotInside(c, s, step, n); }
      } else {
        RunningStays(c, s, step, n);
      }
    }
  }

  lemma ActedInState(s: Sys, step: Step)
    requires Rows(s.db.ex) && Enabled(s, step)
    ensures forall n :: n in Acted(s, step) ==> n in s.db.ex.state
  {
    hide Rows;
  }

  lemma StepStates(c: Settings, s: Sys, step: Step)
    requires Rows(s.db.ex) && s.starts.Keys == s.db.ex.state.Keys && Enabled(s, step) && Core(c, s)
    ensures Apply(c, s, step).db.ex.state.Keys == s.db.ex.state.Keys
  {
    assert Distinct(s.db.ex.order);
    hide Core, Rows, Apply, Enabled, Distinct;
    StepMoves(c, s, step);
  }

  // ---- after a cancellation ----

  ghost predicate NoPending(st: States) { forall n :: n in st ==> st[n] != Pending }

  /** What may still happen to a task of a cancelled execution. */
  predicate CancelMove(x: TaskState, x': TaskState) {
    || x' == x
    || (x == Running && (x' == Stopped || x' == Failure || x' == Enqueued))
    || (x == Enqueued && (x' == Stopped || x' == Failure))
    || (x == Stopped && x' == Failure)
  }

  lemma CancelActed(s: Sys, step: Step, n: Name, x': TaskState)
    requires Rows(s.db.ex) && Enabled(s, step) && s.db.ex.cancellationRequested && !Sweeps(s, step)
    requires n in Acted(s, step) && n in s.db.ex.state && ActedOk(s, step, s.db.ex.state[n], x')
    requires s.db.ex.state[n] != Pending && s.db.ex.state[n] != Retrying
    requires step.Finish? || step.Interrupt? ==> s.db.ex.state[n] == Running
    ensures CancelMove(s.db.ex.state[n], x')
  {
    hide Succeeds;
  }

  lemma InsideIsRunning(s: Sys, step: Step)
    requires Rows(s.db.ex) && Enabled(s, step) && Manned(ViewOf(s)) && (step.Finish? || step.Interrupt?)
    ensures forall n :: n in Acted(s, step) ==> n in s.db.ex.state && s.db.ex.state[n] == Running
  {
    hide Rows, Owners, TasksOf;
    assert s.db.jobs[step.j].task in ViewOf(s).inside;
  }

  lemma CancelledMoves(c: Settings, s: Sys, step: Step, n: Name)
    requires Rows(s.db.ex) && s.starts.Keys == s.db.ex.state.Keys && Enabled(s, step) && Core(c, s)
    requires s.db.ex.cancellationRequested && NoPending(s.db.ex.state) && Manned(ViewOf(s)) && !Sweeps(s, step)
    requires n in s.db.ex.state
    ensures n in Apply(c, s, step).db.ex.state && CancelMove(s.db.ex.state[n], Apply(c, s, step).db.ex.state[n])
  {
    assert Distinct(s.db.ex.order) && s.db.ex.state[n] != Retrying;
    hide Core, Rows, Distinct, Sweeps, Enabled, StepFrame, ViewOf;
    StepMoves(c, s, step);
    if step.Finish? || step.Interrupt? { InsideIsRunning(s, step); }
    hide Acted, ActedOk, CancelMove, Manned;
    if n in Acted(s, step) {
      hide Apply;
      CancelActed(s, step, n, Apply(c, s, step).db.ex.state[n]);
    } else if step.Cancel? {
      hide Moved, Elsewhere;
      CancelAgain(s.db, step.now, n);
    } else {
      hide Apply;
      CancelUntouched(s.db.ex.state[n], Apply(c, s, step).db.ex.state[n]);
    }
  }

  lemma CancelUntouched(x: TaskState, x': TaskState)
    requires Moved(x, x', false) && x != Pending
    ensures CancelMove(x, x')
  {
  }

  lemma CancelAgain(db: Db, now: Time, n: Name)
    requires n in db.ex.state && db.ex.state[n] != Pending && db.ex.state[n] != Retrying
    ensures n in CancelExecution(db, now).ex.state && CancelMove(db.ex.state[n], CancelExecution(db, now).ex.state[n])
  {
    hide StatusOf, CancelExecutionJobs;
  }

  /** Once a cancellation is requested, no handler starts and no task becomes a success; what runs is cancelled, fails,
      or is queued only to be cancelled. */
  lemma StepAfterCancel(c: Settings, s: Sys, step: Step)
    requires Rows(s.db.ex) && s.starts.Keys == s.db.ex.state.Keys && Enabled(s, step) && Core(c, s)
    requires s.db.ex.cancellationRequested && NoPending(s.db.ex.state) && Manned(ViewOf(s)) && !Sweeps(s, step)
    ensures var s' := Apply(c, s, step);
      && s'.starts == s.starts && NoPending(s'.db.ex.state) && s'.db.ex.state.Keys == s.db.ex.state.Keys
      && forall n :: n in s.db.ex.state ==> CancelMove(s.db.ex.state[n], s'.db.ex.state[n])
  {
    StepStates(c, s, step);
    StartsSame(c, s, step);
    hide Core, Rows, Enabled, Apply, StepFrame, Sweeps, ViewOf, Manned, CancelMove;
    var s' := Apply(c, s, step);
    forall n | n in s.db.ex.state
      ensures CancelMove(s.db.ex.state[n], s'.db.ex.state[n]) && s'.db.ex.state[n] != Pending {
      CancelledMoves(c, s, step, n);
      NeverPendingAgain(s.db.ex.state[n], s'.db.ex.state[n]);
    }
  }

  lemma NeverPendingAgain(x: TaskState, x': TaskState)
    requires CancelMove(x, x') && x != Pending
    ensures x' != Pending
  {
  }

  lemma StartsSame(c: Settings, s: Sys, step: Step)
    requires Rows(s.db.ex) && s.starts.Keys == s.db.ex.state.Keys && Enabled(s, step) && s.db.ex.cancellationRequested
    ensures Apply(c, s, step).starts == s.starts
  {
    hide Rows, StatusOf, E.Finish, E.Start, FinishStopped, SkipTask, CancelExecution, HandleDeadLetter, StepFrame;
  }

  /** Cancelling an unfinished execution sets the flag and leaves nothing pending or queued. */
  lemma CancelTakesEffect(db: Db, now: Time)
    requires !Terminal(db.ex.status)
    ensures var ex := CancelExecution(db, now).ex;
      && ex.cancellationRequested && NoPending(ex.state)
      && forall n :: n in ex.state ==> ex.state[n] != Enqueued && ex.state[n] == Withdrawn(db.ex.state[n])
  {
    hide StatusOf, CancelExecutionJobs;
  }

  // ---- runs ----

  /** Nobody sweeps between states `i` and `k`. */
  ghost predicate NoSweeps(states: seq<Sys>, steps: seq<Step>, k: int)
    requires k <= |steps| && |states| == |steps| + 1
  {
    forall m :: 0 <= m < k ==> !Sweeps(states[m], steps[m])
  }

  /** In every run without sweeps, status and task states agree in every state. */
  lemma {:induction false} RunAgrees(c: Settings, ex: Execution, t0: Time, states: seq<Sys>, steps: seq<Step>, k: nat)
    requires IsRun(c, ex, t0, states, steps) && k < |states| && NoSweeps(states, steps, k)
    ensures Manned(ViewOf(states[k])) && Agrees(states[k].db.ex)
  {
    RunCore(c, ex, t0, states, steps, k);
    hide Core, Inv, Rows, Fresh, Apply, Enabled, ViewOf, Manned, Agrees, Sweeps, Spawned;
    if k == 0 {
      SpawnedAgrees(c, ex, t0);
      SpawnedManned(c, ex, t0);
    } else {
      RunAgrees(c, ex, t0, states, steps, k - 1);
      RunCore(c, ex, t0, states, steps, k - 1);
      var s, step := states[k - 1], steps[k - 1];
      assert Legal(c, s, step, states[k]) && !Sweeps(s, step);
      StepKeepsManned(c, s, step);
      StepAgreement(c, s, step);
      MannedNeverReopens(s, step);
    }
  }

  lemma SpawnedManned(c: Settings, ex: Execution, t0: Time)
    requires Rows(ex) && Fresh(ex) && c.maxAttempts >= 1
    ensures Manned(ViewOf(Spawned(c, ex, t0)))
  {
    SpawnedInv(c, ex, t0);
    CalmFacts(c, Spawned(c, ex, t0));
    hide Inv, Spawned, Fresh, Rows;
  }

  lemma SpawnedAgrees(c: Settings, ex: Execution, t0: Time)
    requires Rows(ex) && Fresh(ex) && c.maxAttempts >= 1
    ensures Agrees(Spawned(c, ex, t0).db.ex)
  {
    SpawnedInv(c, ex, t0);
    OrderMeansStates(c, Spawned(c, ex, t0));
    hide Inv, Fresh, Rows;
    var db := Db(ex, []);
    hide Core;
    EnqueueReadyAgrees(db, t0, c.maxAttempts);
    hide EnqueueReady, Agrees;
  }

  lemma EnqueueReadyAgrees(db: Db, now: Time, maxAttempts: nat)
    requires Rows(db.ex) && EnqueueReady(db, now, maxAttempts).ex.state != map[]
    ensures Agrees(EnqueueReady(db, now, maxAttempts).ex)
  {
    hide EnqueueAll, Rows, StatusOf;
    if db.ex.cancellationRequested {
      RefreshAgrees(db.ex.(state := StopLive(db.ex.state)), now);
    } else {
      RefreshAgrees(EnqueueAll(db, db.ex.order, now, maxAttempts).ex, now);
    }
  }

  /** The state of a run some time after it was cancelled. */
  ghost predicate CalledOff(s0: Sys, s: Sys) {
    && s.db.ex.cancellationRequested && NoPending(s.db.ex.state) && s.starts == s0.starts
    && s.db.ex.state.Keys == s0.db.ex.state.Keys
    && forall n :: n in s.db.ex.state && s.db.ex.state[n] == Success ==> s0.db.ex.state[n] == Success
  }

  lemma CalledOffAtOnce(c: Settings, s: Sys, step: Step)
    requires Rows(s.db.ex) && s.starts.Keys == s.db.ex.state.Keys && Enabled(s, step) && step.Cancel?
    requires !Terminal(s.db.ex.status)
    ensures CalledOff(s, Apply(c, s, step))
  {
    hide CancelExecution, Rows, StepFrame, NoPending;
    CancelTakesEffect(s.db, step.now);
    CancelKeepsStates(s.db, step.now);
  }

  lemma CancelKeepsStates(db: Db, now: Time)
    ensures CancelExecution(db, now).ex.state.Keys == db.ex.state.Keys
  {
    hide StatusOf, CancelExecutionJobs;
  }

  lemma CalledOffStays(c: Settings, s0: Sys, s: Sys, step: Step)
    requires Rows(s.db.ex) && s.starts.Keys == s.db.ex.state.Keys && Enabled(s, step) && Core(c, s)
    requires CalledOff(s0, s) && Manned(ViewOf(s)) && !Sweeps(s, step)
    ensures CalledOff(s0, Apply(c, s, step))
  {
    hide Core, Rows, Enabled, Apply, Sweeps, ViewOf, Manned;
    StepAfterCancel(c, s, step);
  }

  lemma {:induction false} CalledOffRun(c: Settings, ex: Execution, t0: Time, states: seq<Sys>, steps: seq<Step>,
                                        i: nat, k: nat)
    requires IsRun(c, ex, t0, states, steps) && i < k < |states| && steps[i].Cancel?
    requires !Terminal(states[i].db.ex.status) && NoSweeps(states, steps, k)
    ensures CalledOff(states[i], states[k])
    decreases k
  {
    hide Inv, Core, Fresh, Rows, Apply, Enabled, ViewOf, Manned, Agrees, Sweeps, Spawned, CalledOff;
    var s, step := states[k - 1], steps[k - 1];
    assert Legal(c, s, step, states[k]) && !Sweeps(s, step);
    if i == k - 1 {
      CalledOffAtOnce(c, s, step);
    } else {
      RunCore(c, ex, t0, states, steps, k - 1);
      RunAgrees(c, ex, t0, states, steps, k - 1);
      CalledOffRun(c, ex, t0, states, steps, i, k - 1);
      CalledOffStays(c, states[i], s, step);
    }
  }

  /** After a run is cancelled, and as long as nobody sweeps: no handler starts, no task becomes a success, nothing is
      pending; and once nothing is queued or running either, the status is cancelled, or failed if some task failed. */
  lemma CancellationHolds(c: Settings, ex: Execution, t0: Time, states: seq<Sys>, steps: seq<Step>, i: nat, k: nat)
    requires IsRun(c, ex, t0, states, steps) && i < k < |states| && steps[i].Cancel?
    requires !Terminal(states[i].db.ex.status) && NoSweeps(states, steps, k)
    ensures CalledOff(states[i], states[k])
    ensures (forall n :: n in ex.graph ==> !Underway(states[k], n)) ==>
      states[k].db.ex.status == if Any(states[k].db.ex.state, Failure) then StatusFailed else StatusCancelled
  {
    RunCore(c, ex, t0, states, steps, k);
    RunAgrees(c, ex, t0, states, steps, k);
    CalledOffRun(c, ex, t0, states, steps, i, k);
    hide IsRun, NoSweeps, Core, CalledOff, Agrees, Any, Underway;
    if forall n :: n in ex.graph ==> !Underway(states[k], n) {
      CalledOffStatus(c, states[i], states[k]);
    }
  }

  lemma CalledOffStatus(c: Settings, s0: Sys, s: Sys)
    requires Core(c, s) && CalledOff(s0, s) && Agrees(s.db.ex) && forall n :: n in s.db.ex.graph ==> !Underway(s, n)
    ensures s.db.ex.status == if Any(s.db.ex.state, Failure) then StatusFailed else StatusCancelled
  {
    hide Core, Any;
    OrderMeansStates(c, s);
    StatesKnown(c, s);
    forall n | n in s.db.ex.state
      ensures Satisfied(s.db.ex.state[n]) || s.db.ex.state[n] == Stopped || s.db.ex.state[n] == Failure {
      assert !Underway(s, n);
    }
  }

  lemma StatesKnown(c: Settings, s: Sys)
    requires Core(c, s)
    ensures s.db.ex.state.Keys == s.db.ex.graph.Keys && forall n :: n in s.db.ex.state ==> s.db.ex.state[n] != Retrying
  {
    hide Worked, DepsDone, OneOwner, CaredFor, JobsOk, RunsOk, LettersOk;
  }
}
