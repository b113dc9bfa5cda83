/** How one step changes the task states. */
module EngineMoves {
  import opened Dag
  import opened Q = QueueRecords
  import opened E = ExecutionState
  import opened Engine
  import opened EngineCore
  import opened EngineStatus
  import opened Readiness

  /** Outside `acted`, a pending task may be queued, failed or cancelled, and a sweep may cancel what is unfinished. */
  ghost predicate Elsewhere(st: States, st': States, acted: set<Name>, swept: bool) {
    && st'.Keys == st.Keys
    && forall m :: m in st && m !in acted ==> Moved(st[m], st'[m], swept)
  }

  predicate Moved(x: TaskState, x': TaskState, swept: bool) {
    || x' == x
    || (x == Pending && (x' == Enqueued || x' == Failure || x' == Stopped))
    || (swept && Live(x) && x' == Stopped)
  }

  /** The task a step is about. */
  function Acted(s: Sys, step: Step): set<Name>
    requires Rows(s.db.ex) && Enabled(s, step)
  {
    match step
    case Start(j, _) => {s.db.jobs[j].task}
    case Finish(j, _, _) => {s.db.jobs[j].task}
    case Interrupt(j, _) => {s.db.jobs[j].task}
    case Deliver(j, _) => {s.db.jobs[j].task}
    case ReapHung(n, _) => {n}
    case Skip(n, _) => {n}
    case _ => {}
  }

  /** The state a step puts its task in. */
  predicate ActedOk(s: Sys, step: Step, x: TaskState, x': TaskState)
    requires Rows(s.db.ex) && Enabled(s, step)
  {
    var ex := s.db.ex;
    match step
    case Start(j, _) => x' == if Satisfied(x) || x == Failure || x == Stopped then x
      else if ex.cancellationRequested then Stopped else Running
    case Finish(j, ok, _) => x' == Answer(ex, s.db.jobs[j].task, ok)
    case Interrupt(_, _) => x' == Stopped
    case Deliver(_, _) => x' == if Satisfied(x) then x else Failure
    case ReapHung(_, _) => x' == if Satisfied(x) then x else Failure
    case Skip(_, _) => x' == Skipped
    case _ => x' == x
  }

  lemma DecidedMoves(g: Graph, st: States, st': States, names: seq<Name>)
    requires Decided(g, st, st', names) && st.Keys <= g.Keys
    ensures Elsewhere(st, st', {}, false)
  {
    hide Ready;
  }

  lemma StopLiveMoves(st: States)
    ensures Elsewhere(st, StopLive(st), {}, true)
  {
  }

  lemma EnqueueReadyStates(db: Db, now: Time, maxAttempts: nat)
    requires Rows(db.ex)
    ensures EnqueueReady(db, now, maxAttempts).ex.state ==
      if db.ex.cancellationRequested then StopLive(db.ex.state)
        else EnqueueAll(db, db.ex.order, now, maxAttempts).ex.state
  {
    hide EnqueueAll, StatusOf, Rows, StopLive;
  }

  lemma EnqueueReadyMoves(db: Db, now: Time, maxAttempts: nat)
    requires Rows(db.ex) && Distinct(db.ex.order)
    ensures Elsewhere(db.ex.state, EnqueueReady(db, now, maxAttempts).ex.state, {}, db.ex.cancellationRequested)
  {
    assert db.ex.state.Keys <= db.ex.graph.Keys;
    hide *;
    EnqueueReadyStates(db, now, maxAttempts);
    StopLiveMoves(db.ex.state);
    PassDecides(db, now, maxAttempts);
    DecidedMoves(db.ex.graph, db.ex.state, EnqueueAll(db, db.ex.order, now, maxAttempts).ex.state, db.ex.order);
  }

  lemma PassDecides(db: Db, now: Time, maxAttempts: nat)
    requires Rows(db.ex) && Distinct(db.ex.order)
    ensures Decided(db.ex.graph, db.ex.state, EnqueueAll(db, db.ex.order, now, maxAttempts).ex.state, db.ex.order)
  {
    hide Rows, Distinct, Decided, EnqueueAll;
    PassQueuesReady(db, db.ex.order, now, maxAttempts);
  }

  lemma FailTaskMoves(ex: Execution, n: Name, now: Time)
    requires n in ex.state
    ensures Elsewhere(ex.state, FailTask(ex, n, now).state, {n}, false) && FailTask(ex, n, now).state[n] == Failure
  {
    FailDownstreamChanges(ex.graph, ex.state[n := Failure]);
    hide FailDownstream, StatusOf;
  }

  /** A task is set aside first, the rest of the rows follow. */
  lemma ActedThen(st: States, st': States, n: Name, x: TaskState, swept: bool)
    requires n in st && Elsewhere(st[n := x], st', {}, swept) && (Satisfied(x) || x == Failure)
    ensures Elsewhere(st, st', {n}, swept) && st'[n] == x
  {
  }

  lemma CompleteMoves(db: Db, j: JobId, now: Time, maxAttempts: nat)
    requires Rows(db.ex) && OwnJob(db, j) && Distinct(db.ex.order)
    ensures var st', n := Complete(db, j, now, maxAttempts).ex.state, db.jobs[j].task;
      Elsewhere(db.ex.state, st', {n}, db.ex.cancellationRequested) && st'[n] == Success
  {
    hide Rows, Distinct, EnqueueReady, StatusOf, Acknowledge, Elsewhere;
    var n := db.jobs[j].task;
    SetStateRows(db.ex, n, Success);
    var done := Db(SetState(db.ex, n, Success), Acknowledge(db.jobs, j, now));
    EnqueueReadyMoves(done, now, maxAttempts);
    ActedThen(db.ex.state, EnqueueReady(done, now, maxAttempts).ex.state, n, Success, db.ex.cancellationRequested);
  }

  lemma SkipMoves(db: Db, n: Name, now: Time, maxAttempts: nat)
    requires Rows(db.ex) && MaySkip(db.ex, n) && Distinct(db.ex.order)
    ensures var st' := SkipTask(db, n, now, maxAttempts).ex.state;
      Elsewhere(db.ex.state, st', {n}, db.ex.cancellationRequested) && st'[n] == Skipped
  {
    hide Rows, Distinct, EnqueueReady, StatusOf, CancelTaskJobs, Elsewhere;
    SetStateRows(db.ex, n, Skipped);
    var skipped := Db(SetState(db.ex, n, Skipped), CancelTaskJobs(db.jobs, db.ex.id, n, now));
    EnqueueReadyMoves(skipped, now, maxAttempts);
    ActedThen(db.ex.state, EnqueueReady(skipped, now, maxAttempts).ex.state, n, Skipped, db.ex.cancellationRequested);
  }

  lemma SetMoves(st: States, n: Name, x: TaskState)
    requires n in st
    ensures Elsewhere(st, st[n := x], {n}, false)
  {
  }

  lemma ExhaustMoves(db: Db, j: JobId, now: Time)
    requires Rows(db.ex) && OwnJob(db, j)
    ensures var st', n := E.Exhaust(db, j, now).ex.state, db.jobs[j].task;
      Elsewhere(db.ex.state, st', {n}, false) && st'[n] == Failure
  {
    hide FailTask, Acknowledge, Elsewhere, CountedFailure;
    var n := db.jobs[j].task;
    FailTaskMoves(CountedFailure(db.ex, n), n, now);
  }

  /** What a worker's answer does to its task. */
  function Answer(ex: Execution, n: Name, ok: bool): TaskState
    requires n in ex.config && n in ex.retries
  {
    if Succeeds(ex, n, ok) then (if ex.cancellationRequested then Stopped else Success)
    else if ex.config[n].allowFailure then Success
    else if ex.retries[n] + 1 <= ex.config[n].maxRetries then Enqueued
    else Failure
  }

  lemma FinishMoves(c: Settings, s: Sys, j: JobId, ok: bool, now: Time)
    requires Rows(s.db.ex) && IsInside(s, j) && Distinct(s.db.ex.order)
    ensures var st', n := AfterFinish(c, s, j, ok, now).db.ex.state, s.db.jobs[j].task;
      && Elsewhere(s.db.ex.state, st', {n}, Sweeps(s, Step.Finish(j, ok, now)))
      && n in st' && st'[n] == Answer(s.db.ex, n, ok)
  {
    var n, ex := s.db.jobs[j].task, s.db.ex;
    assert n in ex.config && n in ex.retries;
    hide Distinct, Complete, E.Exhaust, E.Retry, FinishStopped, Rows, Elsewhere, Succeeds;
    var st' := AfterFinish(c, s, j, ok, now).db.ex.state;
    if Succeeds(ex, n, ok) && ex.cancellationRequested {
      RetryStates(s.db, j, now, c.maxAttempts);
      SetMoves(ex.state, n, Stopped);
    } else if Succeeds(ex, n, ok) || ex.config[n].allowFailure {
      CompleteMoves(s.db, j, now, c.maxAttempts);
      assert ex.cancellationRequested ==> Sweeps(s, Step.Finish(j, ok, now));
    } else if ex.retries[n] + 1 <= ex.config[n].maxRetries {
      RetryStates(s.db, j, now, c.maxAttempts);
      SetMoves(ex.state, n, Enqueued);
    } else {
      ExhaustMoves(s.db, j, now);
    }
    SweepsMore(ex.state, st', n, Sweeps(s, Step.Finish(j, ok, now)));
  }

  lemma RetryStates(db: Db, j: JobId, now: Time, maxAttempts: nat)
    requires Rows(db.ex) && OwnJob(db, j)
    ensures E.Retry(db, j, now, maxAttempts).ex.state == db.ex.state[db.jobs[j].task := Enqueued]
    ensures FinishStopped(db, j, now).ex.state == db.ex.state[db.jobs[j].task := Stopped]
  {
    hide StatusOf, Acknowledge, Rows, NewJob, Backoff;
  }

  lemma SweepsMore(st: States, st': States, n: Name, swept: bool)
    ensures Elsewhere(st, st', {n}, false) ==> Elsewhere(st, st', {n}, swept)
  {
  }

  lemma LoseMoves(s: Sys, n: Name, now: Time)
    requires n in s.db.ex.state
    ensures var st' := LoseTask(s, n, now).db.ex.state;
      && Elsewhere(s.db.ex.state, st', {n}, false)
      && n in st' && st'[n] == if Satisfied(s.db.ex.state[n]) then s.db.ex.state[n] else Failure
  {
    FailTaskMoves(s.db.ex, n, now);
    hide FailTask;
  }

  lemma StepMoves(c: Settings, s: Sys, step: Step)
    requires Rows(s.db.ex) && s.starts.Keys == s.db.ex.state.Keys && Enabled(s, step) && Distinct(s.db.ex.order)
    ensures Elsewhere(s.db.ex.state, Apply(c, s, step).db.ex.state, Acted(s, step), Sweeps(s, step) || step.Cancel?)
    ensures forall n :: n in Acted(s, step) ==>
      n in s.db.ex.state && ActedOk(s, step, s.db.ex.state[n], Apply(c, s, step).db.ex.state[n])
  {
    hide Rows, Distinct, AfterFinish, LoseTask, SkipTask, Elsewhere, StepFrame;
    match step
    case Finish(j, ok, now) => FinishMoves(c, s, j, ok, now);
    case Deliver(j, now) => LoseMoves(s.(letters := s.letters - {j}, buffer := s.buffer - {j}), s.db.jobs[j].task, now);
    case ReapHung(n, now) => LoseMoves(s, n, now);
    case Skip(n, now) => SkipMoves(s.db, n, now, c.maxAttempts);
    case _ => SimpleMoves(c, s, step);
  }

  lemma SimpleMoves(c: Settings, s: Sys, step: Step)
    requires Rows(s.db.ex) && s.starts.Keys == s.db.ex.state.Keys && Enabled(s, step)
    requires !step.Finish? && !step.Deliver? && !step.ReapHung? && !step.Skip?
    ensures Elsewhere(s.db.ex.state, Apply(c, s, step).db.ex.state, Acted(s, step), step.Cancel?)
    ensures forall n :: n in Acted(s, step) ==>
      n in s.db.ex.state && ActedOk(s, step, s.db.ex.state[n], Apply(c, s, step).db.ex.state[n])
  {
    hide Rows, StatusOf, Acknowledge, StepFrame, Elsewhere, FinishStopped, E.Start, CancelExecution;
    match step
    case Start(j, now) => StartMoves(s, j, now);
    case Interrupt(j, now) => InterruptMoves(s, j, now);
    case Cancel(now) => CancelMoves(s.db, now);
    case _ => SameMoves(s.db.ex.state);
  }

  lemma SameMoves(st: States)
    ensures Elsewhere(st, st, {}, false)
  {
  }

  lemma CancelMoves(db: Db, now: Time)
    ensures Elsewhere(db.ex.state, CancelExecution(db, now).ex.state, {}, true)
  {
    hide StatusOf, CancelExecutionJobs;
  }

  lemma InterruptMoves(s: Sys, j: JobId, now: Time)
    requires Rows(s.db.ex) && OwnJob(s.db, j)
    ensures Elsewhere(s.db.ex.state, FinishStopped(s.db, j, now).ex.state, {s.db.jobs[j].task}, false)
    ensures FinishStopped(s.db, j, now).ex.state[s.db.jobs[j].task] == Stopped
  {
    hide StatusOf, Acknowledge, Rows;
  }

  lemma StartMoves(s: Sys, j: JobId, now: Time)
    requires Rows(s.db.ex) && Enabled(s, Step.Start(j, now))
    ensures var st', n := E.Start(s.db, j, now).ex.state, s.db.jobs[j].task;
      Elsewhere(s.db.ex.state, st', {n}, false) && ActedOk(s, Step.Start(j, now), s.db.ex.state[n], st'[n])
  {
    hide StatusOf, Acknowledge, Rows;
  }
}
