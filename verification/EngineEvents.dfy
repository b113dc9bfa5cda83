/** What the outbox tells about an execution. */
module EngineEvents {
  import opened Dag
  import opened Q = QueueRecords
  import opened E = ExecutionState
  import opened Engine
  import opened EngineCore
  import opened EngineInv
  import opened EngineStatus
  import opened EngineMoves
  import opened EngineCancel
  import opened EngineOutcome
  import opened EngineStarts

  /** One event is written if the status became terminal or changed to another terminal one, and none otherwise. */
  predicate Posts(ex: Execution, ex': Execution) {
    ex'.outbox == ex.outbox + if ex'.status != ex.status && Terminal(ex'.status) then [Finished(ex'.status)] else []
  }

  lemma SilentPosts(ex: Execution, ex': Execution)
    requires ex'.outbox == ex.outbox && ex'.status == ex.status
    ensures Posts(ex, ex')
  {
  }

  lemma RefreshPosts(ex: Execution, ex1: Execution, now: Time)
    requires ex1.outbox == ex.outbox && ex1.status == ex.status
    ensures Posts(ex, Refresh(ex1, now))
  {
    hide StatusOf;
  }

  lemma {:induction false} PassSilent(db: Db, names: seq<Name>, now: Time, maxAttempts: nat)
    requires Rows(db.ex) && Elements(names) <= Elements(db.ex.order)
    ensures var r := EnqueueAll(db, names, now, maxAttempts).ex;
      r.outbox == db.ex.outbox && r.status == db.ex.status
    decreases |names|
  {
    if names != [] {
      assert names[0] in Elements(names) && Elements(names[1..]) <= Elements(names);
      hide Rule, FirstJob, Elements;
      PassSilent(EnqueueOne(db, names[0], now, maxAttempts), names[1..], now, maxAttempts);
    }
  }

  /** Queueing what is ready, and refreshing once more, posts once. */
  lemma EnqueueReadyPosts(ex: Execution, db: Db, now: Time, maxAttempts: nat)
    requires Rows(db.ex) && db.ex.outbox == ex.outbox && db.ex.status == ex.status
    ensures Posts(ex, EnqueueReady(db, now, maxAttempts).ex)
    ensures Refresh(EnqueueReady(db, now, maxAttempts).ex, now) == EnqueueReady(db, now, maxAttempts).ex
  {
    hide EnqueueAll, StatusOf, StopLive, Refresh, Posts, Rows;
    if db.ex.cancellationRequested {
      var ex1 := db.ex.(state := StopLive(db.ex.state));
      RefreshPosts(ex, ex1, now);
      RefreshTwice(ex1, now, now);
    } else {
      PassSilent(db, db.ex.order, now, maxAttempts);
      var ex1 := EnqueueAll(db, db.ex.order, now, maxAttempts).ex;
      RefreshPosts(ex, ex1, now);
      RefreshTwice(ex1, now, now);
    }
  }

  lemma CompletePosts(db: Db, j: JobId, now: Time, maxAttempts: nat)
    requires Rows(db.ex) && OwnJob(db, j)
    ensures Posts(db.ex, Complete(db, j, now, maxAttempts).ex)
  {
    SetStateRows(db.ex, db.jobs[j].task, Success);
    hide Rows, EnqueueReady, Refresh, Posts, Acknowledge;
    EnqueueReadyPosts(db.ex, Db(SetState(db.ex, db.jobs[j].task, Success), Acknowledge(db.jobs, j, now)), now,
                      maxAttempts);
  }

  lemma SkipPosts(db: Db, n: Name, now: Time, maxAttempts: nat)
    requires Rows(db.ex) && MaySkip(db.ex, n)
    ensures Posts(db.ex, SkipTask(db, n, now, maxAttempts).ex)
  {
    SetStateRows(db.ex, n, Skipped);
    hide Rows, EnqueueReady, Refresh, Posts, CancelTaskJobs;
    EnqueueReadyPosts(db.ex, Db(SetState(db.ex, n, Skipped), CancelTaskJobs(db.jobs, db.ex.id, n, now)), now,
                      maxAttempts);
  }

  lemma FailTaskPosts(ex: Execution, ex1: Execution, n: Name, now: Time)
    requires ex1.outbox == ex.outbox && ex1.status == ex.status
    ensures Posts(ex, FailTask(ex1, n, now))
  {
    var failed := SetState(ex1, n, Failure);
    RefreshPosts(ex, failed.(state := FailDownstream(ex1.graph, failed.state)), now);
    hide FailDownstream, Refresh, Posts;
  }

  lemma FinishPosts(db: Db, j: JobId, ok: bool, now: Time, maxAttempts: nat)
    requires Rows(db.ex) && OwnJob(db, j)
    ensures Posts(db.ex, E.Finish(db, j, ok, now, maxAttempts).ex)
  {
    hide Rows, Complete, E.Retry, E.Exhaust, FinishStopped, Posts, Succeeds;
    CompletePosts(db, j, now, maxAttempts);
    StartPosts(db, j, now);
    RetryPosts(db, j, now, maxAttempts);
    ExhaustPosts(db, j, now);
  }

  lemma RetryPosts(db: Db, j: JobId, now: Time, maxAttempts: nat)
    requires Rows(db.ex) && OwnJob(db, j)
    ensures Posts(db.ex, E.Retry(db, j, now, maxAttempts).ex)
  {
    hide Rows, Acknowledge, NewJob, Backoff;
  }

  lemma ExhaustPosts(db: Db, j: JobId, now: Time)
    requires Rows(db.ex) && OwnJob(db, j)
    ensures Posts(db.ex, E.Exhaust(db, j, now).ex)
  {
    var n := db.jobs[j].task;
    var ex1 := CountedFailure(db.ex, n);
    assert ex1.outbox == db.ex.outbox && ex1.status == db.ex.status;
    hide Rows, FailTask, Posts, Acknowledge, CountedFailure;
    FailTaskPosts(db.ex, ex1, n, now);
  }

  lemma StartPosts(db: Db, j: JobId, now: Time)
    requires Rows(db.ex) && OwnJob(db, j)
    ensures Posts(db.ex, E.Start(db, j, now).ex) && Posts(db.ex, FinishStopped(db, j, now).ex)
  {
    RefreshPosts(db.ex, SetState(db.ex, db.jobs[j].task, Stopped), now);
    SilentPosts(db.ex, SetState(db.ex, db.jobs[j].task, Running));
    SilentPosts(db.ex, db.ex);
    hide Rows, Posts, Refresh, Acknowledge;
  }

  /** Every step of the engine writes the event its change of status calls for, and no other. */
  lemma StepPosts(c: Settings, s: Sys, step: Step)
    requires Rows(s.db.ex) && s.starts.Keys == s.db.ex.state.Keys && Enabled(s, step)
    ensures Posts(s.db.ex, Apply(c, s, step).db.ex)
  {
    hide Rows, Posts, Refresh, E.Finish, E.Start, FinishStopped, SkipTask, CancelExecution, FailTask, StepFrame,
      Enabled;
    SilentPosts(s.db.ex, s.db.ex);
    match step
    case Start(j, now) => hide *; OtherPosts(c, s, step);
    case Finish(j, ok, now) => hide *; OtherPosts(c, s, step);
    case Interrupt(j, now) => hide *; OtherPosts(c, s, step);
    case Skip(n, now) => hide *; OtherPosts(c, s, step);
    case Deliver(j, now) => hide *; OtherPosts(c, s, step);
    case ReapHung(n, now) => FailTaskPosts(s.db.ex, s.db.ex, n, now);
    case Finalize(now) => RefreshPosts(s.db.ex, s.db.ex, now);
    case Cancel(now) => CancelPosts(s.db, now);
    case _ =>
  }

  lemma OtherPosts(c: Settings, s: Sys, step: Step)
    requires Rows(s.db.ex) && s.starts.Keys == s.db.ex.state.Keys && Enabled(s, step)
    requires step.Start? || step.Finish? || step.Interrupt? || step.Skip? || step.Deliver?
    ensures Posts(s.db.ex, Apply(c, s, step).db.ex)
  {
    hide Rows, Posts, E.Finish, E.Start, FinishStopped, SkipTask, StepFrame, FailTask;
    match step
    case Deliver(j, now) => FailTaskPosts(s.db.ex, s.db.ex, s.db.jobs[j].task, now); SilentPosts(s.db.ex, s.db.ex);
    case Start(j, now) => StartPosts(s.db, j, now);
    case Finish(j, ok, now) => FinishPosts(s.db, j, ok, now, c.maxAttempts);
    case Interrupt(j, now) => StartPosts(s.db, j, now);
    case Skip(n, now) => SkipPosts(s.db, n, now, c.maxAttempts);
  }

  lemma CancelPosts(db: Db, now: Time)
    ensures Posts(db.ex, CancelExecution(db, now).ex)
  {
    RefreshPosts(db.ex, CancelRows(db.ex), now);
    SilentPosts(db.ex, db.ex);
    hide Posts, Refresh, CancelExecutionJobs;
  }

  // ---- a run without operators ends once ----

  /** A terminal status is final. */
  lemma TerminalStays(c: Settings, s: Sys, step: Step)
    requires Rows(s.db.ex) && s.starts.Keys == s.db.ex.state.Keys && Enabled(s, step) && Inv(c, s) && Agrees(s.db.ex)
    requires !s.db.ex.cancellationRequested && Automatic(step) && Terminal(s.db.ex.status)
      && Agrees(Apply(c, s, step).db.ex)
    ensures Apply(c, s, step).db.ex.status == s.db.ex.status
  {
    assert Distinct(s.db.ex.order);
    var st, st' := s.db.ex.state, Apply(c, s, step).db.ex.state;
    OrderMeansStates(c, s);
    NothingStopped(c, s);
    hide Inv, Rows, Apply, Distinct, Any, CalmStep, Acted, Enabled;
    StatesStay(c, s, step);
    StatusStays(s.db.ex.graph, st, st');
  }

  lemma NothingStopped(c: Settings, s: Sys)
    requires Inv(c, s) && !s.db.ex.cancellationRequested
    ensures forall n :: n in s.db.ex.state ==> s.db.ex.state[n] != Stopped
  {
    CalmFacts(c, s);
    hide Inv;
  }

  /** Failed tasks stay failed, satisfied ones satisfied. */
  ghost predicate Keeps(st: States, st': States) {
    st'.Keys == st.Keys && forall n :: n in st && (Satisfied(st[n]) || st[n] == Failure) ==> st'[n] == st[n]
  }

  lemma StatusStays(g: Graph, st: States, st': States)
    requires st != map[] && Keeps(st, st') && Terminal(StatusOf(st, false)) && forall n :: n in st ==> st[n] != Stopped
    ensures StatusOf(st', false) == StatusOf(st, false)
  {
    if Any(st, Failure) {
      var n :| n in st && st[n] == Failure;
      assert n in st' && st'[n] == Failure;
    } else {
      assert forall n :: n in st ==> Satisfied(st[n]);
      assert st' == st;
    }
  }

  lemma StatesStay(c: Settings, s: Sys, step: Step)
    requires Rows(s.db.ex) && s.starts.Keys == s.db.ex.state.Keys && Enabled(s, step) && Inv(c, s)
    requires !s.db.ex.cancellationRequested && Automatic(step)
    ensures Keeps(s.db.ex.state, Apply(c, s, step).db.ex.state)
  {
    assert Distinct(s.db.ex.order);
    var st, st' := s.db.ex.state, Apply(c, s, step).db.ex.state;
    hide Inv, Rows, Apply, Distinct, Enabled, Acted;
    StepKeys(c, s, step);
    forall n | n in st && (Satisfied(st[n]) || st[n] == Failure) ensures st'[n] == st[n] {
      StateStays(c, s, step, n);
    }
  }

  lemma StateStays(c: Settings, s: Sys, step: Step, n: Name)
    requires Rows(s.db.ex) && s.starts.Keys == s.db.ex.state.Keys && Enabled(s, step) && Inv(c, s)
    requires !s.db.ex.cancellationRequested && Automatic(step)
    requires n in s.db.ex.state && (Satisfied(s.db.ex.state[n]) || s.db.ex.state[n] == Failure)
    ensures n in Apply(c, s, step).db.ex.state && Apply(c, s, step).db.ex.state[n] == s.db.ex.state[n]
  {
    assert Distinct(s.db.ex.order);
    hide Inv, Rows, Apply, Distinct, Elsewhere;
    if n in Acted(s, step) {
      ActedStates(c, s, step);
      StepMoves(c, s, step);
      StepKeys(c, s, step);
      hide Enabled, Acted, ActedOk;
      EndedStays(s, step, n, Apply(c, s, step).db.ex.state[n]);
    } else {
      hide Acted;
      MovedElsewhere(c, s, step, n);
    }
  }

  lemma EndedStays(s: Sys, step: Step, n: Name, x': TaskState)
    requires Rows(s.db.ex) && Enabled(s, step) && Automatic(step) && !s.db.ex.cancellationRequested
    requires n in Acted(s, step) && n in s.db.ex.state && (Satisfied(s.db.ex.state[n]) || s.db.ex.state[n] == Failure)
    requires step.Finish? ==> s.db.ex.state[s.db.jobs[step.j].task] == Running
    requires ActedOk(s, step, s.db.ex.state[n], x')
    ensures x' == s.db.ex.state[n]
  {
    hide Rows, Succeeds;
  }

  /** In a run without operators the outbox holds the start and, if and only if the execution has ended, one more event,
      with its final status. */
  lemma {:induction false} RunEvents(c: Settings, ex: Execution, t0: Time, states: seq<Sys>, steps: seq<Step>, i: nat)
    requires IsRun(c, ex, t0, states, steps) && Unattended(steps) && i < |states|
    ensures var e := states[i].db.ex; e.outbox == [Started] + if Terminal(e.status) then [Finished(e.status)] else []
  {
    hide Inv, Rows, Apply, Enabled, Fresh, Spawned, Agrees, Posts, Manned, ViewOf;
    assert NoCancel(steps);
    if i == 0 {
      SpawnedEvents(c, ex, t0);
    } else {
      RunEvents(c, ex, t0, states, steps, i - 1);
      RunKeepsInv(c, ex, t0, states, steps, i - 1);
      UncancelledRun(c, ex, t0, states, steps, i - 1);
      NoCancelNoSweeps(c, ex, t0, states, steps);
      RunAgrees(c, ex, t0, states, steps, i - 1);
      RunAgrees(c, ex, t0, states, steps, i);
      assert Legal(c, states[i - 1], steps[i - 1], states[i]);
      StepEvents(c, states[i - 1], steps[i - 1]);
    }
  }

  lemma StepEvents(c: Settings, s: Sys, step: Step)
    requires Rows(s.db.ex) && s.starts.Keys == s.db.ex.state.Keys && Enabled(s, step) && Inv(c, s) && Agrees(s.db.ex)
    requires !s.db.ex.cancellationRequested && Automatic(step) && Agrees(Apply(c, s, step).db.ex)
    requires s.db.ex.outbox == [Started] + if Terminal(s.db.ex.status) then [Finished(s.db.ex.status)] else []
    ensures var e := Apply(c, s, step).db.ex;
      e.outbox == [Started] + if Terminal(e.status) then [Finished(e.status)] else []
  {
    hide Inv, Rows, Apply, Enabled, Agrees;
    StepPosts(c, s, step);
    if Terminal(s.db.ex.status) { TerminalStays(c, s, step); }
  }

  lemma SpawnedEvents(c: Settings, ex: Execution, t0: Time)
    requires Rows(ex) && Fresh(ex)
    ensures var e := Spawned(c, ex, t0).db.ex;
      e.outbox == [Started] + if Terminal(e.status) then [Finished(e.status)] else []
  {
    EnqueueReadyPosts(ex, Db(ex, []), t0, c.maxAttempts);
    hide EnqueueReady, Known, Acyclic, Distinct, Rows;
  }
}
