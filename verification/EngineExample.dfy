/** A complete run of one task: claimed, started, finished. */
module EngineExample {
  import opened Dag
  import opened Q = QueueRecords
  import opened E = ExecutionState
  import opened Engine
  import opened EngineInv
  import opened EngineStatus
  import opened EngineMeasure
  import opened EngineQuiet
  import opened EngineOutcome
  import opened EngineGaps
  import C = EngineTiming
  import T = Timing

  function OneTaskSteps(): seq<Step> { [Step.Claim(0, 0, 0.0), Step.Start(0, 1.0), Step.Finish(0, true, 2.0)] }

  function Succeeded(): Sys {
    var events := [Started, Finished(StatusSuccess)];
    var ex := Waiting(Success).(status := StatusSuccess, finishedAt := Some(2.0), outbox := events);
    Sys(Db(ex, [Acknowledged(Leasing(), 2.0)]), map[], {}, {}, map[0 := 1], {})
  }

  function Waits(): Sys {
    Sys(Db(Waiting(Enqueued), [Lone(Queued, 0, false, None, None, None)]), map[], {}, {}, map[0 := 0], {})
  }

  function Held(): Sys { Sys(Db(Waiting(Enqueued), [Leasing()]), map[0 := Holding], {}, {}, map[0 := 0], {}) }

  function Runs(): Sys { Sys(Db(Waiting(Running), [Leasing()]), map[0 := Inside], {}, {}, map[0 := 1], {}) }

  function OneTaskStates(): seq<Sys> { [Waits(), Held(), Runs(), Succeeded()] }

  lemma WaitingRows(x: TaskState)
    ensures Rows(Waiting(x)) && Waiting(x).state == map[0 := x]
  {
    assert Elements([0]) == {0};
  }

  lemma ClaimIsLegal(c: Settings)
    requires c == Settings(1, 30.0)
    ensures Legal(c, Waits(), Step.Claim(0, 0, 0.0), Held())
  {
    WaitingRows(Enqueued);
    hide Rows, StepFrame;
  }

  lemma StartIsLegal(c: Settings)
    ensures Legal(c, Held(), Step.Start(0, 1.0), Runs())
  {
    WaitingRows(Enqueued);
    hide Rows, StepFrame;
    assert map[0 := Enqueued][0 := Running] == map[0 := Running];
  }

  /** With everything satisfied the pass finds nothing to do. */
  lemma PassFindsNothing(db: Db)
    requires Rows(db.ex) && db.ex.order == [0] && db.ex.state == map[0 := Success]
    ensures EnqueueAll(db, [0], 2.0, 1) == db
  {
    assert EnqueueOne(db, 0, 2.0, 1) == db;
    hide EnqueueOne;
    assert [0][1..] == [];
    assert EnqueueAll(db, [0], 2.0, 1) == EnqueueAll(db, [], 2.0, 1) == db;
  }

  lemma StatusSucceeds(st: States)
    requires st == map[0 := Success]
    ensures StatusOf(st, false) == StatusSuccess
  {
    assert !Any(st, Failure) && st[0] == Success;
  }

  /** Finishing with nothing left to queue. */
  lemma CompleteIs(db: Db, done: Db)
    requires Rows(db.ex) && OwnJob(db, 0) && Rows(done.ex) && done.ex.order == [0] && done.ex.state == map[0 := Success]
    requires done == Db(SetState(db.ex, db.jobs[0].task, Success), Acknowledge(db.jobs, 0, 2.0))
      && !done.ex.cancellationRequested
    ensures Complete(db, 0, 2.0, 1) == Db(Refresh(Refresh(done.ex, 2.0), 2.0), done.jobs)
  {
    PassFindsNothing(done);
    hide StatusOf, EnqueueAll, Rows, Acknowledge, Refresh;
  }

  function Done(): Db { Db(Waiting(Success), [Acknowledged(Leasing(), 2.0)]) }

  lemma DoneIs()
    requires Rows(Runs().db.ex) && OwnJob(Runs().db, 0)
    ensures Done() == Db(SetState(Runs().db.ex, Runs().db.jobs[0].task, Success), Acknowledge(Runs().db.jobs, 0, 2.0))
    ensures Done().ex.order == [0] && Done().ex.state == map[0 := Success] && !Done().ex.cancellationRequested
  {
    hide Rows;
    assert map[0 := Running][0 := Success] == map[0 := Success];
  }

  lemma DoneSucceeds()
    ensures Refresh(Done().ex, 2.0) == Succeeded().db.ex && Done().jobs == Succeeded().db.jobs && Rows(Done().ex)
  {
    WaitingRows(Success);
    StatusSucceeds(Done().ex.state);
    hide Rows, StatusOf, Acknowledged;
  }

  lemma CompleteSucceeds()
    requires Rows(Runs().db.ex) && OwnJob(Runs().db, 0)
    ensures Complete(Runs().db, 0, 2.0, 1) == Succeeded().db
  {
    DoneIs();
    DoneSucceeds();
    RefreshTwice(Done().ex, 2.0, 2.0);
    hide *;
    CompleteIs(Runs().db, Done());
  }

  lemma FinishIsLegal(c: Settings)
    requires c == Settings(1, 30.0)
    ensures Legal(c, Runs(), Step.Finish(0, true, 2.0), Succeeded())
  {
    WaitingRows(Running);
    RunsInside();
    hide Rows, StepFrame, Complete, Succeeds, E.Finish, Runs, Succeeded;
    CompleteSucceeds();
    FinishIs(Runs().db, 0, true, 2.0, 1);
  }

  lemma RunsInside()
    requires Rows(Runs().db.ex)
    ensures IsInside(Runs(), 0) && Runs().starts.Keys == Runs().db.ex.state.Keys && Runs().db.jobs[0].task == 0
    ensures Succeeds(Runs().db.ex, 0, true) && !Runs().db.ex.cancellationRequested && Rows(Runs().db.ex)
    ensures Succeeded() == Runs().(db := Succeeded().db, runs := Runs().runs - {0})
  {
    hide Rows;
  }

  lemma OneTaskFollows(h: Script)
    requires h(0, 0)
    ensures RunFollows(OneTaskStates(), OneTaskSteps(), h)
  {
    assert Follows(Runs(), Step.Finish(0, true, 2.0), h) by { hide Rows; }
    hide Waits, Held, Runs, Succeeded;
    forall i | 0 <= i < |OneTaskSteps()| ensures Follows(OneTaskStates()[i], OneTaskSteps()[i], h) {
      assert i == 0 || i == 1 || i == 2;
    }
  }

  lemma SpawnedWaits(c: Settings)
    requires c == Settings(1, 30.0) && Rows(Single())
    ensures Spawned(c, Single(), 0.0) == Waits()
  {
    hide Rows, Spawned;
    SingleSpawned(c);
  }

  lemma ThreeSteps(c: Settings, ex: Execution, t0: Time, s0: Sys, p: Step, s1: Sys, q: Step, s2: Sys, r: Step, s3: Sys)
    requires c.maxAttempts >= 1 && Rows(ex) && Fresh(ex) && s0 == Spawned(c, ex, t0)
    requires Legal(c, s0, p, s1) && Legal(c, s1, q, s2) && Legal(c, s2, r, s3)
    ensures IsRun(c, ex, t0, [s0, s1, s2, s3], [p, q, r])
  {
    hide Fresh, Spawned, Legal, Rows;
    var states, steps := [s0, s1, s2, s3], [p, q, r];
    forall i | 0 <= i < |steps| ensures Legal(c, states[i], steps[i], states[i + 1]) {
      assert i == 0 || i == 1 || i == 2;
    }
  }

  lemma OneTaskIsRun(c: Settings)
    requires c == Settings(1, 30.0)
    ensures IsRun(c, Single(), 0.0, OneTaskStates(), OneTaskSteps())
  {
    hide Fresh, Spawned, Legal, Rows, Single, Runs, Held, Waits, Succeeded;
    SingleIsFresh();
    SpawnedWaits(c);
    ClaimIsLegal(c);
    StartIsLegal(c);
    FinishIsLegal(c);
    ThreeSteps(c, Single(), 0.0, Waits(), Step.Claim(0, 0, 0.0), Held(), Step.Start(0, 1.0), Runs(),
               Step.Finish(0, true, 2.0), Succeeded());
    hide IsRun;
  }

  /** The run is one of those the results speak of, and ends as they say. */
  lemma OneTaskRuns(c: Settings, h: Script)
    requires c == Settings(1, 30.0) && h(0, 0)
    ensures EndsWith(c, Single(), 0.0, OneTaskStates(), OneTaskSteps(), h, Succeeded())
    ensures Succeeded().db.ex.status == StatusSuccess && Succeeded().db.ex.outbox == [Started, Finished(StatusSuccess)]
  {
    OneTaskEnds();
    hide IsRun, RunFollows, Unattended, AllEnded, Waits, Held, Runs;
    OneTaskIsRun(c);
    OneTaskFollows(h);
  }

  lemma OneTaskEnds()
    ensures Unattended(OneTaskSteps()) && AllEnded(Succeeded().db.ex.state)
  {
  }

  // ---- the same run under a clock ----

  function Limits(): T.Limits { T.Limits(30, 5, 600) }

  function HeldByOne(): map<JobId, T.Hold> { map[0 := T.Hold(0, 0.0)] }

  function Ticking(): map<Name, T.Beat> { map[0 := T.Beat(1.0, Some(1.0), true, 60.0)] }

  function TimedStates(): seq<C.Timed> {
    [C.Timed(Waits(), map[], map[], {}, 0.0), C.Timed(Held(), HeldByOne(), map[], {}, 0.0),
     C.Timed(Runs(), HeldByOne(), Ticking(), {}, 1.0), C.Timed(Succeeded(), map[], map[], {}, 2.0)]
  }

  function TimedMoves(): seq<C.Move> {
    [C.Acts(Step.Claim(0, 0, 0.0), 0.0, 0.0), C.Acts(Step.Start(0, 1.0), 1.0, 60.0),
     C.Acts(Step.Finish(0, true, 2.0), 2.0, 0.0)]
  }

  lemma IntervalIs()
    ensures T.Lease(Limits()) == 30.0 && T.RenewalInterval(Limits()) == 5.0 && T.Timeout(Limits(), 60.0) == 60.0
    ensures T.Permitted(Limits())
  {
  }

  lemma ClaimIsOnTime(c: Settings)
    requires c == Settings(1, 30.0)
    ensures C.Taken(c, Limits(), 1.0, TimedStates()[0], TimedMoves()[0], TimedStates()[1])
  {
    ClaimIsLegal(c);
    IntervalIs();
    hide Rows, Apply, Enabled, Waits, Held, Runs, Succeeded, Limits, T.RenewalInterval, T.Lease;
  }

  lemma StartIsOnTime(c: Settings)
    requires c == Settings(1, 30.0)
    ensures C.Taken(c, Limits(), 1.0, TimedStates()[1], TimedMoves()[1], TimedStates()[2])
  {
    StartIsLegal(c);
    IntervalIs();
    assert OwnJob(Held().db, 0) && Starts(Held().db, 0) && Held().db.jobs[0].task == 0 by { hide Rows; }
    hide Rows, Apply, Enabled, Waits, Held, Runs, Succeeded, Limits, T.RenewalInterval, T.Lease, T.Timeout, OwnJob,
      Starts;
  }

  lemma FinishMarks()
    ensures C.HeldAfter(TimedStates()[2], TimedMoves()[2]) == map[]
      && C.BeatsAfter(Limits(), TimedStates()[2], TimedMoves()[2]) == map[]
  {
    assert |Runs().db.jobs| == 1 && Runs().db.jobs[0].task == 0;
    hide Runs, Waits, Held, Succeeded;
    assert HeldByOne() - {0} == map[] && Ticking() - {0} == map[];
  }

  lemma FinishIsOnTime(c: Settings)
    requires c == Settings(1, 30.0)
    ensures C.Taken(c, Limits(), 1.0, TimedStates()[2], TimedMoves()[2], TimedStates()[3])
  {
    hide Legal, Runs, Waits, Held, Succeeded, Limits, T.RenewalInterval, T.Lease, C.Taken, C.HeldAfter, C.BeatsAfter;
    FinishIsLegal(c);
    FinishMarks();
    IntervalIs();
    LegalIsTaken(c, Limits(), 1.0, TimedStates()[2], TimedMoves()[2], TimedStates()[3]);
  }

  /** A legal step of a worker or an operator that is on time, apart from the readings claims, starts and renewals
      take. */
  lemma LegalIsTaken(c: Settings, l: T.Limits, overhead: real, t: C.Timed, m: C.Move, t': C.Timed)
    requires m.Acts? && Legal(c, t.s, m.step, t'.s) && !m.step.ReapLeases? && !m.step.ReapHung?
    requires !m.step.Claim? && !m.step.Start? && !m.step.Renew?
    requires t.clock <= m.at && T.OnTime(l, t.held, m.at) && T.InTime(t.beats, overhead, m.at)
    requires t' == C.Timed(t'.s, C.HeldAfter(t, m), C.BeatsAfter(l, t, m), t.listed, m.at)
    ensures C.Taken(c, l, overhead, t, m, t')
  {
    hide Rows, Apply, Enabled, T.OnTime, T.InTime, C.HeldAfter, C.BeatsAfter, C.Hanging;
  }

  lemma ThreeMoves(c: Settings, l: T.Limits, overhead: real, ex: Execution, t0: Time,
                   states: seq<C.Timed>, moves: seq<C.Move>)
    requires Rows(ex) && Fresh(ex) && C.Allowed(c, l, overhead)
    requires |states| == 4 && |moves| == 3 && states[0] == C.Outset(c, ex, t0)
    requires C.Taken(c, l, overhead, states[0], moves[0], states[1])
    requires C.Taken(c, l, overhead, states[1], moves[1], states[2])
    requires C.Taken(c, l, overhead, states[2], moves[2], states[3])
    ensures C.TimedRun(c, l, overhead, ex, t0, states, moves)
  {
    hide Rows, Fresh, C.Outset, C.Taken, C.Allowed;
    forall i | 0 <= i < |moves| ensures C.Taken(c, l, overhead, states[i], moves[i], states[i + 1]) {
      assert i == 0 || i == 1 || i == 2;
    }
  }

  /** The run can be had on time. */
  lemma OneTaskOnTime(c: Settings)
    requires c == Settings(1, 30.0)
    ensures C.TimedRun(c, Limits(), 1.0, Single(), 0.0, TimedStates(), TimedMoves())
  {
    assert C.Allowed(c, Limits(), 1.0) && |TimedStates()| == 4 && |TimedMoves()| == 3;
    SingleIsFresh();
    TimedStart(c);
    IntervalIs();
    hide *;
    ClaimIsOnTime(c);
    StartIsOnTime(c);
    FinishIsOnTime(c);
    ThreeMoves(c, Limits(), 1.0, Single(), 0.0, TimedStates(), TimedMoves());
  }

  lemma TimedStart(c: Settings)
    requires c == Settings(1, 30.0) && Rows(Single())
    ensures TimedStates()[0] == C.Outset(c, Single(), 0.0)
  {
    hide Rows, Spawned, Waits, Held, Runs, Succeeded;
    SpawnedWaits(c);
  }
}
