/** A run in which an execution that counts as cancelled is taken up again. */
module EngineLate {
  import opened Dag
  import opened Tasks
  import opened Q = QueueRecords
  import opened E = ExecutionState
  import opened Engine
  import opened EngineCore
  import opened EngineInv
  import opened EngineStatus
  import opened EngineSafety

  /** Two tasks without dependencies, one retry each. */
  function Pair(first: TaskState, second: TaskState): Execution {
    var cfg := Config(1, 0, false, 0, 0.0, 0.0);
    Execution(0, 0, 0, [0, 1], map[0 := [], 1 := []], map[0 := cfg, 1 := cfg], map[0 := first, 1 := second],
              map[0 := 0, 1 := 0], false, StatusRunning, None, [Started])
  }

  function Of(task: Name, state: JobState): Job {
    var queued := Job(0, 0, 0, task, 0, 0.0, 0.0, 0, 0, 2, false, Queued, None, None, None, None);
    if state == Leased then Claimed(queued, 0, 0.0, 30.0) else queued
  }

  lemma PairRows(first: TaskState, second: TaskState)
    ensures Rows(Pair(first, second)) && Elements([0, 1]) == {0, 1}
  {
    assert Elements([0, 1]) == {0, 1};
  }

  lemma PairIsFresh()
    ensures Rows(Pair(Pending, Pending)) && Fresh(Pair(Pending, Pending))
  {
    PairRows(Pending, Pending);
    var ex := Pair(Pending, Pending);
    forall n ensures !Reaches(ex.graph, n, n) {
      if Reaches(ex.graph, n, n) { ReachesLastEdge(ex.graph, n, n); }
    }
    hide Reaches;
  }

  lemma PairPass()
    requires Rows(Pair(Pending, Pending))
    ensures EnqueueAll(Db(Pair(Pending, Pending), []), [0, 1], 0.0, 2)
      == Db(Pair(Enqueued, Enqueued), [Of(0, Queued), Of(1, Queued)])
  {
    PairRows(Pending, Pending);
    PairRows(Enqueued, Pending);
    var db, db1 := Db(Pair(Pending, Pending), []), Db(Pair(Enqueued, Pending), [Of(0, Queued)]);
    var db2 := Db(Pair(Enqueued, Enqueued), [Of(0, Queued), Of(1, Queued)]);
    PairOne();
    hide EnqueueOne, Pair, Of, Rows;
    assert [0, 1][1..] == [1] && [1][1..] == [] && Elements([1]) <= Elements([0, 1]) && 1 in db1.ex.state;
    assert EnqueueAll(db1, [1], 0.0, 2) == EnqueueAll(db2, [], 0.0, 2) == db2;
    assert EnqueueAll(db, [0, 1], 0.0, 2) == EnqueueAll(db1, [1], 0.0, 2);
  }

  lemma PairOne()
    ensures 0 in Pair(Pending, Pending).state && 1 in Pair(Enqueued, Pending).state
    ensures Rows(Pair(Pending, Pending)) && Rows(Pair(Enqueued, Pending))
    ensures EnqueueOne(Db(Pair(Pending, Pending), []), 0, 0.0, 2) == Db(Pair(Enqueued, Pending), [Of(0, Queued)])
    ensures EnqueueOne(Db(Pair(Enqueued, Pending), [Of(0, Queued)]), 1, 0.0, 2)
      == Db(Pair(Enqueued, Enqueued), [Of(0, Queued), Of(1, Queued)])
  {
    PairRows(Pending, Pending);
    PairRows(Enqueued, Pending);
    hide Rows;
    RuleReady(Pair(Pending, Pending).graph, Pair(Pending, Pending).state, 0);
    RuleReady(Pair(Enqueued, Pending).graph, Pair(Enqueued, Pending).state, 1);
    hide Rule;
    assert Pair(Pending, Pending).state[0 := Enqueued] == Pair(Enqueued, Pending).state;
    assert Pair(Enqueued, Pending).state[1 := Enqueued] == Pair(Enqueued, Enqueued).state;
  }

  lemma RuleReady(g: Graph, st: States, n: Name)
    requires n in g && g[n] == []
    ensures Rule(g, st, n) == Enqueued
  {
  }

  // ---- the run: claim, start, cancel, skip the other task, and then the handler fails ----

  function LateSteps(): seq<Step> {
    [Step.Claim(0, 0, 0.0), Step.Start(0, 0.0), Step.Cancel(1.0), Step.Skip(1, 2.0), LastStep()]
  }

  function LastStep(): Step { Step.Finish(0, false, 3.0) }

  function Off(job: Job): Job { CancelledWith(job, 0, 1.0) }

  function S0(): Sys {
    Sys(Db(Pair(Enqueued, Enqueued), [Of(0, Queued), Of(1, Queued)]), map[], {}, {}, map[0 := 0, 1 := 0], {})
  }

  function S1(): Sys {
    var db := Db(Pair(Enqueued, Enqueued), [Of(0, Leased), Of(1, Queued)]);
    Sys(db, map[0 := Holding], {}, {}, map[0 := 0, 1 := 0], {})
  }

  function S2(): Sys {
    var db := Db(Pair(Running, Enqueued), [Of(0, Leased), Of(1, Queued)]);
    Sys(db, map[0 := Inside], {}, {}, map[0 := 1, 1 := 0], {})
  }

  function S3(): Sys {
    S2().(db := Db(Pair(Running, Stopped).(cancellationRequested := true), [Off(Of(0, Leased)), Off(Of(1, Queued))]))
  }

  function S4(): Sys {
    var ended := Pair(Stopped, Skipped).(status := StatusCancelled, finishedAt := Some(2.0));
    var ex := ended.(cancellationRequested := true, outbox := [Started, Finished(StatusCancelled)]);
    S2().(db := Db(ex, [Off(Of(0, Leased)), Off(Of(1, Queued))]))
  }

  predicate Usual(s: Sys) { Rows(s.db.ex) && s.starts.Keys == s.db.ex.state.Keys }

  lemma LateSpawned(c: Settings)
    requires c == Settings(2, 30.0) && Rows(Pair(Pending, Pending))
    ensures Spawned(c, Pair(Pending, Pending), 0.0) == S0()
  {
    PairPass();
    PairRefresh();
    hide EnqueueAll, Rows, Of, Refresh;
    assert (map n | n in Pair(Pending, Pending).state :: 0) == map[0 := 0, 1 := 0];
    assert Pair(Pending, Pending).order == [0, 1];
    hide Pair;
  }

  lemma PairRefresh()
    ensures Refresh(Pair(Enqueued, Enqueued), 0.0) == Pair(Enqueued, Enqueued)
      && !Pair(Pending, Pending).cancellationRequested
  {
    var st := Pair(Enqueued, Enqueued).state;
    assert StatusOf(st, false) == StatusRunning by { assert !Any(st, Failure); assert st[0] == Enqueued; }
    hide StatusOf;
  }

  lemma LateRows()
    ensures Usual(S0()) && Usual(S1()) && Usual(S2()) && Usual(S3()) && Usual(S4())
  {
    PairRows(Enqueued, Enqueued);
    PairRows(Running, Enqueued);
    PairRows(Running, Stopped);
    PairRows(Stopped, Skipped);
    hide Elements;
  }

  lemma LateClaim(c: Settings)
    requires c == Settings(2, 30.0)
    ensures Enabled(S0(), Step.Claim(0, 0, 0.0)) && AfterClaim(c, S0(), 0, 0, 0.0) == S1()
  {
    hide StepFrame, Rows;
    assert S0().db.jobs[0 := Of(0, Leased)] == S1().db.jobs;
  }

  lemma LateStart()
    requires Rows(S1().db.ex)
    ensures Enabled(S1(), Step.Start(0, 0.0)) && AfterStart(S1(), 0, 0.0) == S2()
  {
    hide StepFrame, Rows;
    assert S1().db.ex.state[0 := Running] == S2().db.ex.state;
    assert S1().starts[0 := 1] == S2().starts;
  }

  lemma LateCancel()
    ensures CancelExecution(S2().db, 1.0) == S3().db
  {
    CancelledPair();
    OffJobs();
    StillRunning(S3().db.ex.state);
    hide CancelExecutionJobs, CancelRows, CancelExecution, StatusOf, Of, Off;
    CancelIs(S2().db, 1.0);
  }

  lemma CancelledPair()
    ensures CancelRows(Pair(Running, Enqueued)) == Pair(Running, Stopped).(cancellationRequested := true)
  {
  }

  lemma CancelIs(db: Db, now: Time)
    requires !Terminal(db.ex.status)
    ensures CancelExecution(db, now) == Db(Refresh(CancelRows(db.ex), now), CancelExecutionJobs(db.jobs, db.ex.id, now))
  {
    hide CancelExecutionJobs, Refresh;
  }

  lemma OffJobs()
    ensures CancelExecutionJobs([Of(0, Leased), Of(1, Queued)], 0, 1.0) == [Off(Of(0, Leased)), Off(Of(1, Queued))]
    ensures CancelTaskJobs([Off(Of(0, Leased)), Off(Of(1, Queued))], 0, 1, 2.0)
      == [Off(Of(0, Leased)), Off(Of(1, Queued))]
  {
  }

  lemma StillRunning(st: States)
    requires st == map[0 := Running, 1 := Stopped]
    ensures StatusOf(st, true) == StatusRunning
  {
    assert !Any(st, Failure);
    assert st[0] == Running && Any(st, Running);
  }

  lemma LateSkip()
    requires Rows(S3().db.ex)
    ensures MaySkip(S3().db.ex, 1) && SkipTask(S3().db, 1, 2.0, 2) == S4().db
  {
    hide StatusOf, CancelTaskJobs, Rows, Of, Off, SkipTask;
    var db, db' := S3().db, S4().db;
    OffJobs();
    assert StopLive(db.ex.state[1 := Skipped]) == db'.ex.state;
    NowCancelled(db'.ex.state);
    hide StopLive;
    SkipIs(db, 1, 2.0, 2);
  }

  lemma NowCancelled(st: States)
    requires st == map[0 := Stopped, 1 := Skipped]
    ensures StatusOf(st, true) == StatusCancelled
  {
    assert !Any(st, Failure) && 0 in st;
  }

  /** Skipping in a cancelled execution. */
  lemma SkipIs(db: Db, n: Name, now: Time, maxAttempts: nat)
    requires Rows(db.ex) && MaySkip(db.ex, n) && db.ex.cancellationRequested
    ensures SkipTask(db, n, now, maxAttempts) ==
      Db(Refresh(db.ex.(state := StopLive(db.ex.state[n := Skipped])), now), CancelTaskJobs(db.jobs, db.ex.id, n, now))
  {
    hide StatusOf, StopLive, CancelTaskJobs, Rows, Refresh;
    RefreshTwice(db.ex.(state := StopLive(db.ex.state[n := Skipped])), now, now);
  }

  lemma LegalClaim(c: Settings)
    requires c == Settings(2, 30.0) && Usual(S0()) && Usual(S1())
    ensures Legal(c, S0(), Step.Claim(0, 0, 0.0), S1())
  {
    LateClaim(c);
    hide AfterClaim, Rows, StepFrame, S0, S1, OwnJob;
  }

  lemma LegalStart(c: Settings)
    requires Usual(S1()) && Usual(S2())
    ensures Legal(c, S1(), Step.Start(0, 0.0), S2())
  {
    LateStart();
    hide AfterStart, Rows, StepFrame, S1, S2, OwnJob;
  }

  lemma LegalCancel(c: Settings)
    requires Usual(S2()) && Usual(S3())
    ensures Legal(c, S2(), Step.Cancel(1.0), S3())
  {
    hide CancelExecution, Rows, StepFrame, Pair, Of, Off;
    LateCancel();
    assert S3() == S2().(db := S3().db);
    hide S2, S3;
  }

  lemma LegalSkip(c: Settings)
    requires c.maxAttempts == 2 && Usual(S3()) && Usual(S4())
    ensures Legal(c, S3(), Step.Skip(1, 2.0), S4())
  {
    hide SkipTask, Rows, StepFrame, Pair, Of, Off, MaySkip;
    LateSkip();
    assert S4() == S3().(db := S4().db);
    hide S2, S3, S4;
  }

  lemma LateReopens()
    requires Rows(S4().db.ex)
    ensures Enabled(S4(), LastStep()) && Reopens(S4(), LastStep()) && Agrees(S4().db.ex)
  {
    hide Rows, StatusOf;
    assert !OtherFailed(S4().db.ex.state, 0);
    NowCancelled(S4().db.ex.state);
  }

  ghost function LateStates(c: Settings): seq<Sys>
    requires Usual(S4()) && Enabled(S4(), LastStep())
  {
    [S0(), S1(), S2(), S3(), S4(), Apply(c, S4(), LastStep())]
  }

  lemma LateRun(c: Settings)
    requires c == Settings(2, 30.0) && Rows(Pair(Pending, Pending)) && Fresh(Pair(Pending, Pending))
    requires Usual(S0()) && Usual(S1()) && Usual(S2()) && Usual(S3()) && Usual(S4()) && Enabled(S4(), LastStep())
    ensures IsRun(c, Pair(Pending, Pending), 0.0, LateStates(c), LateSteps())
  {
    hide Apply, Enabled, Rows, Fresh, Spawned, S0, S1, S2, S3, S4, Pair, LastStep;
    LateSpawned(c);
    LegalClaim(c);
    LegalStart(c);
    LegalCancel(c);
    LegalSkip(c);
    assert Legal(c, S4(), LastStep(), LateStates(c)[5]);
    hide Legal;
  }

  /** While a handler runs its execution is cancelled, and skipping the other task sweeps the handler's row: everything
      counts as cancelled. Then the handler fails, and its task is queued again under a terminal status. */
  lemma CancelledExecutionReopens(c: Settings)
    requires c == Settings(2, 30.0)
    ensures exists states: seq<Sys> :: IsRun(c, Pair(Pending, Pending), 0.0, states, LateSteps()) && EndsWrong(states)
  {
    PairIsFresh();
    LateRows();
    LateReopens();
    LateStatus(c);
    hide Rows, Fresh, Pair, Apply, Enabled, Reopens, Agrees, S0, S1, S2, S3, S4, LateSteps;
    LateRun(c);
    LateDisagrees(c, LateStates(c));
  }

  /** The last status is terminal, and not the one its task states stand for. */
  ghost predicate EndsWrong(states: seq<Sys>) {
    |states| == 6 && Terminal(states[5].db.ex.status) && !Agrees(states[5].db.ex)
  }

  lemma LateDisagrees(c: Settings, states: seq<Sys>)
    requires IsRun(c, Pair(Pending, Pending), 0.0, states, LateSteps()) && states[4] == S4()
    requires Usual(S4()) && Enabled(S4(), LastStep()) && Reopens(S4(), LastStep()) && Agrees(S4().db.ex)
    ensures !Agrees(states[5].db.ex)
  {
    assert |LateSteps()| == 5 && LateSteps()[4] == LastStep();
    hide Rows, Fresh, Pair, Apply, Enabled, Reopens, Agrees, S4, LateSteps, Core, Settled, Spawned, LastStep;
    assert Legal(c, states[4], LateSteps()[4], states[5]);
    assert states[5] == Apply(c, S4(), LastStep());
    LateCore(c, states);
    hide IsRun;
    StepAgreement(c, S4(), LastStep());
  }

  lemma LateCore(c: Settings, states: seq<Sys>)
    requires IsRun(c, Pair(Pending, Pending), 0.0, states, LateSteps())
    ensures Core(c, states[4])
  {
    assert |LateSteps()| == 5;
    hide Rows, Fresh, Pair, Apply, Enabled, LateSteps, Core, Settled, Spawned;
    RunKeepsInv(c, Pair(Pending, Pending), 0.0, states, LateSteps(), 4);
  }

  lemma LateStatus(c: Settings)
    requires Usual(S4()) && Enabled(S4(), LastStep())
    ensures Apply(c, S4(), LastStep()).db.ex.status == StatusCancelled
  {
    hide Rows, StepFrame, NewJob, Acknowledge, Backoff;
  }

  // ---- the same beginning: now the swept task is skipped too, and its worker is interrupted ----

  function S5(): Sys {
    S4().(db := S4().db.(ex := S4().db.ex.(state := map[0 := Skipped, 1 := Skipped])))
  }

  function SweptSteps(): seq<Step> { [Step.Claim(0, 0, 0.0), Step.Start(0, 0.0), Step.Cancel(1.0), Step.Skip(1, 2.0)] }

  lemma SweptRun(c: Settings)
    requires c == Settings(2, 30.0) && Rows(Pair(Pending, Pending)) && Fresh(Pair(Pending, Pending))
    requires Usual(S0()) && Usual(S1()) && Usual(S2()) && Usual(S3()) && Usual(S4())
    ensures IsRun(c, Pair(Pending, Pending), 0.0, [S0(), S1(), S2(), S3(), S4()], SweptSteps())
  {
    hide Rows, Fresh, Spawned, S0, S1, S2, S3, S4, Pair;
    LateSpawned(c);
    LegalClaim(c);
    LegalStart(c);
    LegalCancel(c);
    LegalSkip(c);
    hide Legal;
  }

  lemma SkipAgain()
    requires Rows(S4().db.ex)
    ensures MaySkip(S4().db.ex, 0) && SkipTask(S4().db, 0, 3.0, 2) == S5().db
  {
    hide StatusOf, CancelTaskJobs, Rows, Of, Off, SkipTask;
    var db := S4().db;
    OffJobsAgain();
    assert StopLive(db.ex.state[0 := Skipped]) == map[0 := Skipped, 1 := Skipped];
    AllSkipped(map[0 := Skipped, 1 := Skipped]);
    hide StopLive;
    SkipIs(db, 0, 3.0, 2);
  }

  lemma OffJobsAgain()
    ensures CancelTaskJobs([Off(Of(0, Leased)), Off(Of(1, Queued))], 0, 0, 3.0)
      == [Off(Of(0, Leased)), Off(Of(1, Queued))]
  {
  }

  lemma AllSkipped(st: States)
    requires st == map[0 := Skipped, 1 := Skipped]
    ensures StatusOf(st, true) == StatusCancelled
  {
    assert !Any(st, Failure) && 0 in st;
  }

  lemma LegalSkipAgain(c: Settings)
    requires c.maxAttempts == 2 && Usual(S4())
    ensures Legal(c, S4(), Step.Skip(0, 3.0), S5())
  {
    hide SkipTask, Rows, StepFrame, Pair, Of, Off, MaySkip;
    SkipAgain();
    assert S5() == S4().(db := S5().db);
    hide S2, S4, S5;
  }

  /** The worker is still inside the skipped task. */
  lemma StillInside()
    ensures IsInside(S5(), 0) && S5().db.ex.cancellationRequested && S5().db.jobs[0].task == 0
      && S5().db.ex.state[0] == Skipped
  {
  }

  /** A skipped task can be cancelled after all: its row was swept while its worker was inside, an operator skipped it,
      and then the worker is interrupted. */
  lemma SkippedIsLeft(c: Settings)
    requires c == Settings(2, 30.0)
    ensures exists states: seq<Sys> ::
      IsRun(c, Pair(Pending, Pending), 0.0, states,
            SweptSteps() + [Step.Skip(0, 3.0)] + [Step.Interrupt(0, 4.0)]) && LeavesSkipped(states)
  {
    PairIsFresh();
    LateRows();
    hide Rows, Fresh, Pair, S0, S1, S2, S3, S4, SweptSteps, Usual;
    SweptRun(c);
    LegalSkipAgain(c);
    S5Usual();
    var four, ex := [S0(), S1(), S2(), S3(), S4()], Pair(Pending, Pending);
    assert |SweptSteps()| == 4 by { hide *; SweptLength(); }
    RunAppend(c, ex, 0.0, four, SweptSteps(), Step.Skip(0, 3.0), S5());
    hide IsRun, S5;
    SkippedLast(c, ex, four + [S5()], SweptSteps() + [Step.Skip(0, 3.0)]);
  }

  lemma SweptLength()
    ensures |SweptSteps()| == 4
  {
  }

  predicate LeavesSkipped(states: seq<Sys>) {
    && |states| == 7 && 0 in states[5].db.ex.state && 0 in states[6].db.ex.state
    && states[5].db.ex.state[0] == Skipped && states[6].db.ex.state[0] == Stopped
  }

  /** Interrupting the worker cancels the skipped task. */
  lemma LegalInterrupt(c: Settings) returns (s': Sys)
    requires Usual(S5())
    ensures Legal(c, S5(), Step.Interrupt(0, 4.0), s') && 0 in s'.db.ex.state && s'.db.ex.state[0] == Stopped
  {
    var step := Step.Interrupt(0, 4.0);
    StillInside();
    hide S5, Rows;
    assert Enabled(S5(), step);
    s' := Apply(c, S5(), step);
    InterruptStops(c, S5(), step);
    hide Apply, Enabled;
  }

  lemma S5Usual()
    requires Usual(S4())
    ensures Usual(S5())
  {
    assert S5().db.ex.state.Keys == S4().db.ex.state.Keys;
    hide Elements;
  }

  lemma SkippedLast(c: Settings, ex: Execution, states: seq<Sys>, steps: seq<Step>)
    requires IsRun(c, ex, 0.0, states, steps) && |steps| == 5 && |states| == 6 && states[5] == S5() && Usual(S5())
    ensures exists states': seq<Sys> ::
      IsRun(c, ex, 0.0, states', steps + [Step.Interrupt(0, 4.0)]) && LeavesSkipped(states')
  {
    StillInside();
    hide S5, IsRun, Legal, Usual;
    var s' := LegalInterrupt(c);
    RunAppend(c, ex, 0.0, states, steps, Step.Interrupt(0, 4.0), s');
    var states' := states + [s'];
    assert states'[5] == S5() && states'[6] == s';
    assert LeavesSkipped(states');
    hide LeavesSkipped;
  }
}
