/** A run in which the watchdog strikes a live worker: the task was restarted between the query and the strike. */
module EngineRestart {
  import opened Dag
  import opened Q = QueueRecords
  import opened E = ExecutionState
  import opened Engine
  import opened EngineInv
  import opened EngineMoves
  import opened EngineGaps
  import opened EngineTiming
  import opened EngineStrikes
  import T = Timing
  import X = EngineExample

  // ---- claim, start, crash, a late reaper, the query, and then claim, start and strike ----

  function Moves(): seq<Move> {
    [Acts(Step.Claim(0, 0, 0.0), 0.0, 0.0), Acts(Step.Start(0, 0.0), 0.0, 60.0), Acts(Step.Crash(0), 1.0, 0.0),
     Acts(Step.ReapLeases(40.0), 40.0, 0.0), Lists(700.0, 700.0), Acts(Step.Claim(0, 1, 700.0), 700.0, 0.0),
     Acts(Step.Start(0, 700.0), 700.0, 60.0), Strike()]
  }

  function Strike(): Move { Acts(Step.ReapHung(0, 700.0), 700.0, 0.0) }

  function Again(): Job { First(5).(attempts := 1) }

  function Of(x: TaskState, job: Job, runs: map<JobId, Phase>, starts: nat): Sys {
    Sys(Db(Waiting(x), [job]), runs, {}, {}, map[0 := starts], {})
  }

  function Stale(inside: bool): map<Name, T.Beat> { map[0 := T.Beat(0.0, Some(0.0), inside, 60.0)] }

  function Renewed(): map<Name, T.Beat> { map[0 := T.Beat(0.0, Some(700.0), true, 60.0)] }

  function By(worker: WorkerId, read: Time): map<JobId, T.Hold> { map[0 := T.Hold(worker, read)] }

  /** The task is running again, with a live worker inside, when the strike comes. */
  function AtStrike(): Timed {
    Timed(Of(Running, Claimed(Again(), 1, 700.0, 30.0), map[0 := Inside], 2), By(1, 700.0), Renewed(), {0}, 700.0)
  }

  ghost function Struck(): Timed { AtStrike().(s := LoseTask(AtStrike().s, 0, 700.0)) }

  function FirstTry(): Job { Claimed(First(5), 0, 0.0, 30.0) }

  function Queued0(): Timed { Timed(Of(Enqueued, First(5), map[], 0), map[], map[], {}, 0.0) }

  function Held1(): Timed { Timed(Of(Enqueued, FirstTry(), map[0 := Holding], 0), By(0, 0.0), map[], {}, 0.0) }

  function Runs2(): Timed { Timed(Of(Running, FirstTry(), map[0 := Inside], 1), By(0, 0.0), Stale(true), {}, 0.0) }

  function Dead3(): Timed { Timed(Of(Running, FirstTry(), map[], 1), map[], Stale(false), {}, 1.0) }

  function Requeued4(): Timed { Timed(Of(Running, Again(), map[], 1), map[], Stale(false), {}, 40.0) }

  function Listed5(): Timed { Timed(Of(Running, Again(), map[], 1), map[], Stale(false), {0}, 700.0) }

  function Held6(): Timed {
    var job := Claimed(Again(), 1, 700.0, 30.0);
    Timed(Of(Running, job, map[0 := Holding], 1), By(1, 700.0), Stale(false), {0}, 700.0)
  }

  ghost function States(): seq<Timed> {
    [Queued0(), Held1(), Runs2(), Dead3(), Requeued4(), Listed5(), Held6(), AtStrike(), Struck()]
  }

  lemma OfRows(x: TaskState, job: Job, runs: map<JobId, Phase>, starts: nat)
    requires job.task == 0
    ensures var s := Of(x, job, runs, starts);
      && Rows(s.db.ex) && s.starts.Keys == s.db.ex.state.Keys && s.db.ex.state == map[0 := x] && OwnJob(s.db, 0)
      && s.db.ex.status == StatusRunning && !s.db.ex.cancellationRequested
  {
    assert Elements([0]) == {0};
  }

  /** A claim at the beat of the clock. */
  lemma Claims(c: Settings, x: TaskState, job: Job, starts: nat, beats: map<Name, T.Beat>, listed: set<Name>,
               worker: WorkerId, before: Time, at: Time)
    requires c == Settings(5, 30.0) && job.task == 0 && job.state == Queued && before <= at
    requires T.InTime(beats, 1.0, at)
    ensures Taken(c, X.Limits(), 1.0, Timed(Of(x, job, map[], starts), map[], beats, listed, before),
                  Acts(Step.Claim(0, worker, at), at, 0.0),
                  Timed(Of(x, Claimed(job, worker, at, 30.0), map[0 := Holding], starts), By(worker, at), beats,
                        listed, at))
  {
    OfRows(x, job, map[], starts);
    X.IntervalIs();
    hide Rows, StepFrame, Waiting, X.Limits, T.InTime;
  }

  /** A start at the beat of the clock. */
  lemma Begin(c: Settings, x: TaskState, job: Job, starts: nat, beats: map<Name, T.Beat>, listed: set<Name>,
              worker: WorkerId, at: Time)
    requires c == Settings(5, 30.0) && job.task == 0 && (x == Enqueued || x == Running) && T.InTime(beats, 1.0, at)
    ensures Taken(c, X.Limits(), 1.0,
                  Timed(Of(x, job, map[0 := Holding], starts), By(worker, at), beats, listed, at),
                  Acts(Step.Start(0, at), at, 60.0),
                  Timed(Of(Running, job, map[0 := Inside], starts + 1), By(worker, at),
                        T.Begun(X.Limits(), beats, 0, at, 60.0), listed, at))
  {
    OfRows(x, job, map[0 := Holding], starts);
    X.IntervalIs();
    BeginIs(x, job, starts, at);
    hide Rows, StepFrame, Of, AfterStart, X.Limits, T.InTime, T.Begun;
  }

  lemma BeginIs(x: TaskState, job: Job, starts: nat, at: Time)
    requires job.task == 0 && (x == Enqueued || x == Running)
    requires var s := Of(x, job, map[0 := Holding], starts); Rows(s.db.ex) && OwnJob(s.db, 0)
    ensures var s := Of(x, job, map[0 := Holding], starts);
      && Starts(s.db, 0) && s.db.jobs[0].task == 0 && |s.db.jobs| == 1 && s.runs == map[0 := Holding]
      && s.starts.Keys == {0} && AfterStart(s, 0, at) == Of(Running, job, map[0 := Inside], starts + 1)
  {
    hide Rows, StepFrame;
    assert map[0 := x][0 := Running] == map[0 := Running];
    assert map[0 := Holding][0 := Inside] == map[0 := Inside];
    assert map[0 := starts][0 := starts + 1] == map[0 := starts + 1];
  }

  lemma Crashes(c: Settings)
    ensures Taken(c, X.Limits(), 1.0, Runs2(), Acts(Step.Crash(0), 1.0, 0.0), Dead3())
  {
    CrashIs();
    X.IntervalIs();
    OfRows(Running, FirstTry(), map[0 := Inside], 1);
    hide Rows, Of, X.Limits, T.RenewalInterval, T.Lease, IsInside, StepFrame, FirstTry;
    assert map[0 := T.Hold(0, 0.0)] - {0} == map[];
  }

  lemma CrashIs()
    ensures FirstTry().task == 0
    ensures var s := Of(Running, FirstTry(), map[0 := Inside], 1);
      && |s.db.jobs| == 1 && s.db.jobs[0].task == 0 && 0 in s.runs && IsInside(s, 0)
      && s.(runs := s.runs - {0}) == Of(Running, FirstTry(), map[], 1)
  {
    assert map[0 := Inside] - {0} == map[];
  }

  lemma Reaps(c: Settings)
    ensures Taken(c, X.Limits(), 1.0, Dead3(), Acts(Step.ReapLeases(40.0), 40.0, 0.0), Requeued4())
  {
    ReapIs();
    OfRows(Running, FirstTry(), map[], 1);
    hide Rows, Of, X.Limits, AfterReapLeases, Enabled, FirstTry, Again, Hanging;
  }

  lemma ReapIs()
    ensures FirstTry().task == 0
    ensures AfterReapLeases(Of(Running, FirstTry(), map[], 1), 40.0) == Of(Running, Again(), map[], 1)
  {
    hide Rows, StepFrame, Waiting;
    assert RequeueStale([FirstTry()], 40.0) == [Again()];
    assert DeadLetters([FirstTry()], 40.0) == {};
  }

  lemma Queries(c: Settings)
    ensures Taken(c, X.Limits(), 1.0, Requeued4(), Lists(700.0, 700.0), Listed5())
  {
    OfRows(Running, Again(), map[], 1);
    assert Hanging(X.Limits(), Requeued4(), 700.0) == {0} by { hide Of, Rows; }
    hide Rows, Of, X.Limits, Hanging, Again, Enabled;
  }

  lemma Hits(c: Settings)
    ensures Taken(c, X.Limits(), 1.0, AtStrike(), Strike(), Struck())
  {
    AtStrikeFacts();
    hide AtStrike, X.Limits, LoseTask, Taken;
    StrikeIsTaken(c, X.Limits(), 1.0, AtStrike(), 0, 700.0);
  }

  lemma AtStrikeFacts()
    ensures var t := AtStrike();
      && Rows(t.s.db.ex) && t.s.starts.Keys == t.s.db.ex.state.Keys && t.s.db.ex.state == map[0 := Running]
      && t.listed == {0} && t.clock == 700.0 && 0 in InsideNow(t)
      && T.OnTime(X.Limits(), t.held, 700.0) && T.InTime(t.beats, 1.0, 700.0)
  {
    var t, job := AtStrike(), Claimed(Again(), 1, 700.0, 30.0);
    assert 0 in t.s.runs && t.s.runs[0] == Inside && t.s.db.jobs[0].task == 0;
    OfRows(Running, job, map[0 := Inside], 2);
    X.IntervalIs();
    hide Rows, Of, X.Limits, T.RenewalInterval, T.Lease;
  }

  lemma StrikeIsTaken(c: Settings, l: T.Limits, overhead: real, t: Timed, n: Name, at: Time)
    requires Rows(t.s.db.ex) && t.s.starts.Keys == t.s.db.ex.state.Keys && n in t.listed && t.clock == at
    requires T.OnTime(l, t.held, at) && T.InTime(t.beats, overhead, at)
    ensures Taken(c, l, overhead, t, Acts(Step.ReapHung(n, at), at, 0.0), t.(s := LoseTask(t.s, n, at)))
  {
    hide Rows, T.OnTime, T.InTime, LoseTask;
  }

  lemma FirstClaim(c: Settings)
    requires c == Settings(5, 30.0)
    ensures Taken(c, X.Limits(), 1.0, Queued0(), Acts(Step.Claim(0, 0, 0.0), 0.0, 0.0), Held1())
    ensures Taken(c, X.Limits(), 1.0, Held1(), Acts(Step.Start(0, 0.0), 0.0, 60.0), Runs2())
  {
    hide Taken, Of, X.Limits, T.Begun;
    FirstBeat();
    assert First(5).task == 0 && First(5).state == Queued;
    hide First;
    Claims(c, Enqueued, First(5), 0, map[], {}, 0, 0.0, 0.0);
    Begin(c, Enqueued, FirstTry(), 0, map[], {}, 0, 0.0);
  }

  lemma FirstBeat()
    ensures T.Begun(X.Limits(), map[], 0, 0.0, 60.0) == Stale(true)
    ensures T.Begun(X.Limits(), Stale(false), 0, 700.0, 60.0) == Renewed()
  {
    X.IntervalIs();
    hide X.Limits, T.Timeout;
  }

  lemma SecondClaim(c: Settings)
    requires c == Settings(5, 30.0)
    ensures Taken(c, X.Limits(), 1.0, Listed5(), Acts(Step.Claim(0, 1, 700.0), 700.0, 0.0), Held6())
    ensures Taken(c, X.Limits(), 1.0, Held6(), Acts(Step.Start(0, 700.0), 700.0, 60.0), AtStrike())
  {
    hide Taken, Of, X.Limits, T.Begun;
    FirstBeat();
    assert Again().task == 0 && Again().state == Queued && T.InTime(Stale(false), 1.0, 700.0);
    hide Again, T.InTime, Stale, Renewed;
    Claims(c, Running, Again(), 1, Stale(false), {0}, 1, 700.0, 700.0);
    Begin(c, Running, Claimed(Again(), 1, 700.0, 30.0), 1, Stale(false), {0}, 1, 700.0);
  }

  lemma IsOnTime(c: Settings)
    requires c == Settings(5, 30.0)
    ensures TimedRun(c, X.Limits(), 1.0, Single(), 0.0, States(), Moves())
  {
    hide *;
    FirstClaim(c);
    Crashes(c);
    Reaps(c);
    Queries(c);
    SecondClaim(c);
    Hits(c);
    RestartStart(c);
    AllTaken(c);
  }

  lemma AllTaken(c: Settings)
    requires Rows(Single()) && Fresh(Single()) && Allowed(c, X.Limits(), 1.0)
    requires |States()| == 9 && |Moves()| == 8 && States()[0] == Outset(c, Single(), 0.0)
    requires Taken(c, X.Limits(), 1.0, Queued0(), Acts(Step.Claim(0, 0, 0.0), 0.0, 0.0), Held1())
    requires Taken(c, X.Limits(), 1.0, Held1(), Acts(Step.Start(0, 0.0), 0.0, 60.0), Runs2())
    requires Taken(c, X.Limits(), 1.0, Runs2(), Acts(Step.Crash(0), 1.0, 0.0), Dead3())
    requires Taken(c, X.Limits(), 1.0, Dead3(), Acts(Step.ReapLeases(40.0), 40.0, 0.0), Requeued4())
    requires Taken(c, X.Limits(), 1.0, Requeued4(), Lists(700.0, 700.0), Listed5())
    requires Taken(c, X.Limits(), 1.0, Listed5(), Acts(Step.Claim(0, 1, 700.0), 700.0, 0.0), Held6())
    requires Taken(c, X.Limits(), 1.0, Held6(), Acts(Step.Start(0, 700.0), 700.0, 60.0), AtStrike())
    requires Taken(c, X.Limits(), 1.0, AtStrike(), Strike(), Struck())
    ensures TimedRun(c, X.Limits(), 1.0, Single(), 0.0, States(), Moves())
  {
    hide Taken, Outset, Fresh, Rows, Single, Allowed, X.Limits, Strike,
      Queued0, Held1, Runs2, Dead3, Requeued4, Listed5, Held6, AtStrike, Struck;
    forall i | 0 <= i < |Moves()| ensures Taken(c, X.Limits(), 1.0, States()[i], Moves()[i], States()[i + 1]) {
      assert i == 0 || i == 1 || i == 2 || i == 3 || i == 4 || i == 5 || i == 6 || i == 7;
    }
  }

  lemma RestartStart(c: Settings)
    requires c == Settings(5, 30.0)
    ensures Rows(Single()) && Fresh(Single()) && Allowed(c, X.Limits(), 1.0) && |States()| == 9 && |Moves()| == 8
    ensures States()[0] == Outset(c, Single(), 0.0)
  {
    assert Allowed(c, X.Limits(), 1.0);
    hide Fresh, Rows, Spawned, Single, X.Limits, Allowed, Waiting, First,
      Held1, Runs2, Dead3, Requeued4, Listed5, Held6, AtStrike, Struck;
    SingleIsFresh();
    SingleSpawned(c);
  }

  /** Move `m` strikes a task somebody is inside, who is still there when the task has failed. */
  predicate MeetsWorker(states: seq<Timed>, moves: seq<Move>, m: nat)
    requires |states| == |moves| + 1 && m < |moves|
  {
    && Striking(moves[m]) && moves[m].step.n in InsideNow(states[m]) && moves[m].step.n in InsideNow(states[m + 1])
    && var st := states[m + 1].s.db.ex.state; moves[m].step.n in st && st[moves[m].step.n] == Failure
  }

  lemma StruckFails()
    ensures 0 in InsideNow(AtStrike()) && 0 in InsideNow(Struck())
    ensures 0 in Struck().s.db.ex.state && Struck().s.db.ex.state[0] == Failure
  {
    AtStrikeFacts();
    assert Struck().s == LoseTask(AtStrike().s, 0, 700.0);
    hide AtStrike, Struck, Rows, InsideTasks;
    LoseMoves(AtStrike().s, 0, 700.0);
    hide HandleDeadLetter;
  }

  lemma RestartMeets()
    requires |States()| == 9 && |Moves()| == 8
    ensures MeetsWorker(States(), Moves(), 7)
  {
    StruckFails();
    hide AtStrike, Struck, InsideNow, Queued0, Held1, Runs2, Dead3, Requeued4, Listed5, Held6;
  }

  /** On time, and yet move `m` strikes a live worker; so it is no run of the engine. */
  ghost predicate GoesWrong(c: Settings, ex: Execution, states: seq<Timed>, moves: seq<Move>, m: nat) {
    && |states| == |moves| + 1 && m < |moves|
    && TimedRun(c, X.Limits(), 1.0, ex, 0.0, states, moves) && MeetsWorker(states, moves, m)
    && !IsRun(c, ex, 0.0, SysTo(states, moves, |moves|), StepsTo(moves, |moves|))
  }

  /** The watchdog fails a task that a punctual live worker is inside: its query returned the row while nobody was, and
      a new attempt began before the row was handled. */
  lemma StrikeMeetsWorker(c: Settings)
    requires c == Settings(5, 30.0)
    ensures GoesWrong(c, Single(), States(), Moves(), 7)
  {
    hide *;
    RestartStart(c);
    RestartMeets();
    IsOnTime(c);
    WrongIsNoRun(c, Single(), States(), Moves(), 7);
  }

  lemma WrongIsNoRun(c: Settings, ex: Execution, states: seq<Timed>, moves: seq<Move>, m: nat)
    requires |states| == |moves| + 1 && m < |moves|
    requires TimedRun(c, X.Limits(), 1.0, ex, 0.0, states, moves) && MeetsWorker(states, moves, m)
    ensures GoesWrong(c, ex, states, moves, m)
  {
    hide TimedRun, MeetsWorker, IsRun, Spares, X.Limits, SysTo, StepsTo;
    if IsRun(c, ex, 0.0, SysTo(states, moves, |moves|), StepsTo(moves, |moves|)) {
      RunSpares(c, X.Limits(), 1.0, ex, 0.0, states, moves, |moves|, m);
      NotSpared(states, moves, m);
      assert false;
    }
  }

  lemma NotSpared(states: seq<Timed>, moves: seq<Move>, m: nat)
    requires |states| == |moves| + 1 && m < |moves| && MeetsWorker(states, moves, m)
    ensures !Spares(states[m], moves[m])
  {
    hide InsideNow;
  }
}
