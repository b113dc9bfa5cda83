/** Runs in which a worker or a request dies between two commits. */
module EngineCommit {
  import opened Dag
  import opened Tasks
  import opened Q = QueueRecords
  import opened E = ExecutionState
  import opened Engine
  import opened EngineInv
  import opened EngineMoves
  import opened EngineGaps

  /** A task and the one that waits for it. */
  function Link(first: TaskState, second: TaskState): Execution {
    var cfg := Config(0, 0, false, 0, 0.0, 0.0);
    Execution(0, 0, 0, [0, 1], map[0 := [], 1 := [0]], map[0 := cfg, 1 := cfg], map[0 := first, 1 := second],
              map[0 := 0, 1 := 0], false, StatusRunning, None, [Started])
  }

  lemma LinkRows(first: TaskState, second: TaskState)
    ensures Rows(Link(first, second)) && Link(first, second).state == map[0 := first, 1 := second]
  {
    assert Elements([0, 1]) == {0, 1};
  }

  lemma LinkIsFresh()
    ensures Rows(Link(Pending, Pending)) && Fresh(Link(Pending, Pending))
  {
    LinkRows(Pending, Pending);
    LinkIsAcyclic();
    hide Acyclic;
  }

  lemma LinkIsAcyclic()
    ensures Acyclic(Link(Pending, Pending).graph)
  {
    var g := Link(Pending, Pending).graph;
    assert DependenciesFirst(g, [0, 1]) && Lists(g, [0, 1]) by { assert [0, 1][..1] == [0]; }
    hide Link, Acyclic;
    ListingMeansAcyclic(g, [0, 1]);
  }

  function Waits(): Sys {
    Sys(Db(Link(Enqueued, Pending), [Lone(Queued, 0, false, None, None, None)]), map[], {}, {}, map[0 := 0, 1 := 0], {})
  }

  function Holds(): Sys {
    Sys(Db(Link(Enqueued, Pending), [Leasing()]), map[0 := Holding], {}, {}, map[0 := 0, 1 := 0], {})
  }

  function Runs(): Sys {
    Sys(Db(Link(Running, Pending), [Leasing()]), map[0 := Inside], {}, {}, map[0 := 1, 1 := 0], {})
  }

  lemma LinkRules()
    ensures Rule(Link(Pending, Pending).graph, Link(Pending, Pending).state, 0) == Enqueued
    ensures Rule(Link(Enqueued, Pending).graph, Link(Enqueued, Pending).state, 1) == Pending
  {
    assert Link(Enqueued, Pending).graph[1] == [0] && 0 in Link(Enqueued, Pending).graph[1];
  }

  lemma LinkOne()
    ensures Rows(Link(Pending, Pending)) && Rows(Link(Enqueued, Pending))
    ensures 0 in Link(Pending, Pending).state && 1 in Link(Enqueued, Pending).state
    ensures EnqueueOne(Db(Link(Pending, Pending), []), 0, 0.0, 1) == Waits().db
    ensures EnqueueOne(Waits().db, 1, 0.0, 1) == Waits().db
  {
    LinkRows(Pending, Pending);
    LinkRows(Enqueued, Pending);
    LinkRules();
    hide Rows, Rule;
    assert map[0 := Pending, 1 := Pending][0 := Enqueued] == map[0 := Enqueued, 1 := Pending];
    assert map[0 := Enqueued, 1 := Pending][1 := Pending] == map[0 := Enqueued, 1 := Pending];
  }

  lemma LinkPass()
    requires Rows(Link(Pending, Pending))
    ensures EnqueueAll(Db(Link(Pending, Pending), []), [0, 1], 0.0, 1) == Waits().db
  {
    LinkOne();
    var db, db1 := Db(Link(Pending, Pending), []), Waits().db;
    assert Elements([0, 1]) == {0, 1} && Elements([1]) <= Elements([0, 1]) && db.ex.order == db1.ex.order == [0, 1];
    hide EnqueueOne, Link, Waits, Rows, Elements;
    assert [0, 1][1..] == [1] && [1][1..] == [];
    assert EnqueueAll(db1, [1], 0.0, 1) == EnqueueAll(db1, [], 0.0, 1) == db1;
    assert EnqueueAll(db, [0, 1], 0.0, 1) == EnqueueAll(db1, [1], 0.0, 1);
  }

  lemma LinkRefresh()
    ensures Refresh(Link(Enqueued, Pending), 0.0) == Link(Enqueued, Pending)
  {
    var st := Link(Enqueued, Pending).state;
    assert StatusOf(st, false) == StatusRunning
      by { assert !Any(st, Failure) && !Any(st, Stopped); assert st[0] == Enqueued; }
    hide StatusOf;
  }

  lemma SpawnedWaits(c: Settings)
    requires c == Settings(1, 30.0) && Rows(Link(Pending, Pending))
    ensures Spawned(c, Link(Pending, Pending), 0.0) == Waits()
  {
    LinkPass();
    LinkRefresh();
    assert (map n | n in Link(Pending, Pending).state :: 0) == map[0 := 0, 1 := 0];
    assert Link(Pending, Pending).order == [0, 1] && !Link(Pending, Pending).cancellationRequested;
    hide EnqueueAll, Rows, Lone, Link, Refresh;
  }

  lemma ClaimIsLegal(c: Settings)
    requires c == Settings(1, 30.0)
    ensures Legal(c, Waits(), Step.Claim(0, 0, 0.0), Holds())
  {
    LinkRows(Enqueued, Pending);
    hide Rows, StepFrame;
  }

  lemma StartIsLegal(c: Settings)
    ensures Legal(c, Holds(), Step.Start(0, 1.0), Runs())
  {
    LinkRows(Enqueued, Pending);
    hide Rows, StepFrame;
    assert map[0 := Enqueued, 1 := Pending][0 := Running] == map[0 := Running, 1 := Pending];
  }

  /** The state between the commits, once the worker is gone. */
  lemma GapIsStuck()
    ensures OwnJob(Runs().db, 0) && IsInside(Runs(), 0)
    ensures var gap := Crashed(CommitOnly(Runs(), 0, 2.0), 0);
      && Stuck(gap) && gap.db.ex.state == map[0 := Success, 1 := Pending] && gap.db.ex.status == StatusRunning
      && 1 in gap.db.ex.graph && Ready(gap.db.ex.graph, gap.db.ex.state, 1)
  {
    LinkRows(Success, Pending);
    hide Rows;
    var gap := Crashed(CommitOnly(Runs(), 0, 2.0), 0);
    assert map[0 := Running, 1 := Pending][0 := Success] == map[0 := Success, 1 := Pending];
    assert gap.db.ex == Link(Success, Pending);
    assert gap.runs == map[];
    assert gap.db.jobs == [Acknowledged(Leasing(), 2.0)];
    assert gap.db.ex.state[1] == Pending && 1 in gap.db.ex.state;
  }

  lemma LinkRun(c: Settings)
    requires c == Settings(1, 30.0)
    ensures IsRun(c, Link(Pending, Pending), 0.0, [Waits(), Holds(), Runs()],
                  [Step.Claim(0, 0, 0.0), Step.Start(0, 1.0)])
  {
    hide Rows, Fresh, Spawned, Legal, Waits, Holds, Runs, Link;
    LinkIsFresh();
    SpawnedWaits(c);
    ClaimIsLegal(c);
    StartIsLegal(c);
  }

  /** A run reaches a worker inside the first of two tasks. It commits the success and dies before the pass that
      would have queued the second: that task is ready, and stays pending for ever, under a running execution. */
  lemma CommitGap(c: Settings)
    requires c == Settings(1, 30.0)
    ensures exists states: seq<Sys> ::
      IsRun(c, Link(Pending, Pending), 0.0, states, [Step.Claim(0, 0, 0.0), Step.Start(0, 1.0)])
      && Strandable(states[2])
  {
    LinkRun(c);
    GapIsStrandable();
    hide *;
    RunFound(c, [Waits(), Holds(), Runs()]);
  }

  lemma GapIsStrandable()
    ensures Strandable(Runs())
  {
    GapIsStuck();
    hide Link, Stuck, Ready, Leasing;
    assert 1 in map[0 := Success, 1 := Pending];
  }

  lemma RunFound(c: Settings, states: seq<Sys>)
    requires IsRun(c, Link(Pending, Pending), 0.0, states, [Step.Claim(0, 0, 0.0), Step.Start(0, 1.0)])
    requires |states| == 3 && Strandable(states[2])
    ensures exists states: seq<Sys> ::
      IsRun(c, Link(Pending, Pending), 0.0, states, [Step.Claim(0, 0, 0.0), Step.Start(0, 1.0)])
      && Strandable(states[2])
  {
    hide *;
  }

  /** The worker inside the first task may leave the second ready and stuck. */
  ghost predicate Strandable(s: Sys) {
    && IsInside(s, 0)
    && var gap := Crashed(CommitOnly(s, 0, 2.0), 0);
    Abandoned(gap, 1)
  }

  /** The task is ready and pending, and stays so for ever under a running execution. */
  ghost predicate Abandoned(s: Sys, n: Name) {
    && Stuck(s) && s.db.ex.status == StatusRunning
    && n in s.db.ex.state && s.db.ex.state[n] == Pending && n in s.db.ex.graph && Ready(s.db.ex.graph, s.db.ex.state, n)
  }

  // ---- skipping and retrying commit before their pass as well ----

  /** What the database holds between the first commit of `skip_task` and the pass after it. */
  function SkipOnly(s: Sys, n: Name, now: Time): Sys
    requires n in s.db.ex.state
  {
    s.(db := Db(SetState(s.db.ex, n, Skipped), CancelTaskJobs(s.db.jobs, s.db.ex.id, n, now)))
  }

  lemma SkippedIsAbandoned()
    ensures Rows(Waits().db.ex) && MaySkip(Waits().db.ex, 0) && Abandoned(SkipOnly(Waits(), 0, 1.0), 1)
  {
    LinkRows(Enqueued, Pending);
    LinkRows(Skipped, Pending);
    hide Rows;
    var gap := SkipOnly(Waits(), 0, 1.0);
    assert map[0 := Enqueued, 1 := Pending][0 := Skipped] == map[0 := Skipped, 1 := Pending];
    assert gap.db.ex == Link(Skipped, Pending);
    assert gap.db.jobs == [CancelledFor(Lone(Queued, 0, false, None, None, None), 0, 0, 1.0)];
    assert gap.db.ex.state[1] == Pending && 1 in gap.db.ex.state;
  }

  /** An operator skips the first of two tasks right after the start, and the request dies between its two commits: the
      second task is ready, and stays pending for ever. */
  lemma SkipGap(c: Settings)
    requires c == Settings(1, 30.0)
    ensures IsRun(c, Link(Pending, Pending), 0.0, [Waits()], [])
    ensures 0 in Waits().db.ex.state && MaySkip(Waits().db.ex, 0) && Abandoned(SkipOnly(Waits(), 0, 1.0), 1)
  {
    LinkIsFresh();
    SpawnedWaits(c);
    hide Rows, Fresh, Spawned, Waits, Link, Stuck;
    SkippedIsAbandoned();
  }

  /** What the database holds between the first commit of `retry_task` and the pass after it. */
  ghost function RetryOnly(s: Sys, n: Name): Sys { s.(db := s.db.(ex := ResetBranch(s.db.ex, n))) }

  /** The only attempt of a single task is lost before it began, and its dead letter is delivered. */
  function LostSteps(): seq<Step> {
    [Step.Claim(0, 0, 0.0), Step.Crash(0), Step.ReapLeases(100.0), Step.Deliver(0, 100.0)]
  }

  /** The state once the letter is handled. */
  ghost predicate Lost(s: Sys) {
    && s.db.jobs == DrainedStates()[3].db.jobs && s.runs == map[] && s.buffer == {} && s.starts == map[0 := 0]
    && Rows(s.db.ex) && s.db.ex.graph == map[0 := []] && s.db.ex.state == map[0 := Failure]
  }

  function Dead(): Sys { DrainedStates()[3] }

  lemma DeadFacts()
    ensures var s := Dead();
      && Rows(s.db.ex) && s.starts == map[0 := 0] && s.db.ex.state == map[0 := Enqueued] && OwnJob(s.db, 0)
      && s.letters == {0} && s.buffer == {0} && s.runs == map[] && s.db.jobs[0].task == 0
      && s.db.ex.graph == map[0 := []]
  {
    DrainedRows(3);
    hide Rows;
  }

  lemma LetterFails(c: Settings)
    ensures Legal(c, Dead(), Step.Deliver(0, 100.0), AfterDeliver(Dead(), 0, 100.0))
    ensures Lost(AfterDeliver(Dead(), 0, 100.0))
  {
    DeadFacts();
    hide DrainedStates, Rows, FailTask, AfterDeliver;
    DeliveredFails(Dead());
    hide Dead;
  }

  lemma DeliveredFails(s: Sys)
    requires Rows(s.db.ex) && s.db.ex.state == map[0 := Enqueued] && OwnJob(s.db, 0)
    requires s.letters == {0} && s.buffer == {0} && s.db.jobs[0].task == 0
    ensures var s' := AfterDeliver(s, 0, 100.0);
      && s'.db.ex.state == map[0 := Failure] && Rows(s'.db.ex) && s'.db.ex.graph == s.db.ex.graph && s'.buffer == {}
      && s'.db.jobs == s.db.jobs && s'.runs == s.runs && s'.starts == s.starts
  {
    var s1 := s.(letters := s.letters - {0}, buffer := s.buffer - {0});
    assert s1.buffer == {};
    hide Rows, FailTask, Elsewhere;
    LoseMoves(s1, 0, 100.0);
    assert LoseTask(s1, 0, 100.0).db.ex.state.Keys == {0};
  }

  lemma RetriedIsAbandoned(s: Sys)
    requires Lost(s)
    ensures MayRetry(s.db.ex, 0) && Abandoned(RetryOnly(s, 0), 0)
  {
    var gap := RetryOnly(s, 0);
    assert gap.db.ex.state == map[0 := Pending];
    assert gap.db.ex.state[0] == Pending && Rows(gap.db.ex);
    assert gap.db.jobs[0].state == Failed && |gap.db.jobs| == 1;
    hide Rows, Reaches, ResetBranch;
  }

  lemma LostStates() returns (states: seq<Sys>)
    ensures |states| == |DrainedStates()| == 5 && states[..4] == DrainedStates()[..4] && DrainedStates()[3] == Dead()
    ensures OwnJob(Dead().db, 0) && states[4] == AfterDeliver(Dead(), 0, 100.0)
  {
    DeadFacts();
    hide AfterDeliver;
    states := DrainedStates()[..4] + [AfterDeliver(Dead(), 0, 100.0)];
  }

  lemma LostRun(c: Settings, drained: seq<Sys>, states: seq<Sys>)
    requires IsRun(c, Single(), 0.0, drained, DrainedSteps()) && |drained| == |states| == 5
    requires states[..4] == drained[..4] && Legal(c, drained[3], Step.Deliver(0, 100.0), states[4])
    ensures IsRun(c, Single(), 0.0, states, LostSteps())
  {
    hide Fresh, Spawned, Legal, Rows, Single;
    forall i | 0 <= i < |LostSteps()| ensures Legal(c, states[i], LostSteps()[i], states[i + 1]) {
      if i < 3 {
        assert Legal(c, drained[i], DrainedSteps()[i], drained[i + 1]);
        assert states[i] == states[..4][i] == drained[i] && states[i + 1] == states[..4][i + 1] == drained[i + 1];
      }
    }
  }

  /** The last state is one in which retrying may leave the task ready and stuck. */
  ghost predicate RetryStrands(states: seq<Sys>) {
    && states != []
    && var s := states[|states| - 1]; MayRetry(s.db.ex, 0) && Abandoned(RetryOnly(s, 0), 0)
  }

  lemma LostStrands(states: seq<Sys>)
    requires states != [] && Lost(states[|states| - 1])
    ensures RetryStrands(states)
  {
    hide Lost, MayRetry, Abandoned, RetryOnly;
    RetriedIsAbandoned(states[|states| - 1]);
  }

  /** A failed task is retried, and the request dies between its two commits: the task is ready and pending, and stays
      so for ever. */
  lemma RetryGap(c: Settings)
    requires c == Settings(1, 30.0)
    ensures exists states: seq<Sys> :: IsRun(c, Single(), 0.0, states, LostSteps()) && RetryStrands(states)
  {
    hide *;
    LetterFails(c);
    DrainedLetterIsLost(c);
    var states := LostStates();
    LostRun(c, DrainedStates(), states);
    LostStrands(states);
  }
}
