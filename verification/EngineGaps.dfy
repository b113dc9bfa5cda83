/** Where the engine's promises end: crashes between two commits, drained dead letters, late answers. */
module EngineGaps {
  import opened Dag
  import opened Tasks
  import opened Q = QueueRecords
  import opened E = ExecutionState
  import opened Engine
  import opened EngineInv
  import opened EngineQuiet
  import opened EngineOutcome

  // ---- a state nothing leads out of ----

  /** Nobody works, nothing is queued, leased or waiting to be delivered, whatever the watchdog may have listed has
      ended, and yet a task is unfinished. */
  ghost predicate Stuck(s: Sys) {
    && Rows(s.db.ex) && s.starts.Keys == s.db.ex.state.Keys
    && QueueEmpty(s.db.jobs) && s.runs == map[] && s.buffer == {}
    && (forall n :: n in s.db.ex.state && MayBeListed(s, n) ==>
      Satisfied(s.db.ex.state[n]) || s.db.ex.state[n] == Failure)
    && (exists n :: n in s.db.ex.state && Live(s.db.ex.state[n]))
  }

  lemma StuckStep(c: Settings, s: Sys, step: Step)
    requires Stuck(s) && Enabled(s, step) && Automatic(step)
    ensures Apply(c, s, step) == s
  {
    if step.ReapLeases? {
      hide Rows, StatusOf;
      NothingToReap(s, step.now);
    } else if step.ReapHung? {
      hide Rows, StepFrame, FailTask;
    } else {
      NothingEnabled(s, step);
    }
  }

  lemma NothingToReap(s: Sys, now: Time)
    requires QueueEmpty(s.db.jobs)
    ensures AfterReapLeases(s, now) == s
  {
    hide Rows, StepFrame;
    forall i | 0 <= i < |s.db.jobs| ensures !Expired(s.db.jobs[i], now) { assert !Active(s.db.jobs[i]); }
    assert RequeueStale(s.db.jobs, now) == s.db.jobs;
    assert DeadLetters(s.db.jobs, now) == {};
    assert s.letters + {} == s.letters && s.buffer + {} == s.buffer;
  }

  lemma NothingEnabled(s: Sys, step: Step)
    requires Stuck(s) && Automatic(step) && !step.ReapLeases? && !step.ReapHung?
    ensures !Enabled(s, step)
  {
    hide Rows, StatusOf;
  }

  /** Whatever workers, reapers and the watchdog do: the task stays unfinished. */
  lemma {:induction false} StuckForever(c: Settings, states: seq<Sys>, steps: seq<Step>, i: nat)
    requires |states| == |steps| + 1 && i < |states| && Stuck(states[0]) && Unattended(steps)
    requires forall k :: 0 <= k < |steps| ==> Legal(c, states[k], steps[k], states[k + 1])
    ensures states[i] == states[0]
  {
    hide Stuck, Apply, Enabled, Rows;
    if i > 0 {
      StuckForever(c, states, steps, i - 1);
      assert Legal(c, states[i - 1], steps[i - 1], states[i]) && Automatic(steps[i - 1]);
      StuckStep(c, states[0], steps[i - 1]);
    }
  }

  // ---- crashes between two commits ----

  /** `_spawn` died between the commit of the rows and its first pass: nothing will ever be queued. */
  lemma SpawnGap(c: Settings, ex: Execution)
    requires Rows(ex) && Fresh(ex)
    ensures Stuck(Sys(Db(ex, []), map[], {}, {}, map n | n in ex.state :: 0, {}))
  {
    assert ex.order[0] in Elements(ex.order) && ex.order[0] in ex.state;
    hide Known, Acyclic, Distinct;
  }

  /** What the database holds between the commit of a success and the pass after it; the worker is still alive. */
  function CommitOnly(s: Sys, j: JobId, now: Time): Sys
    requires OwnJob(s.db, j)
  {
    s.(db := Db(SetState(s.db.ex, s.db.jobs[j].task, Success), Acknowledge(s.db.jobs, j, now)))
  }

  /** The worker is gone. */
  function Crashed(s: Sys, j: JobId): Sys { s.(runs := s.runs - {j}) }

  // ---- a drained dead letter ----

  /** One task without dependencies and without retries. */
  function Single(): Execution {
    var cfg := Config(0, 0, false, 0, 0.0, 0.0);
    Execution(0, 0, 0, [0], map[0 := []], map[0 := cfg], map[0 := Pending], map[0 := 0], false, StatusRunning, None,
              [Started])
  }

  lemma SingleIsFresh()
    ensures Rows(Single()) && Fresh(Single())
  {
    var ex := Single();
    assert Elements([0]) == {0};
    forall n ensures !Reaches(ex.graph, n, n) {
      if Reaches(ex.graph, n, n) { ReachesLastEdge(ex.graph, n, n); }
    }
  }

  function Lone(state: JobState, attempts: nat, letter: bool, at: Option<Time>, expires: Option<Time>,
                done: Option<Time>): Job {
    Job(0, 0, 0, 0, 0, 0.0, 0.0, 0, attempts, 1, letter, state, if at.Some? then Some(0) else None, at, expires, done)
  }

  /** The job while its only attempt is under way. */
  function Leasing(): Job { Lone(Leased, 1, false, Some(0.0), Some(30.0), None) }

  function Waiting(s: TaskState): Execution { Single().(state := map[0 := s]) }

  /** The job as it is first queued. */
  function First(maxAttempts: nat): Job { Lone(Queued, 0, false, None, None, None).(maxAttempts := maxAttempts) }

  lemma SinglePass(maxAttempts: nat)
    requires Rows(Single())
    ensures EnqueueAll(Db(Single(), []), [0], 0.0, maxAttempts) == Db(Waiting(Enqueued), [First(maxAttempts)])
  {
    var ex := Single();
    var db := Db(ex, []);
    assert Rule(ex.graph, ex.state, 0) == Enqueued;
    var db1 := EnqueueOne(db, 0, 0.0, maxAttempts);
    assert db1 == Db(Waiting(Enqueued), [First(maxAttempts)]);
    hide EnqueueOne, Rule;
    assert EnqueueAll(db, [0], 0.0, maxAttempts) == EnqueueAll(db1, [], 0.0, maxAttempts) == db1;
  }

  lemma SingleSpawned(c: Settings)
    requires Rows(Single())
    ensures Spawned(c, Single(), 0.0)
      == Sys(Db(Waiting(Enqueued), [First(c.maxAttempts)]), map[], {}, {}, map[0 := 0], {})
  {
    SinglePass(c.maxAttempts);
    hide EnqueueAll;
    var st := Waiting(Enqueued).state;
    assert StatusOf(st, false) == StatusRunning by { assert !Any(st, Failure); assert st[0] == Enqueued; }
    hide StatusOf;
    assert (map n | n in Single().state :: 0) == map[0 := 0];
  }

  /** A run of claim, crash, lease reaper and drain. */
  function DrainedSteps(): seq<Step> {
    [Step.Claim(0, 0, 0.0), Step.Crash(0), Step.ReapLeases(100.0), Step.Discard({0})]
  }

  function DrainedStates(): seq<Sys> {
    var queued := Lone(Queued, 0, false, None, None, None);
    var leased := Leasing();
    var dead := Lone(Failed, 1, true, Some(0.0), None, Some(100.0));
    var ex := Waiting(Enqueued);
    [Sys(Db(ex, [queued]), map[], {}, {}, map[0 := 0], {}),
     Sys(Db(ex, [leased]), map[0 := Holding], {}, {}, map[0 := 0], {}),
     Sys(Db(ex, [leased]), map[], {}, {}, map[0 := 0], {}),
     Sys(Db(ex, [dead]), map[], {0}, {0}, map[0 := 0], {}),
     Sys(Db(ex, [dead]), map[], {0}, {}, map[0 := 0], {})]
  }

  lemma DrainedIsLegal(c: Settings, i: nat)
    requires c == Settings(1, 30.0) && i < 4
    ensures Legal(c, DrainedStates()[i], DrainedSteps()[i], DrainedStates()[i + 1])
  {
    hide AfterReapLeases, AfterClaim, StepFrame, Rows;
    DrainedRows(i);
    if i == 0 { DrainedClaim(c); }
    if i == 1 { assert DrainedStates()[i].runs - {0} == map[]; }
    if i == 2 { DrainedReap(); }
  }

  lemma DrainedRows(i: nat)
    requires i < 5
    ensures Rows(DrainedStates()[i].db.ex) && DrainedStates()[i].starts.Keys == DrainedStates()[i].db.ex.state.Keys
  {
    assert Elements([0]) == {0};
  }

  lemma DrainedClaim(c: Settings)
    requires c == Settings(1, 30.0)
    ensures Enabled(DrainedStates()[0], Step.Claim(0, 0, 0.0))
      && AfterClaim(c, DrainedStates()[0], 0, 0, 0.0) == DrainedStates()[1]
  {
    hide StepFrame, Rows;
  }

  lemma DrainedReap()
    ensures FailStop(DrainedStates()[2], 100.0) && AfterReapLeases(DrainedStates()[2], 100.0) == DrainedStates()[3]
  {
    hide StepFrame, Rows;
    var s := DrainedStates()[2];
    assert RequeueStale(s.db.jobs, 100.0) == DrainedStates()[3].db.jobs;
    assert DeadLetters(s.db.jobs, 100.0) == {0};
  }

  lemma DrainedIsStuck()
    ensures Stuck(DrainedStates()[4]) && !AllEnded(DrainedStates()[4].db.ex.state)
      && DrainedStates()[4].db.ex.status == StatusRunning
  {
    DrainedRows(4);
    hide Rows;
    assert DrainedStates()[4].db.ex.state[0] == Enqueued;
  }

  /** A worker's only attempt is lost, and the watchdog's drain discards the dead letter: the run ends with a task that
      counts as queued for ever. */
  lemma DrainedLetterIsLost(c: Settings)
    requires c == Settings(1, 30.0)
    ensures IsRun(c, Single(), 0.0, DrainedStates(), DrainedSteps()) && Unattended(DrainedSteps())
    ensures Stuck(DrainedStates()[4]) && !AllEnded(DrainedStates()[4].db.ex.state)
      && DrainedStates()[4].db.ex.status == StatusRunning
  {
    hide Fresh, Spawned, Legal, Stuck, Rows, AllEnded;
    SingleIsFresh();
    SingleSpawned(c);
    DrainedIsStuck();
    forall i | 0 <= i < |DrainedSteps()|
      ensures Legal(c, DrainedStates()[i], DrainedSteps()[i], DrainedStates()[i + 1]) {
      DrainedIsLegal(c, i);
    }
  }

  // ---- the list order of a pass matters ----

  /** A child listed before its parent misses the parent's failure in the same pass. */
  lemma OnePassCanMiss()
    ensures exists db: Db :: Rows(db.ex) && Distinct(db.ex.order) && Acyclic(db.ex.graph) && !PassSuffices(db)
  {
    hide Chain, EnqueueAll, Rule, Rows, Acyclic, Distinct, Elements;
    ChainIsFine();
    var db := Db(Chain(Pending), []);
    var db1 := Db(Chain(Failure), []);
    ChainPass();
    ChainRules();
    assert [2] + [1, 0] == [2, 1, 0];
    FirstOfPass(db1, 2, [1, 0]);
    assert !PassSuffices(db);
  }

  /** A second pass would change nothing. */
  predicate PassSuffices(db: Db)
    requires Rows(db.ex)
  {
    EnqueueAll(EnqueueAll(db, db.ex.order, 0.0, 1), db.ex.order, 0.0, 1) == EnqueueAll(db, db.ex.order, 0.0, 1)
  }

  /** A failed task, the task after it, and the task after that, listed backwards. */
  function Chain(middle: TaskState): Execution {
    var cfg := Config(0, 0, false, 0, 0.0, 0.0);
    Execution(0, 0, 0, [2, 1, 0], map[2 := [1], 1 := [0], 0 := []], map[2 := cfg, 1 := cfg, 0 := cfg],
              map[2 := Pending, 1 := middle, 0 := Failure], map[2 := 0, 1 := 0, 0 := 0], false, StatusRunning, None,
                [Started])
  }

  lemma ChainIsFine()
    ensures Rows(Chain(Pending)) && Rows(Chain(Failure)) && Distinct(Chain(Pending).order)
      && Acyclic(Chain(Pending).graph)
    ensures Chain(Pending).order == Chain(Failure).order == [2, 1, 0] && Elements([2, 1, 0]) == {0, 1, 2}
    ensures Chain(Failure).state.Keys == {0, 1, 2} && Chain(Failure).state[2] == Pending
  {
    assert Elements([2, 1, 0]) == {0, 1, 2};
    ChainIsAcyclic();
    hide Acyclic;
  }

  lemma ChainIsAcyclic()
    ensures Acyclic(Chain(Pending).graph)
  {
    var g := Chain(Pending).graph;
    assert DependenciesFirst(g, [0, 1, 2]) && Lists(g, [0, 1, 2]) by {
      assert [0, 1, 2][..1] == [0] && [0, 1, 2][..2] == [0, 1];
    }
    hide Chain, Acyclic;
    ListingMeansAcyclic(g, [0, 1, 2]);
  }

  lemma ChainRules()
    ensures Rule(Chain(Pending).graph, Chain(Pending).state, 2) == Pending
    ensures Rule(Chain(Pending).graph, Chain(Pending).state, 1) == Failure
    ensures Rule(Chain(Failure).graph, Chain(Failure).state, 2) == Failure
  {
    var g := Chain(Pending).graph;
    assert g[2] == [1] && g[1] == [0] && 1 in g[2] && 0 in g[1];
  }

  lemma ChainPass()
    requires Rows(Chain(Pending)) && Elements([2, 1, 0]) == {0, 1, 2} == Elements(Chain(Pending).order)
    ensures EnqueueAll(Db(Chain(Pending), []), [2, 1, 0], 0.0, 1) == Db(Chain(Failure), [])
  {
    var db, db1 := Db(Chain(Pending), []), Db(Chain(Failure), []);
    ChainRules();
    hide Rule;
    var st := db.ex.state;
    assert st[2 := Pending] == st && st[1 := Failure] == db1.ex.state;
    assert EnqueueOne(db, 2, 0.0, 1) == db && EnqueueOne(db, 1, 0.0, 1) == db1 && EnqueueOne(db1, 0, 0.0, 1) == db1;
    assert Elements([1, 0]) <= Elements([2, 1, 0]) && Elements([0]) <= Elements([2, 1, 0]) && Rows(db1.ex);
    hide EnqueueOne, Chain, Rows;
    assert [2, 1, 0][1..] == [1, 0] && [1, 0][1..] == [0] && [0][1..] == [];
    assert EnqueueAll(db1, [0], 0.0, 1) == EnqueueAll(db1, [], 0.0, 1) == db1;
    assert EnqueueAll(db, [1, 0], 0.0, 1) == EnqueueAll(db1, [0], 0.0, 1);
  }

  /** What a pass does to its first task is final. */
  lemma FirstOfPass(db: Db, n: Name, rest: seq<Name>)
    requires Rows(db.ex) && Elements([n] + rest) <= Elements(db.ex.order) && n in db.ex.state
    requires db.ex.state[n] == Pending && Rule(db.ex.graph, db.ex.state, n) == Failure
    ensures EnqueueAll(db, [n] + rest, 0.0, 1) != db
  {
    var db1 := EnqueueOne(db, n, 0.0, 1);
    assert ([n] + rest)[1..] == rest;
    assert Elements(rest) <= Elements([n] + rest);
    StaysOut(db1, rest, n);
    assert EnqueueAll(db, [n] + rest, 0.0, 1) == EnqueueAll(db1, rest, 0.0, 1);
  }

  lemma {:induction false} StaysOut(db: Db, names: seq<Name>, n: Name)
    requires Rows(db.ex) && Elements(names) <= Elements(db.ex.order) && n in db.ex.state && db.ex.state[n] == Failure
    ensures var r := EnqueueAll(db, names, 0.0, 1); n in r.ex.state && r.ex.state[n] == Failure
    decreases |names|
  {
    if names != [] {
      assert names[0] in Elements(names) && Elements(names[1..]) <= Elements(names);
      hide Rule, FirstJob, Elements;
      StaysOut(EnqueueOne(db, names[0], 0.0, 1), names[1..], n);
    }
  }
}
