/** A round of the watchdog, taken apart into steps of the engine. */
module EngineRounds {
  import opened Dag
  import opened Q = QueueRecords
  import opened E = ExecutionState
  import opened Engine
  import opened EngineInv
  import opened EngineMoves
  import opened Runtime
  import T = Timing

  /** Legal steps, one after the other. */
  ghost predicate Chain(c: Settings, states: seq<Sys>, steps: seq<Step>) {
    |states| == |steps| + 1 && forall i :: 0 <= i < |steps| ==> Legal(c, states[i], steps[i], states[i + 1])
  }

  lemma ChainOn(c: Settings, states: seq<Sys>, steps: seq<Step>, step: Step, s': Sys)
    requires Chain(c, states, steps) && Legal(c, states[|steps|], step, s')
    ensures Chain(c, states + [s'], steps + [step])
  {
    hide Legal;
    var states', steps' := states + [s'], steps + [step];
    forall i | 0 <= i < |steps'| ensures Legal(c, states'[i], steps'[i], states'[i + 1]) {
      if i < |steps| { assert Legal(c, states[i], steps[i], states[i + 1]); }
    }
  }

  /** The steps a round consists of. */
  predicate OfARound(step: Step) {
    step.ReapLeases? || step.Deliver? || step.Discard? || step.ReapHung? || step.Finalize?
  }

  ghost predicate AllOfARound(steps: seq<Step>) { forall i :: 0 <= i < |steps| ==> OfARound(steps[i]) }

  /** A chain of a round's steps from `s` to `s'`. */
  ghost predicate Leads(c: Settings, s: Sys, states: seq<Sys>, steps: seq<Step>, s': Sys) {
    Chain(c, states, steps) && AllOfARound(steps) && states[0] == s && states[|steps|] == s'
  }

  lemma LeadsOn(c: Settings, s: Sys, states: seq<Sys>, steps: seq<Step>, s1: Sys, step: Step, s': Sys)
    requires Leads(c, s, states, steps, s1) && Legal(c, s1, step, s') && OfARound(step)
    ensures Leads(c, s, states + [s'], steps + [step], s')
  {
    hide Legal;
    ChainOn(c, states, steps, step, s');
    hide Chain;
  }

  /** What the round relies on between its steps. */
  ghost predicate InShape(s: Sys) {
    && Rows(s.db.ex) && s.starts.Keys == s.db.ex.state.Keys
    && forall j: JobId :: j < |s.db.jobs| ==> s.db.jobs[j].task in s.db.ex.state
  }

  // ---- deliveries ----

  lemma DeliverOne(c: Settings, s: Sys, j: JobId, now: Time) returns (s': Sys)
    requires InShape(s) && j in s.buffer && j < |s.db.jobs|
    ensures Legal(c, s, Step.Deliver(j, now), s') && InShape(s')
    ensures s'.db == Db(E.HandleDeadLetter(s.db.ex, s.db.jobs[j].task, now), s.db.jobs) && s'.runs == s.runs
    ensures s'.letters == s.letters - {j} && s'.buffer == s.buffer - {j}
  {
    s' := AfterDeliver(s, j, now);
    LossShape(s.db.ex, s.db.jobs[j].task, now);
    hide Rows, HandleDeadLetter;
  }

  lemma LossShape(ex: Execution, n: Name, now: Time)
    requires Rows(ex)
    ensures E.HandleDeadLetter(ex, n, now).state.Keys == ex.state.Keys
  {
    hide FailTask;
  }

  /** Where the deliveries lead. */
  ghost predicate DeliveredTo(s: Sys, letters: seq<JobId>, now: Time, s': Sys) {
    && InShape(s') && s'.runs == s.runs && InTable(s.db.jobs, letters)
    && s'.db == Db(LostAll(s.db.ex, TasksIn(s.db.jobs, letters), now), s.db.jobs)
    && s'.letters == s.letters - Ids(letters) && s'.buffer == s.buffer - Ids(letters)
  }

  /** The engine delivers a round's letters in order. */
  lemma {:induction false} DeliverAll(c: Settings, s: Sys, letters: seq<JobId>, now: Time, before: Sys,
                                      states0: seq<Sys>, steps0: seq<Step>)
    returns (states: seq<Sys>, steps: seq<Step>, s': Sys)
    requires Leads(c, before, states0, steps0, s) && InShape(s)
    requires Distinct(letters) && InTable(s.db.jobs, letters) && forall j :: j in letters ==> j in s.buffer
    ensures Leads(c, before, states, steps, s') && DeliveredTo(s, letters, now, s')
    decreases |letters|
  {
    if letters == [] {
      states, steps, s' := states0, steps0, s;
      hide Leads, InShape;
      assert s'.letters == s.letters - Ids([]) && s'.buffer == s.buffer - Ids([]);
    } else {
      var front, j := letters[..|letters| - 1], letters[|letters| - 1];
      assert letters == front + [j] && j !in front && Distinct(front) && InTable(s.db.jobs, front);
      assert j in s.buffer && forall k :: k in front ==> k in s.buffer;
      hide *;
      var states1, steps1, s1 := DeliverAll(c, s, front, now, before, states0, steps0);
      s' := DeliverNext(c, s, front, j, letters, now, s1);
      OfDeliver(j, now);
      LeadsOn(c, before, states1, steps1, s1, Step.Deliver(j, now), s');
      states, steps := states1 + [s'], steps1 + [Step.Deliver(j, now)];
    }
  }

  lemma OfDeliver(j: JobId, now: Time)
    ensures OfARound(Step.Deliver(j, now))
  {
  }

  lemma DeliverNext(c: Settings, s: Sys, front: seq<JobId>, j: JobId, letters: seq<JobId>, now: Time, s1: Sys)
    returns (s': Sys)
    requires DeliveredTo(s, front, now, s1) && letters == front + [j] && j !in front && j in s.buffer
      && InTable(s.db.jobs, letters)
    ensures Legal(c, s1, Step.Deliver(j, now), s') && DeliveredTo(s, letters, now, s')
  {
    FrontTasks(s.db.jobs, letters);
    assert letters[..|letters| - 1] == front && j < |s.db.jobs|;
    assert j in s1.buffer;
    hide Legal, InShape, Rows, E.HandleDeadLetter, TasksIn;
    s' := DeliverOne(c, s1, j, now);
    assert s'.letters == s.letters - Ids(letters) && s'.buffer == s.buffer - Ids(letters);
  }

  function Ids(letters: seq<JobId>): set<JobId> { set j | j in letters }

  lemma FrontTasks(jobs: Jobs, letters: seq<JobId>)
    requires InTable(jobs, letters) && letters != []
    ensures InTable(jobs, letters[..|letters| - 1]) && |TasksIn(jobs, letters)| == |letters|
    ensures TasksIn(jobs, letters)[..|letters| - 1] == TasksIn(jobs, letters[..|letters| - 1])
    ensures TasksIn(jobs, letters)[|letters| - 1] == jobs[letters[|letters| - 1]].task
  {
  }

  // ---- hung tasks ----

  lemma ReapOne(c: Settings, s: Sys, n: Name, now: Time) returns (s': Sys)
    requires InShape(s) && n in s.db.ex.state && s.db.ex.state[n] == Running && n !in InsideTasks(s.db.jobs, s.runs)
    ensures Legal(c, s, Step.ReapHung(n, now), s') && InShape(s')
    ensures s'.db == Db(E.HandleDeadLetter(s.db.ex, n, now), s.db.jobs) && s'.runs == s.runs
    ensures s'.letters == s.letters && s'.buffer == s.buffer
    ensures forall m :: m in s.db.ex.state && s.db.ex.state[m] == Running && m != n ==> s'.db.ex.state[m] == Running
  {
    s' := LoseTask(s, n, now);
    hide Rows, HandleDeadLetter, InsideTasks, StepFrame;
    LossShape(s.db.ex, n, now);
    ReapSpares(s, n, now);
  }

  lemma ReapSpares(s: Sys, n: Name, now: Time)
    requires n in s.db.ex.state
    ensures var st' := LoseTask(s, n, now).db.ex.state;
      forall m :: m in s.db.ex.state && s.db.ex.state[m] == Running && m != n ==> m in st' && st'[m] == Running
  {
    hide LoseTask;
    LoseMoves(s, n, now);
  }

  /** The engine reaps the hung tasks in order; failing one leaves the others running. */
  lemma {:induction false} ReapAll(c: Settings, s: Sys, hung: seq<Name>, now: Time, before: Sys, states0: seq<Sys>,
                                   steps0: seq<Step>)
    returns (states: seq<Sys>, steps: seq<Step>, s': Sys)
    requires Leads(c, before, states0, steps0, s) && InShape(s) && Distinct(hung)
    requires forall n :: n in hung ==>
      n in s.db.ex.state && s.db.ex.state[n] == Running && n !in InsideTasks(s.db.jobs, s.runs)
    ensures Leads(c, before, states, steps, s') && InShape(s') && s'.runs == s.runs
    ensures s'.db == Db(LostAll(s.db.ex, hung, now), s.db.jobs) && s'.letters == s.letters && s'.buffer == s.buffer
    ensures forall m :: m in s.db.ex.state && s.db.ex.state[m] == Running && m !in hung ==>
      m in s'.db.ex.state && s'.db.ex.state[m] == Running
    decreases |hung|
  {
    if hung == [] {
      states, steps, s' := states0, steps0, s;
    } else {
      var front, n := hung[..|hung| - 1], hung[|hung| - 1];
      assert hung == front + [n] && n !in front;
      hide Leads, Legal, InShape, Rows, E.HandleDeadLetter, InsideTasks;
      var states1, steps1, s1 := ReapAll(c, s, front, now, before, states0, steps0);
      s' := ReapOne(c, s1, n, now);
      SameStateKeys(s1, s');
      LeadsOn(c, before, states1, steps1, s1, Step.ReapHung(n, now), s');
      states, steps := states1 + [s'], steps1 + [Step.ReapHung(n, now)];
    }
  }

  lemma SameStateKeys(s: Sys, s': Sys)
    requires InShape(s) && InShape(s') && Framed(s.db.ex, s'.db.ex)
    ensures s'.db.ex.state.Keys == s.db.ex.state.Keys
  {
  }

  // ---- the round ----

  lemma ReapLeasesLegal(c: Settings, s: Sys, now: Time)
    requires InShape(s) && FailStop(s, now)
    ensures var s1 := AfterReapLeases(s, now); Legal(c, s, Step.ReapLeases(now), s1) && InShape(s1)
  {
    hide Rows, FailStop, StepFrame;
  }

  /** Drains whatever is left in the watchdog's own part of the buffer. */
  lemma DrainRest(c: Settings, s: Sys, own: set<JobId>, before: Sys, states0: seq<Sys>, steps0: seq<Step>)
    returns (states: seq<Sys>, steps: seq<Step>, s': Sys)
    requires Leads(c, before, states0, steps0, s) && InShape(s) && own <= s.buffer
    ensures Leads(c, before, states, steps, s') && s' == s.(buffer := s.buffer - own)
  {
    s' := s.(buffer := s.buffer - own);
    if own == {} {
      states, steps := states0, steps0;
    } else {
      assert Legal(c, s, Step.Discard(own), s');
      hide Leads, Legal;
      LeadsOn(c, before, states0, steps0, s, Step.Discard(own), s');
      states, steps := states0 + [s'], steps0 + [Step.Discard(own)];
    }
  }

  lemma FinalizeLegal(c: Settings, s: Sys, now: Time)
    requires InShape(s) && Orphaned(s.db.ex)
    ensures Legal(c, s, Step.Finalize(now), s.(db := s.db.(ex := Refresh(s.db.ex, now))))
  {
    hide Rows, StepFrame, Refresh;
  }

  /** Repairs an orphaned status. */
  lemma Repair(c: Settings, s: Sys, now: Time, before: Sys, states0: seq<Sys>, steps0: seq<Step>)
    returns (states: seq<Sys>, steps: seq<Step>, s': Sys)
    requires Leads(c, before, states0, steps0, s) && InShape(s)
    ensures Leads(c, before, states, steps, s')
    ensures s' == s.(db := s.db.(ex := if Orphaned(s.db.ex) then Refresh(s.db.ex, now) else s.db.ex))
  {
    if Orphaned(s.db.ex) {
      s' := s.(db := s.db.(ex := Refresh(s.db.ex, now)));
      FinalizeLegal(c, s, now);
      hide Leads, Legal, Orphaned, Refresh, InShape;
      LeadsOn(c, before, states0, steps0, s, Step.Finalize(now), s');
      states, steps := states0 + [s'], steps0 + [Step.Finalize(now)];
    } else {
      states, steps, s' := states0, steps0, s;
    }
  }

  /** Nobody is inside a task the hung-task query would return. */
  ghost predicate HungAreEmpty(s: Sys, beats: map<Name, T.Beat>, l: T.Limits, now: Time) {
    forall n :: n in beats && T.Hung(l, beats[n], now) ==> n !in InsideTasks(s.db.jobs, s.runs)
  }

  /** A round of the watchdog that nothing interrupts is a chain of the engine's steps: the lease reaper's, a delivery
      for each letter it made, the drain of the rest, the hung tasks, the repair. It ends with the rows and the table of
      `WatchdogService.RunOnce`, and `own`, what its process had in the buffer before, is unhandled for good. The two
      guards are what on-time workers guarantee. */
  lemma RoundIsSteps(c: Settings, s: Sys, own: set<JobId>, letters: seq<JobId>, beats: map<Name, T.Beat>,
                     l: T.Limits, now: Time)
    returns (states: seq<Sys>, steps: seq<Step>, s': Sys)
    requires InShape(s) && Distinct(s.db.ex.order) && LettersOk(s.db.jobs, s.letters, s.buffer) && own <= s.buffer
    requires Distinct(letters) && InTable(s.db.jobs, letters)
      && forall j: JobId :: j in letters <==> j in DeadLetters(s.db.jobs, now)
    requires FailStop(s, now) && HungAreEmpty(s, beats, l, now)
    ensures Leads(c, s, states, steps, s')
    ensures s'.db == Db(RoundRows(s.db.ex, TasksIn(s.db.jobs, letters), beats, l, now), RequeueStale(s.db.jobs, now))
    ensures s'.buffer == s.buffer - own && s'.letters == s.letters && s'.runs == s.runs
  {
    ReapLeasesLegal(c, s, now);
    SameTasks(s.db.jobs, letters, now);
    var s1 := AfterReapLeases(s, now);
    ReapedFacts(s, letters, now);
    StartOfRound(c, s, Step.ReapLeases(now), s1);
    hide *;
    var states2, steps2, s2 := DeliverAll(c, s1, letters, now, s, [s, s1], [Step.ReapLeases(now)]);
    DeliveredFacts(s, s1, letters, now, s2);
    var states3, steps3, s3 := DrainRest(c, s2, own, s, states2, steps2);
    var hung := HungTasks(s3.db.ex.order, s3.db.ex.state, beats, l, now);
    HungAreReapable(s, s1, s2, s3, own, beats, l, now, hung);
    var states4, steps4, s4 := ReapAll(c, s3, hung, now, s, states3, steps3);
    states, steps, s' := Repair(c, s4, now, s, states4, steps4);
    RoundAdds(s, s3, s4, s', own, letters, beats, l, now);
  }

  lemma StartOfRound(c: Settings, s: Sys, step: Step, s1: Sys)
    requires Legal(c, s, step, s1) && step.ReapLeases?
    ensures Leads(c, s, [s, s1], [step], s1)
  {
    hide Legal;
  }

  /** The reaper's step: every new letter is in the buffer, none of them was there before. */
  lemma ReapedFacts(s: Sys, letters: seq<JobId>, now: Time)
    requires LettersOk(s.db.jobs, s.letters, s.buffer) && InTable(s.db.jobs, letters)
    requires forall j: JobId :: j in letters <==> j in DeadLetters(s.db.jobs, now)
    ensures var s1 := AfterReapLeases(s, now);
      && InTable(s1.db.jobs, letters) && (forall j :: j in letters ==> j in s1.buffer)
      && s1.letters - Ids(letters) == s.letters && s1.buffer - Ids(letters) == s.buffer
      && s1.runs == s.runs && s1.db.ex == s.db.ex && s1.db.jobs == RequeueStale(s.db.jobs, now)
      && InsideTasks(s1.db.jobs, s1.runs) == InsideTasks(s.db.jobs, s.runs)
  {
    hide Rows, StepFrame;
    var s1 := AfterReapLeases(s, now);
    assert |s1.db.jobs| == |s.db.jobs| && forall k :: 0 <= k < |s.db.jobs| ==> s1.db.jobs[k].task == s.db.jobs[k].task;
    assert s1.letters == s.letters + DeadLetters(s.db.jobs, now);
    assert DeadLetters(s.db.jobs, now) == Ids(letters);
    assert forall j :: j in s.letters ==> j !in DeadLetters(s.db.jobs, now);
    assert s1.buffer == s.buffer + DeadLetters(s.db.jobs, now);
    assert InsideTasks(s1.db.jobs, s1.runs) == InsideTasks(s.db.jobs, s.runs) by {
      hide RequeueStale, DeadLetters, LettersOk;
    }
  }

  lemma DeliveredFacts(s: Sys, s1: Sys, letters: seq<JobId>, now: Time, s2: Sys)
    requires DeliveredTo(s1, letters, now, s2) && InTable(s.db.jobs, letters)
    requires s1.letters - Ids(letters) == s.letters && s1.buffer - Ids(letters) == s.buffer
    requires s1.runs == s.runs && s1.db.ex == s.db.ex
    requires s1.db.jobs == RequeueStale(s.db.jobs, now)
    requires InTable(RequeueStale(s.db.jobs, now), letters)
      && TasksIn(RequeueStale(s.db.jobs, now), letters) == TasksIn(s.db.jobs, letters)
    ensures InShape(s2) && s2.runs == s.runs && s2.letters == s.letters && s2.buffer == s.buffer
    ensures s2.db.jobs == s1.db.jobs
    ensures s2.db.ex == LostAll(s.db.ex, TasksIn(s.db.jobs, letters), now)
    ensures s2.db.ex.order == s.db.ex.order
  {
    hide InShape, RequeueStale, TasksIn;
  }

  lemma HungAreReapable(s: Sys, s1: Sys, s2: Sys, s3: Sys, own: set<JobId>, beats: map<Name, T.Beat>,
                        l: T.Limits, now: Time, hung: seq<Name>)
    requires HungAreEmpty(s, beats, l, now) && Distinct(s.db.ex.order) && s3 == s2.(buffer := s2.buffer - own)
      && s2.db.ex.order == s.db.ex.order
    requires s2.db.jobs == s1.db.jobs && s2.runs == s.runs && s1.runs == s.runs && InShape(s2)
    requires InsideTasks(s1.db.jobs, s1.runs) == InsideTasks(s.db.jobs, s.runs)
    requires hung == HungTasks(s3.db.ex.order, s3.db.ex.state, beats, l, now)
    ensures InShape(s3) && Distinct(hung)
    ensures forall n :: n in hung ==>
      n in s3.db.ex.state && s3.db.ex.state[n] == Running && n !in InsideTasks(s3.db.jobs, s3.runs)
  {
    HungTasksAre(s3.db.ex.order, s3.db.ex.state, beats, l, now);
    hide HungTasks, Distinct, T.Hung, InsideTasks, Rows;
  }

  lemma RoundAdds(s: Sys, s3: Sys, s4: Sys, s': Sys, own: set<JobId>, letters: seq<JobId>, beats: map<Name, T.Beat>,
                  l: T.Limits, now: Time)
    requires InTable(s.db.jobs, letters)
    requires s3.db.ex == LostAll(s.db.ex, TasksIn(s.db.jobs, letters), now)
      && s3.db.jobs == RequeueStale(s.db.jobs, now)
    requires s3.runs == s.runs && s3.letters == s.letters && s3.buffer == s.buffer - own
    requires s4.db == Db(LostAll(s3.db.ex, HungTasks(s3.db.ex.order, s3.db.ex.state, beats, l, now), now), s3.db.jobs)
    requires s4.runs == s3.runs && s4.letters == s3.letters && s4.buffer == s3.buffer
    requires s' == s4.(db := s4.db.(ex := if Orphaned(s4.db.ex) then Refresh(s4.db.ex, now) else s4.db.ex))
    ensures s'.db == Db(RoundRows(s.db.ex, TasksIn(s.db.jobs, letters), beats, l, now), RequeueStale(s.db.jobs, now))
    ensures s'.buffer == s.buffer - own && s'.letters == s.letters && s'.runs == s.runs
  {
    hide LostAll, HungTasks, TasksIn, RequeueStale, Orphaned, Refresh;
  }
}
