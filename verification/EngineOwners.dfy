/** No task ever has two owners, whomever the watchdog strikes. */
module EngineOwners {
  import opened Dag
  import opened Q = QueueRecords
  import opened E = ExecutionState
  import opened Engine
  import opened EngineCore
  import opened EngineMoves
  import opened EngineSafety
  import opened EngineTiming
  import opened Readiness
  import opened Tasks

  /** A job that is queued or leased, or that a live worker still holds. */
  predicate Owns(jobs: Jobs, runs: map<JobId, Phase>, j: JobId) { j < |jobs| && (Active(jobs[j]) || j in runs) }

  ghost predicate SoleOwners(st: States, jobs: Jobs, runs: map<JobId, Phase>) {
    && (forall j :: 0 <= j < |jobs| ==> jobs[j].task in st && st[jobs[j].task] != Pending)
    && (forall j: JobId, k: JobId ::
          Owns(jobs, runs, j) && Owns(jobs, runs, k) && jobs[j].task == jobs[k].task ==> j == k)
  }

  /** The owner of the task has given it up. */
  ghost predicate Freed(jobs: Jobs, runs: map<JobId, Phase>, jobs': Jobs, runs': map<JobId, Phase>, n: Name) {
    exists f: JobId :: Owns(jobs, runs, f) && jobs[f].task == n && !Owns(jobs', runs', f)
  }

  /** Nobody becomes the owner of an old job, nothing becomes pending, and there is at most one new job for each task
      that was pending or has been given up. */
  ghost predicate HandsOver(st: States, jobs: Jobs, runs: map<JobId, Phase>, st': States, jobs': Jobs,
                            runs': map<JobId, Phase>) {
    && Grows(jobs, jobs') && NoneBecomesPending(st, st')
    && (forall j: JobId :: j < |jobs| && Owns(jobs', runs', j) ==> Owns(jobs, runs, j))
    && (forall j: JobId :: |jobs| <= j < |jobs'| ==> NewFor(st, jobs, runs, st', jobs', runs', jobs'[j].task))
    && (forall j, k :: |jobs| <= j < |jobs'| && |jobs| <= k < |jobs'| && jobs'[j].task == jobs'[k].task ==> j == k)
  }

  ghost predicate NoneBecomesPending(st: States, st': States) {
    st'.Keys == st.Keys && forall n :: n in st && st'[n] == Pending ==> st[n] == Pending
  }

  ghost predicate NewFor(st: States, jobs: Jobs, runs: map<JobId, Phase>, st': States, jobs': Jobs,
                         runs': map<JobId, Phase>, n: Name) {
    n in st && n in st' && st'[n] != Pending && (st[n] == Pending || Freed(jobs, runs, jobs', runs', n))
  }

  lemma HandingOverKeepsSole(st: States, jobs: Jobs, runs: map<JobId, Phase>, st': States, jobs': Jobs,
                             runs': map<JobId, Phase>)
    requires SoleOwners(st, jobs, runs) && HandsOver(st, jobs, runs, st', jobs', runs')
    ensures SoleOwners(st', jobs', runs')
  {
    forall j | 0 <= j < |jobs'| ensures jobs'[j].task in st' && st'[jobs'[j].task] != Pending {
      if j < |jobs| { assert jobs'[j].task == jobs[j].task; }
      else { assert NewFor(st, jobs, runs, st', jobs', runs', jobs'[j].task); }
    }
    hide Owns;
    forall j: JobId, k: JobId | Owns(jobs', runs', j) && Owns(jobs', runs', k) && jobs'[j].task == jobs'[k].task
      ensures j == k {
      OwnsInTable(jobs', runs', j);
      OwnsInTable(jobs', runs', k);
      if j < |jobs| <= k {
        NewAndOld(st, jobs, runs, st', jobs', runs', j, k);
      } else if k < |jobs| <= j {
        NewAndOld(st, jobs, runs, st', jobs', runs', k, j);
      }
    }
  }

  lemma OwnsInTable(jobs: Jobs, runs: map<JobId, Phase>, j: JobId)
    requires Owns(jobs, runs, j)
    ensures j < |jobs|
  {
  }

  lemma NewAndOld(st: States, jobs: Jobs, runs: map<JobId, Phase>, st': States, jobs': Jobs,
                  runs': map<JobId, Phase>, older: JobId, newer: JobId)
    requires SoleOwners(st, jobs, runs) && HandsOver(st, jobs, runs, st', jobs', runs')
    requires older < |jobs| <= newer < |jobs'| && Owns(jobs', runs', older)
    ensures jobs'[older].task != jobs'[newer].task
  {
    hide Owns;
  }

  // ---- new jobs ----

  /** One job each for tasks that were pending and are queued now. */
  ghost predicate OneEach(st: States, st': States, added: Jobs) {
    && (forall i :: 0 <= i < |added| ==>
          var n := added[i].task; n in st && st[n] == Pending && n in st' && st'[n] == Enqueued)
    && (forall i, k :: 0 <= i < k < |added| ==> added[i].task != added[k].task)
  }

  lemma PassAdds(db: Db, now: Time, maxAttempts: nat) returns (added: Jobs)
    requires Rows(db.ex) && Distinct(db.ex.order)
    ensures var r := EnqueueReady(db, now, maxAttempts);
      r.jobs == db.jobs + added && OneEach(db.ex.state, r.ex.state, added)
  {
    if db.ex.cancellationRequested {
      added := [];
      hide StopLive, Refresh, Rows;
    } else {
      hide OneEach, Distinct, Refresh, Rows;
      added := ListAdds(db, now, maxAttempts);
      EnqueueReadyStates(db, now, maxAttempts);
      hide EnqueueAll;
    }
  }

  lemma ListAdds(db: Db, now: Time, maxAttempts: nat) returns (added: Jobs)
    requires Rows(db.ex) && Distinct(db.ex.order)
    ensures var r := EnqueueAll(db, db.ex.order, now, maxAttempts);
      r.jobs == db.jobs + added && OneEach(db.ex.state, r.ex.state, added)
  {
    hide Rows, EnqueueAll, OneEach, Decided, Distinct, Ready;
    PassQueuesReady(db, db.ex.order, now, maxAttempts);
    var names := ReadyNames(db.ex.graph, db.ex.state, db.ex.order);
    ReadyNamesAre(db.ex.graph, db.ex.state, db.ex.order);
    FirstJobsAre(db.ex, names, now, maxAttempts);
    hide ReadyNames, FirstJobs;
    added := FirstJobs(db.ex, names, now, maxAttempts);
    DecidedAdds(db.ex.graph, db.ex.state, EnqueueAll(db, db.ex.order, now, maxAttempts).ex.state, db.ex.order, names,
                added);
  }

  lemma DecidedAdds(g: Graph, st: States, st': States, names: seq<Name>, ready: seq<Name>, added: Jobs)
    requires Decided(g, st, st', names) && Distinct(ready)
    requires forall n :: n in ready ==> n in g && n in st && n in names && st[n] == Pending && Ready(g, st, n)
    requires |added| == |ready| && forall i :: 0 <= i < |ready| ==> added[i].task == ready[i]
    ensures OneEach(st, st', added)
  {
    hide Ready;
  }

  /** A table rewritten without new owners, and one job each for newly queued tasks. */
  lemma AddingHandsOver(st: States, jobs: Jobs, runs: map<JobId, Phase>, st0: States, base: Jobs, st': States,
                        runs': map<JobId, Phase>, added: Jobs)
    requires Grows(jobs, base) && |base| == |jobs| && NoneBecomesPending(st, st') && OneEach(st0, st', added)
    requires forall n :: n in st0 && st0[n] == Pending ==> n in st && st[n] == Pending
    requires forall j: JobId :: j < |jobs| && Owns(base, runs', j) ==> Owns(jobs, runs, j)
    ensures HandsOver(st, jobs, runs, st', base + added, runs')
  {
    var jobs' := base + added;
    forall j: JobId | |jobs| <= j < |jobs'| ensures NewFor(st, jobs, runs, st', jobs', runs', jobs'[j].task) {
      assert jobs'[j] == added[j - |jobs|];
    }
    forall j, k | |jobs| <= j < |jobs'| && |jobs| <= k < |jobs'| && jobs'[j].task == jobs'[k].task ensures j == k {
      assert jobs'[j] == added[j - |jobs|] && jobs'[k] == added[k - |jobs|];
    }
    forall j: JobId | j < |jobs| && Owns(jobs', runs', j) ensures Owns(jobs, runs, j) {
      assert jobs'[j] == base[j] && Owns(base, runs', j);
    }
  }

  // ---- the steps ----

  ghost predicate Sole(s: Sys) { SoleOwners(s.db.ex.state, s.db.jobs, s.runs) }

  ghost predicate Hands(s: Sys, s': Sys) {
    HandsOver(s.db.ex.state, s.db.jobs, s.runs, s'.db.ex.state, s'.db.jobs, s'.runs)
  }

  lemma StepNoneBecomesPending(c: Settings, s: Sys, step: Step)
    requires Rows(s.db.ex) && s.starts.Keys == s.db.ex.state.Keys && Enabled(s, step) && Distinct(s.db.ex.order)
    ensures NoneBecomesPending(s.db.ex.state, Apply(c, s, step).db.ex.state)
  {
    hide Rows, Distinct, Apply, Enabled, Acted;
    StepMoves(c, s, step);
    forall n | n in s.db.ex.state && Apply(c, s, step).db.ex.state[n] == Pending ensures s.db.ex.state[n] == Pending {
      if n in Acted(s, step) { ActedNotPending(s, step, s.db.ex.state[n], Apply(c, s, step).db.ex.state[n]); }
    }
  }

  lemma ActedNotPending(s: Sys, step: Step, x: TaskState, x': TaskState)
    requires Rows(s.db.ex) && Enabled(s, step) && ActedOk(s, step, x, x') && x' == Pending
    ensures x == Pending
  {
    hide Rows, Succeeds;
  }

  lemma CompleteHands(s: Sys, j: JobId, now: Time, maxAttempts: nat)
    requires Rows(s.db.ex) && OwnJob(s.db, j) && j in s.runs && Distinct(s.db.ex.order)
    requires NoneBecomesPending(s.db.ex.state, Complete(s.db, j, now, maxAttempts).ex.state)
    ensures Hands(s, s.(db := Complete(s.db, j, now, maxAttempts), runs := s.runs - {j}))
  {
    var n, base := s.db.jobs[j].task, Acknowledge(s.db.jobs, j, now);
    SetStateRows(s.db.ex, n, Success);
    AckFrees(s, j, now);
    hide Rows, Distinct, EnqueueReady, Refresh, Acknowledge, Owns, Grows, NoneBecomesPending;
    var added := PassAdds(Db(SetState(s.db.ex, n, Success), base), now, maxAttempts);
    AddingHandsOver(s.db.ex.state, s.db.jobs, s.runs, s.db.ex.state[n := Success], base,
                    Complete(s.db, j, now, maxAttempts).ex.state, s.runs - {j}, added);
    hide OneEach, HandsOver;
  }

  /** Acknowledging frees the task. */
  lemma AckFrees(s: Sys, j: JobId, now: Time)
    requires j < |s.db.jobs| && j in s.runs
    ensures var base := Acknowledge(s.db.jobs, j, now);
      && Grows(s.db.jobs, base) && |base| == |s.db.jobs| && Owns(s.db.jobs, s.runs, j) && !Owns(base, s.runs - {j}, j)
      && forall k: JobId :: k < |s.db.jobs| && Owns(base, s.runs - {j}, k) ==> Owns(s.db.jobs, s.runs, k)
  {
  }

  lemma SkipHands(s: Sys, n: Name, now: Time, maxAttempts: nat)
    requires Rows(s.db.ex) && MaySkip(s.db.ex, n) && Distinct(s.db.ex.order)
    requires NoneBecomesPending(s.db.ex.state, SkipTask(s.db, n, now, maxAttempts).ex.state)
    ensures Hands(s, s.(db := SkipTask(s.db, n, now, maxAttempts)))
  {
    var base := CancelTaskJobs(s.db.jobs, s.db.ex.id, n, now);
    SetStateRows(s.db.ex, n, Skipped);
    WithdrawingFrees(s, n, now);
    hide Rows, Distinct, EnqueueReady, Refresh, CancelTaskJobs, Owns, Grows, NoneBecomesPending;
    var added := PassAdds(Db(SetState(s.db.ex, n, Skipped), base), now, maxAttempts);
    AddingHandsOver(s.db.ex.state, s.db.jobs, s.runs, s.db.ex.state[n := Skipped], base,
                    SkipTask(s.db, n, now, maxAttempts).ex.state, s.runs, added);
    hide OneEach, HandsOver;
  }

  lemma WithdrawingFrees(s: Sys, n: Name, now: Time)
    ensures var base := CancelTaskJobs(s.db.jobs, s.db.ex.id, n, now);
      && Grows(s.db.jobs, base) && |base| == |s.db.jobs|
      && forall k: JobId :: k < |s.db.jobs| && Owns(base, s.runs, k) ==> Owns(s.db.jobs, s.runs, k)
  {
  }

  lemma RetryHands(c: Settings, s: Sys, j: JobId, now: Time)
    requires Rows(s.db.ex) && OwnJob(s.db, j) && j in s.runs && c.maxAttempts >= 1
    ensures Hands(s, s.(db := E.Retry(s.db, j, now, c.maxAttempts), runs := s.runs - {j}))
  {
    RetryMakes(c, s.db, j, now);
    AckFrees(s, j, now);
    var base, jobs' := Acknowledge(s.db.jobs, j, now), E.Retry(s.db, j, now, c.maxAttempts).jobs;
    hide Rows, Acknowledge, E.Retry, Owns, JobOk, Active;
    assert !Owns(jobs', s.runs - {j}, j) by { OwnsPrefix(base, s.runs - {j}, jobs', j); }
    forall k: JobId | k < |s.db.jobs| && Owns(jobs', s.runs - {j}, k) ensures Owns(s.db.jobs, s.runs, k) {
      OwnsPrefix(base, s.runs - {j}, jobs', k);
    }
    assert Freed(s.db.jobs, s.runs, jobs', s.runs - {j}, s.db.jobs[j].task);
  }

  lemma OwnsPrefix(base: Jobs, runs: map<JobId, Phase>, jobs: Jobs, j: JobId)
    requires j < |base| <= |jobs| && jobs[j] == base[j]
    ensures Owns(jobs, runs, j) <==> Owns(base, runs, j)
  {
  }

  /** The same jobs, some of them given up. */
  lemma FewerHands(s: Sys, s': Sys)
    requires |s'.db.jobs| == |s.db.jobs| && NoneBecomesPending(s.db.ex.state, s'.db.ex.state)
    requires forall j :: 0 <= j < |s.db.jobs| ==> s'.db.jobs[j].task == s.db.jobs[j].task
    requires forall j: JobId :: Owns(s'.db.jobs, s'.runs, j) ==> Owns(s.db.jobs, s.runs, j)
    ensures Hands(s, s')
  {
  }

  lemma FinishHands(c: Settings, s: Sys, j: JobId, ok: bool, now: Time)
    requires Rows(s.db.ex) && IsInside(s, j) && Distinct(s.db.ex.order) && c.maxAttempts >= 1
    requires NoneBecomesPending(s.db.ex.state, AfterFinish(c, s, j, ok, now).db.ex.state)
    ensures Hands(s, AfterFinish(c, s, j, ok, now))
  {
    var n, ex := s.db.jobs[j].task, s.db.ex;
    assert n in ex.config && n in ex.retries && OwnJob(s.db, j);
    FinishParts(s.db, j, ok, now, c.maxAttempts);
    hide Rows, Distinct, Complete, E.Retry, E.Exhaust, FinishStopped, E.Finish, Succeeds, Hands, NoneBecomesPending,
      StepFrame;
    if Succeeds(ex, n, ok) && ex.cancellationRequested {
      AckHands(s, j, FinishStopped(s.db, j, now), now);
    } else if Succeeds(ex, n, ok) || ex.config[n].allowFailure {
      CompleteHands(s, j, now, c.maxAttempts);
    } else if ex.retries[n] + 1 <= ex.config[n].maxRetries {
      RetryHands(c, s, j, now);
    } else {
      AckHands(s, j, E.Exhaust(s.db, j, now), now);
    }
  }

  /** The worker leaves and nothing is queued. */
  lemma AckHands(s: Sys, j: JobId, db: Db, now: Time)
    requires Rows(s.db.ex) && OwnJob(s.db, j) && j in s.runs && NoneBecomesPending(s.db.ex.state, db.ex.state)
    requires db == FinishStopped(s.db, j, now) || db == E.Exhaust(s.db, j, now)
    ensures Hands(s, s.(db := db, runs := s.runs - {j}))
  {
    assert db.jobs == Acknowledge(s.db.jobs, j, now) by { hide Rows, FailTask, Refresh, Acknowledge; }
    AckFrees(s, j, now);
    hide Rows, NoneBecomesPending, Acknowledge, Owns, FinishStopped, E.Exhaust, Hands;
    FewerHands(s, s.(db := db, runs := s.runs - {j}));
  }

  lemma OtherHands(c: Settings, s: Sys, step: Step)
    requires Rows(s.db.ex) && s.starts.Keys == s.db.ex.state.Keys && Enabled(s, step)
    requires NoneBecomesPending(s.db.ex.state, Apply(c, s, step).db.ex.state)
    requires !step.Finish? && !step.Skip?
    ensures Hands(s, Apply(c, s, step))
  {
    var s' := Apply(c, s, step);
    OwnersFewer(c, s, step);
    hide Rows, Apply, Hands, NoneBecomesPending, Owns, Enabled;
    FewerHands(s, s');
  }

  lemma OwnersFewer(c: Settings, s: Sys, step: Step)
    requires Rows(s.db.ex) && s.starts.Keys == s.db.ex.state.Keys && Enabled(s, step) && !step.Finish? && !step.Skip?
    ensures var s' := Apply(c, s, step);
      && |s'.db.jobs| == |s.db.jobs|
      && (forall j :: 0 <= j < |s.db.jobs| ==> s'.db.jobs[j].task == s.db.jobs[j].task)
      && (forall j: JobId :: Owns(s'.db.jobs, s'.runs, j) ==> Owns(s.db.jobs, s.runs, j))
  {
    hide Rows, StepFrame, HandleDeadLetter, Refresh;
  }

  /** Every step of the engine keeps owners unique. */
  lemma StepKeepsSole(c: Settings, s: Sys, step: Step)
    requires Rows(s.db.ex) && s.starts.Keys == s.db.ex.state.Keys && Enabled(s, step) && Distinct(s.db.ex.order)
    requires Sole(s) && c.maxAttempts >= 1
    ensures Sole(Apply(c, s, step))
  {
    hide Rows, Distinct, Enabled, SoleOwners, HandsOver, NoneBecomesPending, Apply;
    StepNoneBecomesPending(c, s, step);
    StepHands(c, s, step);
    var s' := Apply(c, s, step);
    HandingOverKeepsSole(s.db.ex.state, s.db.jobs, s.runs, s'.db.ex.state, s'.db.jobs, s'.runs);
  }

  lemma StepHands(c: Settings, s: Sys, step: Step)
    requires Rows(s.db.ex) && s.starts.Keys == s.db.ex.state.Keys && Enabled(s, step) && Distinct(s.db.ex.order)
    requires NoneBecomesPending(s.db.ex.state, Apply(c, s, step).db.ex.state) && c.maxAttempts >= 1
    ensures Hands(s, Apply(c, s, step))
  {
    hide Rows, Distinct, Hands, NoneBecomesPending, AfterFinish, SkipTask, StepFrame;
    if step.Finish? {
      FinishHands(c, s, step.j, step.ok, step.now);
    } else if step.Skip? {
      SkipHands(s, step.n, step.now, c.maxAttempts);
    } else {
      hide *;
      OtherHands(c, s, step);
    }
  }

  /** So does a strike, whoever is inside. */
  lemma StrikeKeepsSole(s: Sys, n: Name, now: Time)
    requires Sole(s)
    ensures Sole(LoseTask(s, n, now))
  {
    if n in s.db.ex.state { LoseMoves(s, n, now); }
    hide HandleDeadLetter, Owns, StepFrame;
  }

  lemma EachOwnsOne(st: States, st': States, added: Jobs)
    requires OneEach(st, st', added)
    ensures SoleOwners(st', added, map[])
  {
  }

  /** The first pass gives each ready task one job. */
  lemma SpawnedSole(c: Settings, ex: Execution, t0: Time)
    requires Rows(ex) && Distinct(ex.order)
    ensures Sole(Spawned(c, ex, t0))
  {
    var added := PassAdds(Db(ex, []), t0, c.maxAttempts);
    assert [] + added == added;
    hide EnqueueReady, Rows, Distinct, SoleOwners, OneEach;
    EachOwnsOne(ex.state, Spawned(c, ex, t0).db.ex.state, added);
  }
}
