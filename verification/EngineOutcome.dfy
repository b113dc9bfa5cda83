/** Where a run ends does not depend on how it was scheduled. */
module EngineOutcome {
  import opened Dag
  import opened Tasks
  import opened Q = QueueRecords
  import opened E = ExecutionState
  import opened Engine
  import opened EngineCore
  import opened EngineInv
  import opened EngineStatus
  import opened EngineMoves
  import opened EngineSafety
  import opened EngineCancel
  import opened EngineQuiet
  import opened Readiness

  /** What each task's handler answers on its k-th attempt. */
  type Script = (Name, nat) -> bool

  /** A task's own verdict from attempt `k` on, whatever becomes of the others. */
  predicate Verdict(cfg: Config, h: Script, n: Name, k: nat)
    decreases cfg.maxRetries - k
  {
    || (h(n, k) && k >= cfg.failFirstN)
    || cfg.allowFailure
    || (k + 1 <= cfg.maxRetries && Verdict(cfg, h, n, k + 1))
  }

  /** A task is worth its effort if its failure is tolerated or some permitted attempt answers well. */
  lemma {:induction false} VerdictMeans(cfg: Config, h: Script, n: Name, k: nat)
    requires k <= cfg.maxRetries
    ensures Verdict(cfg, h, n, k) <==>
      cfg.allowFailure || exists i: nat :: k <= i <= cfg.maxRetries && cfg.failFirstN <= i && h(n, i)
    decreases cfg.maxRetries - k
  {
    if k < cfg.maxRetries { VerdictMeans(cfg, h, n, k + 1); }
  }

  // ---- one step without operators ----

  /** Outside `acted` only pending tasks move, and one of them fails only because a dependency did. */
  ghost predicate CalmStep(g: Graph, st: States, st': States, acted: set<Name>) {
    && st'.Keys == st.Keys
    && forall m :: m in st && m in g && m !in acted ==> CalmMove(g, st, st', m)
  }

  ghost predicate CalmMove(g: Graph, st: States, st': States, m: Name)
    requires m in st && m in st' && m in g
  {
    || st'[m] == st[m]
    || (st[m] == Pending && (st'[m] == Enqueued || (st'[m] == Failure && SomeDep(g, st', m, Failure))))
  }

  lemma DoomedHasFailedDep(g: Graph, st: States, n: Name)
    requires Doomed(g, st, n) && n in st && n in g
    ensures st[n] == Pending && SomeDep(g, FailDownstream(g, st), n, Failure)
  {
    var p: seq<Name> :| DoomPath(g, st, p) && p[|p| - 1] == n;
    var d := p[|p| - 2];
    assert Edge(g, d, n);
    if |p| > 2 {
      var q := p[..|p| - 1];
      forall i | 0 <= i < |q| - 1 ensures Edge(g, q[i], q[i + 1]) { assert Edge(g, p[i], p[i + 1]); }
      assert DoomPath(g, st, q) && q[|q| - 1] == d;
      assert Doomed(g, st, d);
    } else {
      assert !Doomed(g, st, d) by { FailDownstreamChanges(g, st); }
    }
    assert d in FailDownstream(g, st) && FailDownstream(g, st)[d] == Failure;
  }

  lemma FailTaskCalm(ex: Execution, n: Name, now: Time)
    requires n in ex.state
    ensures CalmStep(ex.graph, ex.state, FailTask(ex, n, now).state, {n})
  {
    var g, st1 := ex.graph, ex.state[n := Failure];
    var st' := FailDownstream(g, st1);
    FailDownstreamChanges(g, st1);
    assert FailTask(ex, n, now).state == st' by { hide FailDownstream, StatusOf; }
    forall m | m in ex.state && m in g && m != n ensures CalmMove(g, ex.state, st', m) {
      if Doomed(g, st1, m) { DoomedHasFailedDep(g, st1, m); }
    }
  }

  lemma CleanReadyCalm(db: Db, now: Time, maxAttempts: nat)
    requires Rows(db.ex) && Clean(db.ex.graph, db.ex.state) && !db.ex.cancellationRequested
    ensures var ex := EnqueueReady(db, now, maxAttempts).ex;
      ex.state.Keys == db.ex.state.Keys && forall n :: n in db.ex.state ==>
        ex.state[n] == db.ex.state[n] || (db.ex.state[n] == Pending && ex.state[n] == Enqueued)
  {
    hide Clean, EnqueueAll, StatusOf;
    CleanPass(db, db.ex.order, now, maxAttempts);
    PassOnlyPending(db, db.ex.order, now, maxAttempts);
  }

  lemma {:induction false} PassOnlyPending(db: Db, names: seq<Name>, now: Time, maxAttempts: nat)
    requires Rows(db.ex) && Elements(names) <= Elements(db.ex.order)
    ensures var r := EnqueueAll(db, names, now, maxAttempts);
      && r.ex.retries == db.ex.retries && r.ex.state.Keys == db.ex.state.Keys
      && forall n :: n in db.ex.state ==> r.ex.state[n] == db.ex.state[n] || db.ex.state[n] == Pending
    decreases |names|
  {
    if names != [] {
      assert names[0] in Elements(names) && Elements(names[1..]) <= Elements(names);
      hide Rule, FirstJob, Elements;
      PassOnlyPending(EnqueueOne(db, names[0], now, maxAttempts), names[1..], now, maxAttempts);
    }
  }

  lemma CompleteCalm(db: Db, j: JobId, now: Time, maxAttempts: nat)
    requires Rows(db.ex) && OwnJob(db, j) && CalmRun(db, j)
    ensures CalmStep(db.ex.graph, db.ex.state, Complete(db, j, now, maxAttempts).ex.state, {db.jobs[j].task})
  {
    var n := db.jobs[j].task;
    SetStateRows(db.ex, n, Success);
    CleanAfter(db.ex.graph, db.ex.state, n, Success);
    hide Rows, Clean, Settled, Known, Distinct, EnqueueReady, StatusOf, Acknowledge;
    CleanReadyCalm(Db(SetState(db.ex, n, Success), Acknowledge(db.jobs, j, now)), now, maxAttempts);
  }

  lemma SetCalm(g: Graph, st: States, n: Name, x: TaskState)
    requires n in st
    ensures CalmStep(g, st, st[n := x], {n}) && CalmStep(g, st, st, {}) && CalmStep(g, st, st, {n})
  {
  }

  lemma FinishCalm(c: Settings, s: Sys, j: JobId, ok: bool, now: Time)
    requires Rows(s.db.ex) && IsInside(s, j) && Inv(c, s) && !s.db.ex.cancellationRequested
    ensures CalmStep(s.db.ex.graph, s.db.ex.state, AfterFinish(c, s, j, ok, now).db.ex.state, {s.db.jobs[j].task})
  {
    hide Inv, CalmRun, CalmStep, Complete, E.Retry, E.Exhaust, Rows, Succeeds;
    InsideIsCalm(c, s, j);
    CompleteCalm(s.db, j, now, c.maxAttempts);
    RetryStates(s.db, j, now, c.maxAttempts);
    SetCalm(s.db.ex.graph, s.db.ex.state, s.db.jobs[j].task, Enqueued);
    ExhaustCalm(s.db, j, now);
  }

  lemma ExhaustCalm(db: Db, j: JobId, now: Time)
    requires Rows(db.ex) && OwnJob(db, j)
    ensures CalmStep(db.ex.graph, db.ex.state, E.Exhaust(db, j, now).ex.state, {db.jobs[j].task})
  {
    var n := db.jobs[j].task;
    hide CalmStep, FailTask, Acknowledge, CountedFailure;
    FailTaskCalm(CountedFailure(db.ex, n), n, now);
  }

  lemma LoseCalm(s: Sys, n: Name, now: Time)
    requires n in s.db.ex.state
    ensures CalmStep(s.db.ex.graph, s.db.ex.state, LoseTask(s, n, now).db.ex.state, {n})
  {
    FailTaskCalm(s.db.ex, n, now);
    SetCalm(s.db.ex.graph, s.db.ex.state, n, Failure);
    hide CalmStep, FailTask;
  }

  lemma StartCalm(c: Settings, s: Sys, j: JobId, now: Time)
    requires Rows(s.db.ex) && Enabled(s, Step.Start(j, now))
    ensures CalmStep(s.db.ex.graph, s.db.ex.state, E.Start(s.db, j, now).ex.state, {s.db.jobs[j].task})
  {
    SetCalm(s.db.ex.graph, s.db.ex.state, s.db.jobs[j].task, Running);
    SetCalm(s.db.ex.graph, s.db.ex.state, s.db.jobs[j].task, Stopped);
    hide CalmStep, Rows, StatusOf, Acknowledge;
  }

  /** A step no operator takes. */
  predicate Automatic(step: Step) { !step.Cancel? && !step.Skip? }

  lemma StepCalm(c: Settings, s: Sys, step: Step)
    requires Rows(s.db.ex) && s.starts.Keys == s.db.ex.state.Keys && Enabled(s, step) && Inv(c, s)
    requires !s.db.ex.cancellationRequested && Automatic(step)
    ensures CalmStep(s.db.ex.graph, s.db.ex.state, Apply(c, s, step).db.ex.state, Acted(s, step))
  {
    hide Inv, CalmStep, Rows, AfterFinish, LoseTask, StepFrame, E.Start;
    match step
    case Start(j, now) => StartCalm(c, s, j, now);
    case Finish(j, ok, now) => FinishCalm(c, s, j, ok, now);
    case Deliver(j, now) => LoseCalm(s.(letters := s.letters - {j}, buffer := s.buffer - {j}), s.db.jobs[j].task, now);
    case ReapHung(n, now) => LoseCalm(s, n, now);
    case _ => OthersKeepState(c, s, step); SameCalm(s.db.ex.graph, s.db.ex.state);
  }

  lemma SameCalm(g: Graph, st: States)
    ensures CalmStep(g, st, st, {})
  {
  }

  /** A failed attempt is counted; nothing else is. */
  lemma StepRetries(c: Settings, s: Sys, step: Step)
    requires Rows(s.db.ex) && s.starts.Keys == s.db.ex.state.Keys && Enabled(s, step)
    requires !s.db.ex.cancellationRequested && Automatic(step)
    ensures Apply(c, s, step).db.ex.retries ==
      if step.Finish? && !Succeeds(s.db.ex, s.db.jobs[step.j].task, step.ok)
        && !s.db.ex.config[s.db.jobs[step.j].task].allowFailure
      then s.db.ex.retries[s.db.jobs[step.j].task := s.db.ex.retries[s.db.jobs[step.j].task] + 1] else s.db.ex.retries
  {
    hide Rows, StatusOf, FailTask, Complete, Succeeds, Acknowledge, StepFrame, Q.Claim, NewJob, Backoff, SetState,
      FailDownstream;
    match step
    case Finish(j, ok, now) => CompleteRetries(s.db, j, now, c.maxAttempts);
    case Start(j, now) => StartRetries(s.db, j, now);
    case Interrupt(j, now) => assert false;
    case _ =>
  }

  lemma StartRetries(db: Db, j: JobId, now: Time)
    requires Rows(db.ex) && OwnJob(db, j)
    ensures E.Start(db, j, now).ex.retries == db.ex.retries
  {
    hide StatusOf, Rows, Acknowledge;
  }

  lemma EnqueueReadyRetries(db: Db, now: Time, maxAttempts: nat)
    requires Rows(db.ex)
    ensures EnqueueReady(db, now, maxAttempts).ex.retries == db.ex.retries
  {
    hide EnqueueAll, StatusOf, StopLive;
    PassOnlyPending(db, db.ex.order, now, maxAttempts);
  }

  lemma CompleteRetries(db: Db, j: JobId, now: Time, maxAttempts: nat)
    requires Rows(db.ex) && OwnJob(db, j)
    ensures Complete(db, j, now, maxAttempts).ex.retries == db.ex.retries
  {
    hide Rows, EnqueueReady, StatusOf, Acknowledge;
    SetStateRows(db.ex, db.jobs[j].task, Success);
    EnqueueReadyRetries(Db(SetState(db.ex, db.jobs[j].task, Success), Acknowledge(db.jobs, j, now)), now, maxAttempts);
  }

  /** A task is given up exactly when a lost worker makes it fail. */
  lemma StepLost(c: Settings, s: Sys, step: Step)
    requires Rows(s.db.ex) && s.starts.Keys == s.db.ex.state.Keys && Enabled(s, step)
    ensures Apply(c, s, step).lost ==
      s.lost + (if step.Deliver? || step.ReapHung?
        then set n | n in Acted(s, step) && !Satisfied(s.db.ex.state[n]) && s.db.ex.state[n] != Failure else {})
  {
    hide Rows, StatusOf, FailTask, Complete, E.Finish, E.Start, Acknowledge, StepFrame, SkipTask, CancelExecution,
      FinishStopped, HandleDeadLetter;
  }

  // ---- what a task's state says about it ----

  /** The task's state fits its script: `Verdict` from its current attempt is its verdict from the first. */
  ghost predicate TaskOk(ex: Execution, lost: set<Name>, h: Script, n: Name)
    requires Rows(ex) && n in ex.state
  {
    var cfg, k := ex.config[n], ex.retries[n];
    match ex.state[n]
    case Pending => k == 0 && n !in lost
    case Enqueued => k <= cfg.maxRetries && n !in lost && (Verdict(cfg, h, n, k) <==> Verdict(cfg, h, n, 0))
    case Running => k <= cfg.maxRetries && n !in lost && (Verdict(cfg, h, n, k) <==> Verdict(cfg, h, n, 0))
    case Success => n !in lost && Verdict(cfg, h, n, 0)
    case Failure => n in lost || !Verdict(cfg, h, n, 0) || SomeDep(ex.graph, ex.state, n, Failure)
    case _ => false
  }

  ghost predicate OutcomeOk(ex: Execution, lost: set<Name>, h: Script)
    requires Rows(ex)
  {
    forall n :: n in ex.state ==> TaskOk(ex, lost, h, n)
  }

  /** Every attempt is answered from the script. */
  predicate Follows(s: Sys, step: Step, h: Script) {
    step.Finish? && OwnJob(s.db, step.j) && s.db.jobs[step.j].task in s.db.ex.retries ==>
      step.ok == h(s.db.jobs[step.j].task, s.db.ex.retries[s.db.jobs[step.j].task])
  }

  /** What one step without operators does to the rows. */
  ghost predicate Delta(ex: Execution, lost: set<Name>, ex': Execution, lost': set<Name>, acted: set<Name>) {
    && SameDefinitions(ex, ex') && CalmStep(ex.graph, ex.state, ex'.state, acted)
    && RetriesKept(ex.retries, ex'.retries, acted) && LostKept(lost, lost', acted)
    && FailuresKept(ex.state, ex'.state, acted)
  }

  lemma FailedDepStays(ex: Execution, lost: set<Name>, ex': Execution, lost': set<Name>, acted: set<Name>, n: Name)
    requires Rows(ex) && Rows(ex') && Delta(ex, lost, ex', lost', acted) && n in ex.state
      && SomeDep(ex.graph, ex.state, n, Failure)
    ensures SomeDep(ex'.graph, ex'.state, n, Failure)
  {
    var d :| d in ex.graph[n] && d in ex.state && ex.state[d] == Failure;
    assert d in ex'.state && ex'.state[d] == Failure by {
      if d !in acted { assert CalmMove(ex.graph, ex.state, ex'.state, d); }
    }
  }

  lemma TaskOkElsewhere(ex: Execution, lost: set<Name>, ex': Execution, lost': set<Name>, acted: set<Name>, h: Script,
                        n: Name)
    requires Rows(ex) && Rows(ex') && Delta(ex, lost, ex', lost', acted)
    requires n in ex.state && n !in acted && TaskOk(ex, lost, h, n)
    ensures n in ex'.state && TaskOk(ex', lost', h, n)
  {
    assert CalmMove(ex.graph, ex.state, ex'.state, n);
    if SomeDep(ex.graph, ex.state, n, Failure) { FailedDepStays(ex, lost, ex', lost', acted, n); }
    hide SomeDep, CalmStep, Rows, Verdict;
  }

  lemma TaskOkActed(c: Settings, s: Sys, step: Step, h: Script, n: Name, ex: Execution, lost: set<Name>)
    requires Rows(s.db.ex) && Enabled(s, step) && Automatic(step) && !s.db.ex.cancellationRequested
    requires Rows(ex) && SameDefinitions(s.db.ex, ex)
    requires n in Acted(s, step) && n in s.db.ex.state && TaskOk(s.db.ex, s.lost, h, n) && Follows(s, step, h)
    requires step.Start? ==> s.db.ex.state[n] != Pending
    requires step.Finish? ==> s.db.ex.state[n] == Running
    requires ActedOk(s, step, s.db.ex.state[n], ex.state[n])
    requires SomeDep(s.db.ex.graph, s.db.ex.state, n, Failure) ==> SomeDep(ex.graph, ex.state, n, Failure)
    requires ex.retries[n] == s.db.ex.retries[n] +
      if step.Finish? && !Succeeds(s.db.ex, n, step.ok) && !s.db.ex.config[n].allowFailure then 1 else 0
    requires n in lost <==> (n in s.lost || ((step.Deliver? || step.ReapHung?) && !Satisfied(s.db.ex.state[n])
      && s.db.ex.state[n] != Failure))
    ensures TaskOk(ex, lost, h, n)
  {
    assert n in ex.config && ex.config[n] == s.db.ex.config[n];
    hide SomeDep, Rows;
  }

  /** A failed task stays failed. */
  lemma FailureStays(c: Settings, s: Sys, step: Step, n: Name)
    requires Rows(s.db.ex) && s.starts.Keys == s.db.ex.state.Keys && Enabled(s, step) && Distinct(s.db.ex.order)
    requires Automatic(step) && !s.db.ex.cancellationRequested
    requires step.Finish? ==> s.db.ex.state[s.db.jobs[step.j].task] == Running
    requires n in Acted(s, step) && n in s.db.ex.state && s.db.ex.state[n] == Failure
    ensures n in Apply(c, s, step).db.ex.state && Apply(c, s, step).db.ex.state[n] == Failure
  {
    hide Apply, Rows, Distinct, Elsewhere, Succeeds;
    StepMoves(c, s, step);
    StepKeys(c, s, step);
  }

  lemma StepKeys(c: Settings, s: Sys, step: Step)
    requires Rows(s.db.ex) && s.starts.Keys == s.db.ex.state.Keys && Enabled(s, step) && Distinct(s.db.ex.order)
    ensures Apply(c, s, step).db.ex.state.Keys == s.db.ex.state.Keys
  {
    hide Apply, Rows, Distinct, Enabled, Acted, ActedOk, Sweeps, Moved;
    StepMoves(c, s, step);
  }

  lemma StepDelta(c: Settings, s: Sys, step: Step)
    requires Rows(s.db.ex) && s.starts.Keys == s.db.ex.state.Keys && Enabled(s, step) && Inv(c, s)
    requires !s.db.ex.cancellationRequested && Automatic(step)
    requires step.Finish? ==> s.db.ex.state[s.db.jobs[step.j].task] == Running
    ensures Delta(s.db.ex, s.lost, Apply(c, s, step).db.ex, Apply(c, s, step).lost, Acted(s, step))
  {
    assert Distinct(s.db.ex.order);
    hide Inv, CalmStep, Apply, Rows, Distinct, Acted, Enabled, FailuresKept, RetriesKept, LostKept, Delta;
    StepCalm(c, s, step);
    FailuresStay(c, s, step);
    RetriesElsewhere(c, s, step);
    LostElsewhere(c, s, step);
    MakeDelta(s.db.ex, s.lost, Apply(c, s, step).db.ex, Apply(c, s, step).lost, Acted(s, step));
  }

  lemma FailuresStay(c: Settings, s: Sys, step: Step)
    requires Rows(s.db.ex) && s.starts.Keys == s.db.ex.state.Keys && Enabled(s, step) && Distinct(s.db.ex.order)
    requires !s.db.ex.cancellationRequested && Automatic(step)
    requires step.Finish? ==> s.db.ex.state[s.db.jobs[step.j].task] == Running
    ensures FailuresKept(s.db.ex.state, Apply(c, s, step).db.ex.state, Acted(s, step))
  {
    hide Apply, Rows, Distinct, Acted, Enabled;
    forall m | m in Acted(s, step) && m in s.db.ex.state && s.db.ex.state[m] == Failure
      ensures m in Apply(c, s, step).db.ex.state && Apply(c, s, step).db.ex.state[m] == Failure
    {
      FailureStays(c, s, step, m);
    }
  }

  lemma MakeDelta(ex: Execution, lost: set<Name>, ex': Execution, lost': set<Name>, acted: set<Name>)
    requires SameDefinitions(ex, ex') && CalmStep(ex.graph, ex.state, ex'.state, acted)
    requires RetriesKept(ex.retries, ex'.retries, acted) && LostKept(lost, lost', acted)
      && FailuresKept(ex.state, ex'.state, acted)
    ensures Delta(ex, lost, ex', lost', acted)
  {
    hide CalmStep;
  }

  ghost predicate RetriesKept(retries: map<Name, nat>, retries': map<Name, nat>, acted: set<Name>) {
    forall m :: m in retries && m !in acted ==> m in retries' && retries'[m] == retries[m]
  }

  ghost predicate LostKept(lost: set<Name>, lost': set<Name>, acted: set<Name>) {
    forall m :: m !in acted ==> (m in lost' <==> m in lost)
  }

  ghost predicate FailuresKept(st: States, st': States, acted: set<Name>) {
    forall m :: m in acted && m in st && st[m] == Failure ==> m in st' && st'[m] == Failure
  }

  lemma RetriesElsewhere(c: Settings, s: Sys, step: Step)
    requires Rows(s.db.ex) && s.starts.Keys == s.db.ex.state.Keys && Enabled(s, step)
    requires !s.db.ex.cancellationRequested && Automatic(step)
    ensures RetriesKept(s.db.ex.retries, Apply(c, s, step).db.ex.retries, Acted(s, step))
  {
    hide Apply, Rows, Succeeds;
    StepRetries(c, s, step);
  }

  lemma LostElsewhere(c: Settings, s: Sys, step: Step)
    requires Rows(s.db.ex) && s.starts.Keys == s.db.ex.state.Keys && Enabled(s, step)
    ensures LostKept(s.lost, Apply(c, s, step).lost, Acted(s, step))
  {
    hide Apply, Rows, Acted;
    StepLost(c, s, step);
  }

  lemma CalmKeys(g: Graph, st: States, st': States, acted: set<Name>)
    requires CalmStep(g, st, st', acted)
    ensures st'.Keys == st.Keys
  {
  }

  /** The task a step is about was queued before, and whoever finishes finds it running. */
  lemma ActedStates(c: Settings, s: Sys, step: Step)
    requires Rows(s.db.ex) && Enabled(s, step) && Inv(c, s) && !s.db.ex.cancellationRequested
    ensures step.Start? ==> s.db.ex.state[s.db.jobs[step.j].task] != Pending
    ensures step.Finish? ==> s.db.ex.state[s.db.jobs[step.j].task] == Running
  {
    hide Core, Settled, Rows;
    match step
    case Start(j, now) => OwnerOf(c, s, j);
    case Finish(j, ok, now) => InsideIsCalm(c, s, j);
    case _ =>
  }

  lemma StepKeepsOutcome(c: Settings, s: Sys, step: Step, h: Script)
    requires Rows(s.db.ex) && s.starts.Keys == s.db.ex.state.Keys && Enabled(s, step) && Inv(c, s)
    requires !s.db.ex.cancellationRequested && Automatic(step) && Follows(s, step, h)
    requires OutcomeOk(s.db.ex, s.lost, h)
    ensures OutcomeOk(Apply(c, s, step).db.ex, Apply(c, s, step).lost, h)
  {
    assert Distinct(s.db.ex.order);
    var ex', lost' := Apply(c, s, step).db.ex, Apply(c, s, step).lost;
    hide Inv, Rows, TaskOk, Follows, Enabled, Apply, Distinct;
    ActedStates(c, s, step);
    StepDelta(c, s, step);
    CalmKeys(s.db.ex.graph, s.db.ex.state, ex'.state, Acted(s, step));
    hide CalmStep, Delta, Acted;
    forall n | n in ex'.state ensures TaskOk(ex', lost', h, n) {
      if n in Acted(s, step) {
        StepActed(c, s, step, h, n);
      } else {
        TaskOkElsewhere(s.db.ex, s.lost, ex', lost', Acted(s, step), h, n);
      }
    }
  }

  lemma StepActed(c: Settings, s: Sys, step: Step, h: Script, n: Name)
    requires Rows(s.db.ex) && s.starts.Keys == s.db.ex.state.Keys && Enabled(s, step) && Inv(c, s)
    requires !s.db.ex.cancellationRequested && Automatic(step) && Follows(s, step, h)
    requires step.Start? ==> s.db.ex.state[s.db.jobs[step.j].task] != Pending
    requires step.Finish? ==> s.db.ex.state[s.db.jobs[step.j].task] == Running
    requires n in Acted(s, step) && n in s.db.ex.state && TaskOk(s.db.ex, s.lost, h, n)
    ensures n in Apply(c, s, step).db.ex.state && TaskOk(Apply(c, s, step).db.ex, Apply(c, s, step).lost, h, n)
  {
    assert Distinct(s.db.ex.order);
    var ex', lost' := Apply(c, s, step).db.ex, Apply(c, s, step).lost;
    hide Inv, Rows, TaskOk, Follows, Apply, Distinct, ActedOk, Succeeds;
    StepDelta(c, s, step);
    StepRetries(c, s, step);
    StepLost(c, s, step);
    StepMoves(c, s, step);
    hide Elsewhere, CalmStep, Delta;
    ActedTask(s, step, n);
    if SomeDep(s.db.ex.graph, s.db.ex.state, n, Failure) {
      FailedDepStays(s.db.ex, s.lost, ex', lost', Acted(s, step), n);
    }
    hide SomeDep, Acted;
    TaskOkActed(c, s, step, h, n, ex', lost');
  }

  lemma ActedTask(s: Sys, step: Step, n: Name)
    requires Rows(s.db.ex) && Enabled(s, step) && n in Acted(s, step)
    ensures step.Start? || step.Finish? || step.Interrupt? || step.Deliver? ==> n == s.db.jobs[step.j].task
  {
    hide Rows;
  }

  // ---- whole runs ----

  /** Neither cancelled nor skipped by hand. */
  ghost predicate Unattended(steps: seq<Step>) { forall i :: 0 <= i < |steps| ==> Automatic(steps[i]) }

  ghost predicate RunFollows(states: seq<Sys>, steps: seq<Step>, h: Script)
    requires |states| == |steps| + 1
  {
    forall i :: 0 <= i < |steps| ==> Follows(states[i], steps[i], h)
  }

  lemma SpawnedOutcome(c: Settings, ex: Execution, t0: Time, h: Script)
    requires Rows(ex) && Fresh(ex) && c.maxAttempts >= 1
    ensures OutcomeOk(Spawned(c, ex, t0).db.ex, Spawned(c, ex, t0).lost, h)
  {
    FreshCore(c, ex);
    hide Clean, Core, EnqueueReady, Known, Acyclic, Distinct, OutcomeOk;
    CleanReadyCalm(Db(ex, []), t0, c.maxAttempts);
    EnqueueReadyRetries(Db(ex, []), t0, c.maxAttempts);
    FreshOutcome(ex, Spawned(c, ex, t0).db.ex, h);
  }

  lemma FreshOutcome(ex: Execution, ex': Execution, h: Script)
    requires Rows(ex) && Rows(ex') && Fresh(ex) && ex'.state.Keys == ex.state.Keys && ex'.retries == ex.retries
    requires forall n :: n in ex.state ==> ex'.state[n] == Pending || ex'.state[n] == Enqueued
    ensures OutcomeOk(ex', {}, h)
  {
    hide Verdict, SomeDep, Known, Acyclic, Distinct;
  }

  /** The states of a run without operators, as far as the engine's invariant describes them. */
  lemma RunIsCalm(c: Settings, ex: Execution, t0: Time, states: seq<Sys>, steps: seq<Step>, i: nat)
    requires IsRun(c, ex, t0, states, steps) && i < |states| && Unattended(steps)
    ensures Inv(c, states[i]) && SameDefinitions(ex, states[i].db.ex) && Rows(states[i].db.ex)
      && !states[i].db.ex.cancellationRequested
  {
    assert NoCancel(steps);
    hide *;
    RunKeepsInv(c, ex, t0, states, steps, i);
    UncancelledRun(c, ex, t0, states, steps, i);
    CoreMeansRowsInv(c, states[i]);
  }

  lemma {:induction false} RunOutcome(c: Settings, ex: Execution, t0: Time, states: seq<Sys>, steps: seq<Step>,
                                      h: Script, i: nat)
    requires IsRun(c, ex, t0, states, steps) && i < |states| && Unattended(steps) && RunFollows(states, steps, h)
    ensures Inv(c, states[i]) && SameDefinitions(ex, states[i].db.ex) && Rows(states[i].db.ex)
      && !states[i].db.ex.cancellationRequested
    ensures OutcomeOk(states[i].db.ex, states[i].lost, h)
  {
    hide Inv, Fresh, Rows, Apply, Spawned, OutcomeOk, Enabled, Follows, SameDefinitions, Automatic;
    RunIsCalm(c, ex, t0, states, steps, i);
    if i == 0 {
      SpawnedOutcome(c, ex, t0, h);
    } else {
      RunOutcome(c, ex, t0, states, steps, h, i - 1);
      assert Legal(c, states[i - 1], steps[i - 1], states[i]) && Automatic(steps[i - 1]);
      assert Follows(states[i - 1], steps[i - 1], h);
      StepKeepsOutcome(c, states[i - 1], steps[i - 1], h);
    }
  }

  lemma CoreMeansRowsInv(c: Settings, s: Sys)
    requires Inv(c, s)
    ensures Rows(s.db.ex)
  {
    hide ViewOk;
  }

  // ---- the simple recursion ----

  /** The tasks that would succeed on their own. */
  ghost function Capable(config: map<Name, Config>, lost: set<Name>, h: Script): set<Name> {
    set n | n in config && n !in lost && Verdict(config[n], h, n, 0)
  }

  /** Going through the graph dependencies-first: a task succeeds when it is capable and all it depends on succeeded. */
  ghost function Succeeding(g: Graph, own: set<Name>, order: seq<Name>): set<Name> {
    if order == [] then {}
    else
      var n, before := order[|order| - 1], Succeeding(g, own, order[..|order| - 1]);
      if n in own && n in g && forall d :: d in g[n] ==> d in before then before + {n} else before
  }

  ghost function EndStates(g: Graph, own: set<Name>, order: seq<Name>): States {
    map n | n in g :: if n in Succeeding(g, own, order) then Success else Failure
  }

  /** The successes satisfy the recursion's equation. */
  ghost predicate Solves(ex: Execution, own: set<Name>, st: States)
    requires Rows(ex)
  {
    && st.Keys == ex.state.Keys && AllEnded(st)
    && forall n :: n in st ==> (st[n] == Success <==> n in own && forall d :: d in ex.graph[n] ==>
      d in st && st[d] == Success)
  }

  lemma SolvesAt(ex: Execution, lost: set<Name>, h: Script, n: Name)
    requires Rows(ex) && n in ex.state && TaskOk(ex, lost, h, n) && (ex.state[n] == Success || ex.state[n] == Failure)
    requires ex.state[n] == Success ==> Ready(ex.graph, ex.state, n)
    requires forall d :: d in ex.graph[n] ==> d in ex.state && (ex.state[d] == Success || ex.state[d] == Failure)
    ensures ex.state[n] == Success <==>
      (n in Capable(ex.config, lost, h) && forall d :: d in ex.graph[n] ==> d in ex.state && ex.state[d] == Success)
  {
    hide Verdict;
  }

  lemma Ends(ex: Execution, lost: set<Name>, h: Script)
    requires Rows(ex) && OutcomeOk(ex, lost, h) && AllEnded(ex.state)
    ensures forall n :: n in ex.state ==> ex.state[n] == Success || ex.state[n] == Failure
  {
    hide Verdict;
    forall n | n in ex.state ensures ex.state[n] == Success || ex.state[n] == Failure {
      assert TaskOk(ex, lost, h, n);
    }
  }

  lemma EndSolves(c: Settings, s: Sys, h: Script)
    requires Rows(s.db.ex) && Inv(c, s) && !s.db.ex.cancellationRequested && OutcomeOk(s.db.ex, s.lost, h)
      && AllEnded(s.db.ex.state)
    ensures Solves(s.db.ex, Capable(s.db.ex.config, s.lost, h), s.db.ex.state)
    ensures forall n :: n in s.db.ex.state ==> s.db.ex.state[n] == Success || s.db.ex.state[n] == Failure
  {
    hide Inv, Settled, CaredFor, Acyclic, Distinct, Rows, TaskOk, AllEnded, Capable;
    CalmFacts(c, s);
    var ex := s.db.ex;
    Ends(ex, s.lost, h);
    forall n | n in ex.state
      ensures ex.state[n] == Success <==>
        (n in Capable(ex.config, s.lost, h) && forall d :: d in ex.graph[n] ==> d in ex.state && ex.state[d] == Success)
    {
      if ex.state[n] == Success { SuccessReady(c, s, n); }
      SolvesAt(ex, s.lost, h, n);
    }
  }

  lemma SuccessReady(c: Settings, s: Sys, n: Name)
    requires Rows(s.db.ex) && Inv(c, s) && n in s.db.ex.state && s.db.ex.state[n] == Success
    ensures Ready(s.db.ex.graph, s.db.ex.state, n)
  {
    assert n in s.db.ex.graph;
    hide Core, Rows;
    forall d | d in s.db.ex.graph[n] ensures d in s.db.ex.state && Satisfied(s.db.ex.state[d]) {
      DepsAreDone(c, s, n, d);
    }
  }

  /** A run's successes, read off its last state. */
  ghost predicate EndsWith(c: Settings, ex: Execution, t0: Time, states: seq<Sys>, steps: seq<Step>, h: Script,
                           last: Sys) {
    && IsRun(c, ex, t0, states, steps) && Unattended(steps) && RunFollows(states, steps, h)
    && last == states[|steps|] && AllEnded(last.db.ex.state)
  }

  lemma LastSolves(c: Settings, ex: Execution, t0: Time, states: seq<Sys>, steps: seq<Step>, h: Script, last: Sys)
    requires EndsWith(c, ex, t0, states, steps, h, last)
    ensures Rows(last.db.ex) && Rows(ex) && SameDefinitions(ex, last.db.ex) && Inv(c, last)
      && !last.db.ex.cancellationRequested
    ensures Solves(ex, Capable(ex.config, last.lost, h), last.db.ex.state)
    ensures forall n :: n in last.db.ex.state ==> last.db.ex.state[n] == Success || last.db.ex.state[n] == Failure
  {
    RunOutcome(c, ex, t0, states, steps, h, |steps|);
    assert Rows(ex);
    hide IsRun, Inv, OutcomeOk, Unattended, RunFollows, AllEnded;
    EndSolves(c, last, h);
    hide Capable;
    SolvesSame(ex, last.db.ex, Capable(ex.config, last.lost, h), last.db.ex.state);
  }

  lemma SolvesSame(ex: Execution, ex': Execution, own: set<Name>, st: States)
    requires Rows(ex) && Rows(ex') && SameDefinitions(ex, ex') && Solves(ex', own, st)
    ensures Solves(ex, own, st)
  {
    assert ex'.state.Keys == Elements(ex'.order) == ex.state.Keys;
  }

  /** The recursion's equation has one solution, and the recursion computes it along any dependencies-first listing. */
  lemma {:induction false} SolutionIsRecursion(ex: Execution, own: set<Name>, st: States, order: seq<Name>, k: nat)
    requires Rows(ex) && Solves(ex, own, st) && DependenciesFirst(ex.graph, order) && k <= |order|
    ensures Succeeding(ex.graph, own, order[..k]) == set n | n in order[..k] && n in st && st[n] == Success
  {
    if k > 0 {
      var n, front := order[k - 1], order[..k - 1];
      assert order[..k] == front + [n] && order[..k][..k - 1] == front;
      SolutionIsRecursion(ex, own, st, order, k - 1);
      assert n in ex.graph && n in st;
      forall d | d in ex.graph[n] ensures d in front {}
      hide Rows, AllEnded;
    }
  }

  /** Every complete run without operators ends where the recursion over the graph says, whatever the interleaving of
      workers, crashes and redeliveries; and the execution fails exactly if some task does. */
  lemma RunEndsAsRecursion(c: Settings, ex: Execution, t0: Time, states: seq<Sys>, steps: seq<Step>, h: Script,
                           last: Sys, order: seq<Name>)
    requires EndsWith(c, ex, t0, states, steps, h, last) && DependenciesFirst(ex.graph, order) && Lists(ex.graph, order)
    ensures last.db.ex.state == EndStates(ex.graph, Capable(ex.config, last.lost, h), order)
    ensures last.db.ex.status == if Any(last.db.ex.state, Failure) then StatusFailed else StatusSuccess
  {
    LastSolves(c, ex, t0, states, steps, h, last);
    LastStatus(c, ex, t0, states, steps, h, last);
    hide EndsWith, Inv, Capable, Any;
    RecursionSolves(ex, Capable(ex.config, last.lost, h), last.db.ex.state, order);
  }

  lemma RecursionSolves(ex: Execution, own: set<Name>, st: States, order: seq<Name>)
    requires Rows(ex) && Solves(ex, own, st) && DependenciesFirst(ex.graph, order) && Lists(ex.graph, order)
    requires forall n :: n in st ==> st[n] == Success || st[n] == Failure
    ensures st == EndStates(ex.graph, own, order)
  {
    assert st.Keys == ex.graph.Keys;
    assert order[..|order|] == order;
    hide Solves, Rows, Succeeding, DependenciesFirst, EndStates;
    SolutionIsRecursion(ex, own, st, order, |order|);
    StatesFromSuccesses(ex.graph, own, st, order);
  }

  lemma StatesFromSuccesses(g: Graph, own: set<Name>, st: States, order: seq<Name>)
    requires st.Keys == g.Keys && Lists(g, order) && forall n :: n in st ==> st[n] == Success || st[n] == Failure
    requires Succeeding(g, own, order) == set n | n in order && n in st && st[n] == Success
    ensures st == EndStates(g, own, order)
  {
    hide Succeeding;
  }

  lemma LastStatus(c: Settings, ex: Execution, t0: Time, states: seq<Sys>, steps: seq<Step>, h: Script, last: Sys)
    requires EndsWith(c, ex, t0, states, steps, h, last)
    ensures last.db.ex.status == if Any(last.db.ex.state, Failure) then StatusFailed else StatusSuccess
  {
    NoCancelNoSweeps(c, ex, t0, states, steps);
    RunAgrees(c, ex, t0, states, steps, |steps|);
    RunCore(c, ex, t0, states, steps, |steps|);
    UncancelledRun(c, ex, t0, states, steps, |steps|);
    hide IsRun, Core, AllEnded, RunFollows, Unattended;
    OrderMeansStates(c, last);
    EndedMeansTerminal(last.db.ex.state);
    hide Any;
  }

  lemma NoCancelNoSweeps(c: Settings, ex: Execution, t0: Time, states: seq<Sys>, steps: seq<Step>)
    requires IsRun(c, ex, t0, states, steps) && NoCancel(steps)
    ensures NoSweeps(states, steps, |steps|)
  {
    forall m | 0 <= m < |steps| ensures !Sweeps(states[m], steps[m]) {
      UncancelledRun(c, ex, t0, states, steps, m);
    }
  }

  /** Two complete runs in which the same tasks lost their workers for good end alike. */
  lemma ScheduleIndependence(c: Settings, ex: Execution, h: Script,
                             t0: Time, states: seq<Sys>, steps: seq<Step>, last: Sys,
                             c': Settings, t0': Time, states': seq<Sys>, steps': seq<Step>, last': Sys)
    requires EndsWith(c, ex, t0, states, steps, h, last) && EndsWith(c', ex, t0', states', steps', h, last')
    requires last.lost == last'.lost
    ensures last.db.ex.state == last'.db.ex.state && last.db.ex.status == last'.db.ex.status
  {
    FreshGraph(c, ex, t0, states, steps);
    var order := AcyclicMeansListing(ex.graph);
    hide EndsWith, DependenciesFirst, Lists, EndStates, Capable, Any;
    RunEndsAsRecursion(c, ex, t0, states, steps, h, last, order);
    RunEndsAsRecursion(c', ex, t0', states', steps', h, last', order);
  }

  lemma FreshGraph(c: Settings, ex: Execution, t0: Time, states: seq<Sys>, steps: seq<Step>)
    requires IsRun(c, ex, t0, states, steps)
    ensures Known(ex.graph) && Acyclic(ex.graph)
  {
  }
}
