/** The engine under a clock. Workers and reapers only follow their settings here. The watchdog's query for hung tasks
    and the handling of its result are separate moves, as they are separate transactions: nothing is assumed about what
    has become of a listed task by the time it is struck. Here is what every such run keeps; `EngineStrikes` says when
    it is a run of the engine. */
module EngineTiming {
  import opened Dag
  import opened Q = QueueRecords
  import opened E = ExecutionState
  import opened Engine
  import opened EngineCore
  import opened EngineMeasure
  import opened EngineStarts
  import opened QueueTrace
  import T = Timing

  /** The engine's state, the last lease each live worker computed, the task rows' heartbeats, and the tasks the
      watchdog's query has returned so far. */
  datatype Timed = Timed(s: Sys, held: map<JobId, T.Hold>, beats: map<Name, T.Beat>, listed: set<Name>, clock: Time)

  /** Time passes until `at`. Then a step is taken, where a started handler runs under the configured timeout, or the
      watchdog queries for hung tasks. */
  datatype Move =
    | Acts(step: Step, at: Time, configured: real)
    | Lists(now: Time, at: Time)

  function Queue(t: Timed): T.Clocked { T.Clocked(t.s.db.jobs, t.held, t.clock) }

  function Watched(t: Timed): T.Watch { T.Watch(t.beats, t.clock) }

  // ---- what a clocked move demands ----

  /** The query of `_reap_hung_tasks`: running, with a heartbeat that is too old. */
  function Hanging(l: T.Limits, t: Timed, now: Time): set<Name> {
    set n | n in t.beats && n in t.s.db.ex.state && t.s.db.ex.state[n] == Running && T.Hung(l, t.beats[n], now)
  }

  /** The lease reaper takes whatever its query returns, the hung-task reaper strikes any task it has ever listed; the
      other steps are the engine's, with readings not too old. */
  ghost predicate CanTake(l: T.Limits, overhead: real, t: Timed, m: Move)
    requires Rows(t.s.db.ex)
  {
    match m
    case Lists(now, at) => now <= at
    case Acts(ReapLeases(now), at, _) => now <= at
    case Acts(ReapHung(n, now), at, _) => n in t.listed && now <= at
    case Acts(Claim(_, _, now), at, _) => Enabled(t.s, m.step) && T.Reading(l, at, now)
    case Acts(Renew(j, worker, now), at, _) =>
      && Enabled(t.s, m.step) && j in t.held && t.held[j].worker == worker
      && t.held[j].read <= now && T.Reading(l, at, now)
    case Acts(Start(j, now), at, configured) =>
      Enabled(t.s, m.step) && (Starts(t.s.db, j) ==> 0.0 <= configured && now <= at <= now + overhead)
    case Acts(_, _, _) => Enabled(t.s, m.step)
  }

  /** Renewals and handlers are on time up to `at`. */
  ghost predicate Possible(l: T.Limits, overhead: real, t: Timed, m: Move) {
    && Rows(t.s.db.ex) && t.s.starts.Keys == t.s.db.ex.state.Keys
    && t.clock <= m.at && T.OnTime(l, t.held, m.at) && T.InTime(t.beats, overhead, m.at)
    && CanTake(l, overhead, t, m)
  }

  ghost function SysAfter(c: Settings, l: T.Limits, overhead: real, t: Timed, m: Move): Sys
    requires Possible(l, overhead, t, m)
  {
    match m
    case Lists(_, _) => t.s
    case Acts(ReapLeases(now), _, _) => AfterReapLeases(t.s, now)
    case Acts(ReapHung(n, now), _, _) => LoseTask(t.s, n, now)
    case Acts(step, _, _) => Apply(c, t.s, step)
  }

  predicate Begins(s: Sys, step: Step) { step.Start? && OwnJob(s.db, step.j) && Starts(s.db, step.j) }

  /** The worker at job `j` is done with it. */
  predicate Parts(s: Sys, step: Step) {
    step.Finish? || step.Interrupt? || step.Crash? || (step.Start? && !Begins(s, step))
  }

  function HeldAfter(t: Timed, m: Move): map<JobId, T.Hold> {
    match m
    case Lists(_, _) => t.held
    case Acts(Claim(j, worker, now), _, _) => t.held[j := T.Hold(worker, now)]
    case Acts(Renew(j, _, now), _, _) => if j in t.held then t.held[j := t.held[j].(read := now)] else t.held
    case Acts(step, _, _) => if Parts(t.s, step) then t.held - {step.j} else t.held
  }

  function BeatsAfter(l: T.Limits, t: Timed, m: Move): map<Name, T.Beat> {
    match m
    case Acts(Start(j, now), _, configured) =>
      if Begins(t.s, m.step) then T.Begun(l, t.beats, t.s.db.jobs[j].task, now, configured) else t.beats
    case Acts(Finish(j, _, _), _, _) => if j < |t.s.db.jobs| then t.beats - {t.s.db.jobs[j].task} else t.beats
    case Acts(Interrupt(j, _), _, _) => if j < |t.s.db.jobs| then t.beats - {t.s.db.jobs[j].task} else t.beats
    case Acts(Crash(j), _, _) => if IsInside(t.s, j) then T.Perished(t.beats, t.s.db.jobs[j].task) else t.beats
    case _ => t.beats
  }

  function ListedAfter(l: T.Limits, t: Timed, m: Move): set<Name> {
    if m.Lists? then t.listed + Hanging(l, t, m.now) else t.listed
  }

  ghost predicate Taken(c: Settings, l: T.Limits, overhead: real, t: Timed, m: Move, t': Timed) {
    && Possible(l, overhead, t, m)
    && t' == Timed(SysAfter(c, l, overhead, t, m), HeldAfter(t, m), BeatsAfter(l, t, m), ListedAfter(l, t, m), m.at)
  }

  /** Permitted settings, under which the overhead around a handler stays within two heartbeats. */
  predicate Allowed(c: Settings, l: T.Limits, overhead: real) {
    && c.maxAttempts >= 1 && c.leaseSeconds == T.Lease(l)
    && T.Permitted(l) && overhead <= 2.0 * l.heartbeatSeconds as real
  }

  function Outset(c: Settings, ex: Execution, t0: Time): Timed
    requires Rows(ex)
  {
    Timed(Spawned(c, ex, t0), map[], map[], {}, t0)
  }

  ghost predicate TimedRun(c: Settings, l: T.Limits, overhead: real, ex: Execution, t0: Time, states: seq<Timed>,
                           moves: seq<Move>) {
    && Rows(ex) && Fresh(ex) && Allowed(c, l, overhead)
    && |states| == |moves| + 1 && states[0] == Outset(c, ex, t0)
    && forall i :: 0 <= i < |moves| ==> Taken(c, l, overhead, states[i], moves[i], states[i + 1])
  }

  // ---- what every clocked state keeps ----

  predicate EverBegun(s: Sys, n: Name) { n in s.starts && s.starts[n] > 0 }

  /** What holds whomever the watchdog strikes. */
  ghost predicate InTrim(l: T.Limits, overhead: real, t: Timed) {
    && t.held.Keys == t.s.runs.Keys && T.AllSecure(l, Queue(t)) && T.Punctual(l, overhead, Watched(t))
    && (forall n :: n in t.beats.Keys + t.listed ==> EverBegun(t.s, n))
  }

  /** The lease reaper leaves live workers alone. */
  lemma LeasesHold(l: T.Limits, t: Timed, at: Time, now: Time)
    requires T.Permitted(l) && T.AllSecure(l, Queue(t)) && t.held.Keys == t.s.runs.Keys
    requires T.OnTime(l, t.held, at) && now <= at
    ensures FailStop(t.s, now)
  {
    T.WaitKeepsSecure(l, Queue(t), at);
    hide T.OnTime, RecordsOk;
    forall j | j in t.s.runs ensures j < |t.s.db.jobs| ==> !Expired(t.s.db.jobs[j], now) {
      assert j in t.s.runs.Keys && j in t.held;
      T.SecureNotExpired(l, Queue(t).(clock := at), j, now);
    }
  }

  /** Strikes apart, every move of an on-time run is one the engine permits. A strike is if and only if it meets nobody
      inside. */
  lemma GuardsHold(c: Settings, l: T.Limits, overhead: real, t: Timed, m: Move)
    requires T.Permitted(l) && InTrim(l, overhead, t) && Possible(l, overhead, t, m) && m.Acts?
    ensures !m.step.ReapHung? ==> Enabled(t.s, m.step)
    ensures m.step.ReapHung? ==> (Enabled(t.s, m.step) <==> m.step.n !in InsideTasks(t.s.db.jobs, t.s.runs))
    ensures Enabled(t.s, m.step) ==> SysAfter(c, l, overhead, t, m) == Apply(c, t.s, m.step)
  {
    hide T.AllSecure, T.Punctual, T.OnTime, T.InTime, T.Hung, FailStop, InsideTasks, Rows;
    match m.step
    case ReapLeases(now) => LeasesHold(l, t, m.at, now);
    case ReapHung(n, now) => assert n in t.beats.Keys + t.listed;
    case _ =>
  }

  // ---- each step is one transaction on the queue ----

  lemma FreshMeansNew(added: Jobs, maxAttempts: nat)
    requires FreshJobs(added, maxAttempts) && maxAttempts >= 1
    ensures T.FreshRows(added)
  {
  }

  /** Whatever the task's state: finishing acknowledges the job and inserts fresh rows. */
  lemma FinishInserts(db: Db, j: JobId, ok: bool, now: Time, maxAttempts: nat) returns (added: Jobs)
    requires Rows(db.ex) && OwnJob(db, j)
    ensures FreshJobs(added, maxAttempts)
      && E.Finish(db, j, ok, now, maxAttempts).jobs == Acknowledge(db.jobs, j, now) + added
  {
    var ex, n := db.ex, db.jobs[j].task;
    assert n in ex.config && n in ex.retries;
    FinishParts(db, j, ok, now, maxAttempts);
    hide Rows, Complete, E.Retry, E.Exhaust, Succeeds, Acknowledge, E.Finish, FreshJobs, FinishStopped;
    if Succeeds(ex, n, ok) && ex.cancellationRequested {
      added := StopInserts(db, j, now, maxAttempts);
    } else if Succeeds(ex, n, ok) || ex.config[n].allowFailure {
      added := CompleteInserts(db, j, now, maxAttempts);
    } else if ex.retries[n] + 1 <= ex.config[n].maxRetries {
      added := RetryAdds(db, j, now, maxAttempts);
    } else {
      added := [];
      ExhaustAdds(db, j, now, maxAttempts);
    }
  }

  lemma FinishParts(db: Db, j: JobId, ok: bool, now: Time, maxAttempts: nat)
    requires Rows(db.ex) && OwnJob(db, j)
    ensures var ex, n := db.ex, db.jobs[j].task;
      E.Finish(db, j, ok, now, maxAttempts) ==
        if Succeeds(ex, n, ok) && ex.cancellationRequested then FinishStopped(db, j, now)
        else if Succeeds(ex, n, ok) || ex.config[n].allowFailure then Complete(db, j, now, maxAttempts)
        else if ex.retries[n] + 1 <= ex.config[n].maxRetries then E.Retry(db, j, now, maxAttempts)
        else E.Exhaust(db, j, now)
  {
    hide Rows, Complete, E.Retry, E.Exhaust, Succeeds, FinishStopped;
  }

  lemma StopInserts(db: Db, j: JobId, now: Time, maxAttempts: nat) returns (added: Jobs)
    requires Rows(db.ex) && OwnJob(db, j)
    ensures added == [] && FreshJobs(added, maxAttempts)
      && FinishStopped(db, j, now).jobs == Acknowledge(db.jobs, j, now) + added
  {
    hide Rows, Acknowledge, Refresh;
    added := [];
  }

  lemma CompleteInserts(db: Db, j: JobId, now: Time, maxAttempts: nat) returns (added: Jobs)
    requires Rows(db.ex) && OwnJob(db, j)
    ensures FreshJobs(added, maxAttempts)
      && Complete(db, j, now, maxAttempts).jobs == Acknowledge(db.jobs, j, now) + added
  {
    if db.ex.cancellationRequested {
      SetStateRows(db.ex, db.jobs[j].task, Success);
      hide Rows, Acknowledge, Refresh, StopLive;
      added := [];
    } else {
      added := CompleteAdds(db, j, now, maxAttempts);
    }
  }

  lemma SkipInserts(db: Db, n: Name, now: Time, maxAttempts: nat) returns (added: Jobs)
    requires Rows(db.ex) && MaySkip(db.ex, n)
    ensures FreshJobs(added, maxAttempts)
    ensures SkipTask(db, n, now, maxAttempts).jobs == CancelTaskJobs(db.jobs, db.ex.id, n, now) + added
  {
    if db.ex.cancellationRequested {
      SetStateRows(db.ex, n, Skipped);
      hide Rows, CancelTaskJobs, Refresh, StopLive;
      added := [];
    } else {
      added := SkipTasks(maxAttempts, db, n, now);
    }
  }

  /** Every move is one transaction of the clocked queue. */
  lemma StepActs(c: Settings, l: T.Limits, overhead: real, t: Timed, m: Move, t': Timed) returns (act: T.Act)
    requires Taken(c, l, overhead, t, m, t') && c.maxAttempts >= 1 && c.leaseSeconds == T.Lease(l)
    requires t.held.Keys == t.s.runs.Keys && (forall j :: j in t.held ==> j < |t.s.db.jobs|)
    requires m.Acts? && !m.step.ReapHung? ==> Enabled(t.s, m.step)
    ensures T.Ticks(l, Queue(t), T.Tick(m.at, act), Queue(t'))
  {
    if m.Lists? || m.step.ReapHung? {
      hide *;
      act := RestingActs(c, l, overhead, t, m, t');
    } else {
      hide *;
      act := WorkingActs(c, l, overhead, t, m, t');
    }
  }

  lemma RestingActs(c: Settings, l: T.Limits, overhead: real, t: Timed, m: Move, t': Timed) returns (act: T.Act)
    requires Taken(c, l, overhead, t, m, t') && (m.Lists? || m.step.ReapHung?)
    ensures T.Ticks(l, Queue(t), T.Tick(m.at, act), Queue(t'))
  {
    hide Rows, T.OnTime, T.InTime, HandleDeadLetter;
    act := T.Rests;
  }

  lemma WorkingActs(c: Settings, l: T.Limits, overhead: real, t: Timed, m: Move, t': Timed) returns (act: T.Act)
    requires Taken(c, l, overhead, t, m, t') && m.Acts? && !m.step.ReapHung? && Enabled(t.s, m.step)
    requires c.maxAttempts >= 1 && c.leaseSeconds == T.Lease(l)
    requires t.held.Keys == t.s.runs.Keys && (forall j :: j in t.held ==> j < |t.s.db.jobs|)
    ensures T.Ticks(l, Queue(t), T.Tick(m.at, act), Queue(t'))
  {
    hide *;
    match m.step
    case Start(_, _) => act := StartingActs(c, l, overhead, t, m, t');
    case Finish(_, _, _) => act := FinishingActs(c, l, overhead, t, m, t');
    case Interrupt(_, _) => act := InterruptActs(c, l, overhead, t, m, t');
    case Skip(_, _) => act := SkipActs(c, l, overhead, t, m, t');
    case Cancel(_) => act := CancelActs(c, l, overhead, t, m, t');
    case _ => act := PlainActs(c, l, overhead, t, m, t');
  }

  lemma StartingActs(c: Settings, l: T.Limits, overhead: real, t: Timed, m: Move, t': Timed) returns (act: T.Act)
    requires Taken(c, l, overhead, t, m, t') && m.Acts? && m.step.Start?
    requires Enabled(t.s, m.step) && t.held.Keys == t.s.runs.Keys
    ensures T.Ticks(l, Queue(t), T.Tick(m.at, act), Queue(t'))
  {
    hide Rows, StatusOf, T.OnTime, T.InTime, StepFrame, Refresh, Acknowledge;
    var j, now := m.step.j, m.step.now;
    assert j in t.held.Keys;
    act := if Begins(t.s, m.step) then T.Rests else T.Finishes(j, now, []);
  }

  lemma FinishingActs(c: Settings, l: T.Limits, overhead: real, t: Timed, m: Move, t': Timed) returns (act: T.Act)
    requires Taken(c, l, overhead, t, m, t') && m.Acts? && m.step.Finish?
    requires Enabled(t.s, m.step) && t.held.Keys == t.s.runs.Keys
    requires c.maxAttempts >= 1
    ensures T.Ticks(l, Queue(t), T.Tick(m.at, act), Queue(t'))
  {
    hide Rows, T.OnTime, T.InTime, StepFrame, E.Finish, Acknowledge, FreshJobs, T.FreshRows;
    var j, now := m.step.j, m.step.now;
    assert j in t.held.Keys;
    var added := FinishInserts(t.s.db, j, m.step.ok, now, c.maxAttempts);
    FreshMeansNew(added, c.maxAttempts);
    act := T.Finishes(j, now, added);
  }

  lemma InterruptActs(c: Settings, l: T.Limits, overhead: real, t: Timed, m: Move, t': Timed) returns (act: T.Act)
    requires Taken(c, l, overhead, t, m, t') && m.Acts? && Enabled(t.s, m.step) && t.held.Keys == t.s.runs.Keys
      && m.step.Interrupt?
    ensures T.Ticks(l, Queue(t), T.Tick(m.at, act), Queue(t'))
  {
    hide Rows, T.OnTime, T.InTime, StepFrame, FinishStopped, Acknowledge;
    var j, now := m.step.j, m.step.now;
    assert j in t.held.Keys;
    var added := StopInserts(t.s.db, j, now, 1);
    act := T.Finishes(j, now, []);
  }

  lemma SkipActs(c: Settings, l: T.Limits, overhead: real, t: Timed, m: Move, t': Timed) returns (act: T.Act)
    requires Taken(c, l, overhead, t, m, t') && m.Acts? && Enabled(t.s, m.step) && m.step.Skip? && c.maxAttempts >= 1
    ensures T.Ticks(l, Queue(t), T.Tick(m.at, act), Queue(t'))
  {
    hide Rows, T.OnTime, T.InTime, StepFrame, SkipTask, CancelTaskJobs, FreshJobs, T.FreshRows;
    var added := SkipInserts(t.s.db, m.step.n, m.step.now, c.maxAttempts);
    FreshMeansNew(added, c.maxAttempts);
    act := T.Withdraws(t.s.db.ex.id, m.step.n, m.step.now, added);
  }

  lemma CancelActs(c: Settings, l: T.Limits, overhead: real, t: Timed, m: Move, t': Timed) returns (act: T.Act)
    requires Taken(c, l, overhead, t, m, t') && m.Acts? && m.step.Cancel?
    ensures T.Ticks(l, Queue(t), T.Tick(m.at, act), Queue(t'))
  {
    hide Rows, T.OnTime, T.InTime, StepFrame, Refresh, CancelExecutionJobs;
    act := if Terminal(t.s.db.ex.status) then T.Rests else T.Cancels(t.s.db.ex.id, m.step.now);
  }

  lemma PlainActs(c: Settings, l: T.Limits, overhead: real, t: Timed, m: Move, t': Timed) returns (act: T.Act)
    requires Taken(c, l, overhead, t, m, t') && m.Acts? && Enabled(t.s, m.step) && c.leaseSeconds == T.Lease(l)
    requires t.held.Keys == t.s.runs.Keys && (forall j :: j in t.held ==> j < |t.s.db.jobs|)
    requires !m.step.Start? && !m.step.Finish? && !m.step.Interrupt? && !m.step.Skip? && !m.step.Cancel?
      && !m.step.ReapHung?
    ensures T.Ticks(l, Queue(t), T.Tick(m.at, act), Queue(t'))
  {
    hide Rows, T.OnTime, T.InTime, StepFrame, Refresh, HandleDeadLetter, RequeueStale, DeadLetters, T.Hung;
    match m.step
    case Claim(j, worker, now) => act := T.Claims(j, worker, now);
    case Renew(j, worker, now) => act := T.Renews(j, now);
    case Crash(j) => assert j in t.held.Keys; act := T.Dies(j);
    case ReapLeases(now) => act := T.Reaps(now);
    case _ => act := T.Rests;
  }

  // ---- each step is one moment of the watchdog ----

  lemma StepHappens(c: Settings, l: T.Limits, overhead: real, t: Timed, m: Move, t': Timed) returns (what: T.Happening)
    requires Taken(c, l, overhead, t, m, t')
    ensures T.Happens(l, overhead, Watched(t), T.Moment(m.at, what), Watched(t'))
  {
    hide Rows, T.OnTime, T.InTime, T.Begun, T.Perished, Apply, LoseTask;
    match m
    case Acts(Start(j, now), _, configured) =>
      what := if Begins(t.s, m.step) then T.Begins(t.s.db.jobs[j].task, now, configured) else T.Nothing;
    case Acts(Finish(j, _, _), _, _) => what := T.Leaves(t.s.db.jobs[j].task);
    case Acts(Interrupt(j, _), _, _) => what := T.Leaves(t.s.db.jobs[j].task);
    case Acts(Crash(j), _, _) => what := if IsInside(t.s, j) then T.Perishes(t.s.db.jobs[j].task) else T.Nothing;
    case _ => what := T.Nothing;
  }

  // ---- every clocked state is in trim ----

  lemma HeldMatches(c: Settings, l: T.Limits, overhead: real, t: Timed, m: Move, t': Timed)
    requires Taken(c, l, overhead, t, m, t') && t.held.Keys == t.s.runs.Keys
    requires m.Acts? && !m.step.ReapHung? ==> Enabled(t.s, m.step)
    ensures t'.held.Keys == t'.s.runs.Keys
  {
    hide Rows, T.OnTime, T.InTime, StepFrame, E.Start, E.Finish, FinishStopped, HandleDeadLetter, SkipTask,
      CancelExecution, Hanging;
  }

  /** Starts are only ever added, and whoever begins adds one. */
  lemma StartsAdd(c: Settings, l: T.Limits, overhead: real, t: Timed, m: Move, t': Timed)
    requires Taken(c, l, overhead, t, m, t')
    requires m.Acts? && !m.step.ReapHung? ==> Enabled(t.s, m.step)
    ensures forall n :: EverBegun(t.s, n) ==> EverBegun(t'.s, n)
    ensures m.Acts? && Begins(t.s, m.step) ==> EverBegun(t'.s, t.s.db.jobs[m.step.j].task)
  {
    hide Rows, T.OnTime, T.InTime, StepFrame, E.Start, E.Finish, FinishStopped, HandleDeadLetter, SkipTask,
      CancelExecution, Hanging, HeldAfter, BeatsAfter;
  }

  /** Heartbeats belong to tasks that had them or have just begun, and only they are listed. */
  lemma MarksAfter(l: T.Limits, t: Timed, m: Move)
    ensures BeatsAfter(l, t, m).Keys + ListedAfter(l, t, m) <= t.beats.Keys + t.listed
      + if m.Acts? && Begins(t.s, m.step) then {t.s.db.jobs[m.step.j].task} else {}
  {
    hide T.Hung, Starts;
  }

  lemma MarksBegun(c: Settings, l: T.Limits, overhead: real, t: Timed, m: Move, t': Timed)
    requires Taken(c, l, overhead, t, m, t') && (forall n :: n in t.beats.Keys + t.listed ==> EverBegun(t.s, n))
    requires m.Acts? && !m.step.ReapHung? ==> Enabled(t.s, m.step)
    ensures forall n :: n in t'.beats.Keys + t'.listed ==> EverBegun(t'.s, n)
  {
    StartsAdd(c, l, overhead, t, m, t');
    MarksAfter(l, t, m);
    hide SysAfter, Possible, BeatsAfter, ListedAfter, HeldAfter, EverBegun, Begins;
  }

  lemma HeldInTable(l: T.Limits, t: Timed)
    requires T.AllSecure(l, Queue(t))
    ensures forall j :: j in t.held ==> j < |t.s.db.jobs|
  {
    hide RecordsOk;
    forall j | j in t.held ensures j < |t.s.db.jobs| { assert T.Secure(l, Queue(t), j); }
  }

  /** One on-time move keeps the queue and the heartbeats in trim, and is a step of the clocked queue and of the
      watch. */
  lemma TakenKeepsTrim(c: Settings, l: T.Limits, overhead: real, t: Timed, m: Move, t': Timed)
    returns (act: T.Act, what: T.Happening)
    requires Allowed(c, l, overhead) && InTrim(l, overhead, t) && Taken(c, l, overhead, t, m, t')
    ensures InTrim(l, overhead, t')
    ensures T.Ticks(l, Queue(t), T.Tick(m.at, act), Queue(t'))
    ensures T.Happens(l, overhead, Watched(t), T.Moment(m.at, what), Watched(t'))
  {
    assert Possible(l, overhead, t, m);
    HeldInTable(l, t);
    hide T.AllSecure, T.Punctual, Taken, Enabled, T.Ticks, T.Happens, SysAfter, Possible, EverBegun, T.Permitted;
    if m.Acts? { GuardsHold(c, l, overhead, t, m); }
    act := StepActs(c, l, overhead, t, m, t');
    what := StepHappens(c, l, overhead, t, m, t');
    T.TickKeepsSecure(l, Queue(t), T.Tick(m.at, act), Queue(t'));
    T.MomentKeepsPunctual(l, overhead, Watched(t), T.Moment(m.at, what), Watched(t'));
    HeldMatches(c, l, overhead, t, m, t');
    MarksBegun(c, l, overhead, t, m, t');
  }

  // ---- whole runs ----

  lemma SpawnedRecords(c: Settings, ex: Execution, t0: Time)
    requires Rows(ex) && Fresh(ex) && c.maxAttempts >= 1
    ensures RecordsOk(Spawned(c, ex, t0).db.jobs)
  {
    assert !ex.cancellationRequested;
    hide Fresh, Rows, EnqueueReady, RecordsOk, FreshJobs, TaskTotal, JobCost;
    var added := ReadyPays(Db(ex, []), t0, c.maxAttempts);
    FreshMeansNew(added, c.maxAttempts);
    T.AppendKeepsRecords([], added);
    assert [] + added == added;
    EmptyRecords();
  }

  lemma EmptyRecords()
    ensures RecordsOk([])
  {
  }

  lemma StartInTrim(c: Settings, l: T.Limits, overhead: real, ex: Execution, t0: Time)
    requires c.maxAttempts >= 1 && Rows(ex) && Fresh(ex)
    ensures InTrim(l, overhead, Outset(c, ex, t0))
  {
    SpawnedRecords(c, ex, t0);
    hide Fresh, Rows, RecordsOk, EnqueueReady;
  }

  lemma {:induction false} TimedRunInTrim(c: Settings, l: T.Limits, overhead: real, ex: Execution, t0: Time,
                                          states: seq<Timed>, moves: seq<Move>, i: nat)
    requires TimedRun(c, l, overhead, ex, t0, states, moves) && i < |states|
    ensures InTrim(l, overhead, states[i])
  {
    hide InTrim, Taken, Fresh, Rows, Outset;
    if i == 0 {
      StartInTrim(c, l, overhead, ex, t0);
    } else {
      TimedRunInTrim(c, l, overhead, ex, t0, states, moves, i - 1);
      assert Taken(c, l, overhead, states[i - 1], moves[i - 1], states[i]);
      var act, what := TakenKeepsTrim(c, l, overhead, states[i - 1], moves[i - 1], states[i]);
    }
  }

  /** As long as renewals and handlers are on time, whatever else happens: whenever the lease reaper comes by, no live
      worker's lease has expired. */
  lemma OnTimeIsFailStop(c: Settings, l: T.Limits, overhead: real, ex: Execution, t0: Time, states: seq<Timed>,
                         moves: seq<Move>, i: nat)
    requires TimedRun(c, l, overhead, ex, t0, states, moves) && i < |moves| && moves[i].Acts?
      && moves[i].step.ReapLeases?
    ensures FailStop(states[i].s, moves[i].step.now)
  {
    TimedRunInTrim(c, l, overhead, ex, t0, states, moves, i);
    assert Taken(c, l, overhead, states[i], moves[i], states[i + 1]);
    hide Fresh, Rows, Outset, FailStop, T.OnTime, T.AllSecure, T.Punctual;
    LeasesHold(l, states[i], moves[i].at, moves[i].step.now);
  }

  function QueuesOf(states: seq<Timed>): seq<T.Clocked> {
    seq(|states|, i requires 0 <= i < |states| => Queue(states[i]))
  }

  function WatchesOf(states: seq<Timed>): seq<T.Watch> {
    seq(|states|, i requires 0 <= i < |states| => Watched(states[i]))
  }

  /** The queue and the rows alone, up to the `n`-th move. */
  ghost predicate Projects(l: T.Limits, overhead: real, states: seq<Timed>, n: nat, ticks: seq<T.Tick>,
                           moments: seq<T.Moment>)
    requires n < |states|
  {
    && |ticks| == |moments| == n
    && T.ClockedRun(l, QueuesOf(states[..n + 1]), ticks) && T.WatchRun(l, overhead, WatchesOf(states[..n + 1]), moments)
  }

  /** Its queue and its rows, seen alone, are runs of the clocked queue and of the watch, step by step. */
  lemma {:induction false} OnTimeRunProjects(c: Settings, l: T.Limits, overhead: real, ex: Execution, t0: Time,
                                             states: seq<Timed>, moves: seq<Move>, n: nat)
    returns (ticks: seq<T.Tick>, moments: seq<T.Moment>)
    requires |states| == |moves| + 1 && TimedRun(c, l, overhead, ex, t0, states, moves) && n <= |moves|
    ensures Projects(l, overhead, states, n, ticks, moments)
  {
    hide *;
    if n == 0 {
      ticks, moments := [], [];
      ProjectionStarts(c, l, overhead, ex, t0, states, moves);
    } else {
      var before, earlier := OnTimeRunProjects(c, l, overhead, ex, t0, states, moves, n - 1);
      var act, what := ProjectedStep(c, l, overhead, ex, t0, states, moves, n - 1);
      var tick, moment := T.Tick(moves[n - 1].at, act), T.Moment(moves[n - 1].at, what);
      BothExtend(l, overhead, states, n - 1, before, earlier, tick, moment);
      ticks, moments := before + [tick], earlier + [moment];
    }
  }

  lemma BothExtend(l: T.Limits, overhead: real, states: seq<Timed>, n: nat, ticks: seq<T.Tick>, moments: seq<T.Moment>,
                   tick: T.Tick, moment: T.Moment)
    requires n + 1 < |states| && Projects(l, overhead, states, n, ticks, moments)
    requires T.Ticks(l, Queue(states[n]), tick, Queue(states[n + 1]))
    requires T.Happens(l, overhead, Watched(states[n]), moment, Watched(states[n + 1]))
    ensures Projects(l, overhead, states, n + 1, ticks + [tick], moments + [moment])
  {
    hide T.ClockedRun, T.WatchRun, T.Ticks, T.Happens, QueuesOf, WatchesOf, Queue, Watched;
    var prefix := states[..n + 1];
    assert prefix[|prefix| - 1] == states[n];
    QueueExtends(l, prefix, states[n + 1], ticks, tick);
    WatchExtends(l, overhead, prefix, states[n + 1], moments, moment);
    assert prefix + [states[n + 1]] == states[..n + 2];
  }

  lemma ProjectedStep(c: Settings, l: T.Limits, overhead: real, ex: Execution, t0: Time, states: seq<Timed>,
                      moves: seq<Move>, i: nat)
    returns (act: T.Act, what: T.Happening)
    requires TimedRun(c, l, overhead, ex, t0, states, moves) && i < |moves|
    ensures T.Ticks(l, Queue(states[i]), T.Tick(moves[i].at, act), Queue(states[i + 1]))
    ensures T.Happens(l, overhead, Watched(states[i]), T.Moment(moves[i].at, what), Watched(states[i + 1]))
  {
    hide InTrim, Taken, Fresh, Rows, Outset, T.Ticks, T.Happens;
    TimedRunInTrim(c, l, overhead, ex, t0, states, moves, i);
    assert Taken(c, l, overhead, states[i], moves[i], states[i + 1]);
    act, what := TakenKeepsTrim(c, l, overhead, states[i], moves[i], states[i + 1]);
  }

  lemma ProjectionStarts(c: Settings, l: T.Limits, overhead: real, ex: Execution, t0: Time, states: seq<Timed>,
                         moves: seq<Move>)
    requires TimedRun(c, l, overhead, ex, t0, states, moves)
    ensures |states| > 0 && Projects(l, overhead, states, 0, [], [])
  {
    hide Rows, Fresh, Taken, RecordsOk, EnqueueReady;
    assert states[..1] == [states[0]];
    SpawnedRecords(c, ex, t0);
  }

  lemma QueueExtends(l: T.Limits, states: seq<Timed>, t': Timed, ticks: seq<T.Tick>, tick: T.Tick)
    requires states != [] && T.ClockedRun(l, QueuesOf(states), ticks)
      && T.Ticks(l, Queue(states[|states| - 1]), tick, Queue(t'))
    ensures T.ClockedRun(l, QueuesOf(states + [t']), ticks + [tick])
  {
    hide T.Ticks, Queue, RecordsOk;
    var q, q', all := QueuesOf(states), QueuesOf(states + [t']), ticks + [tick];
    assert forall i :: 0 <= i < |states| ==> q'[i] == q[i];
    forall i | 0 <= i < |all| ensures T.Ticks(l, q'[i], all[i], q'[i + 1]) {
      if i < |ticks| { assert T.Ticks(l, q[i], ticks[i], q[i + 1]); }
    }
  }

  lemma WatchExtends(l: T.Limits, overhead: real, states: seq<Timed>, t': Timed, moments: seq<T.Moment>,
                     moment: T.Moment)
    requires states != [] && T.WatchRun(l, overhead, WatchesOf(states), moments)
    requires T.Happens(l, overhead, Watched(states[|states| - 1]), moment, Watched(t'))
    ensures T.WatchRun(l, overhead, WatchesOf(states + [t']), moments + [moment])
  {
    hide T.Happens, Watched;
    var q, q', all := WatchesOf(states), WatchesOf(states + [t']), moments + [moment];
    assert forall i :: 0 <= i < |states| ==> q'[i] == q[i];
    forall i | 0 <= i < |all| ensures T.Happens(l, overhead, q'[i], all[i], q'[i + 1]) {
      if i < |moments| { assert T.Happens(l, overhead, q[i], moments[i], q[i + 1]); }
    }
  }
}
