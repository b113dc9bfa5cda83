/** When the watchdog strikes a live worker: it lists hung tasks in one transaction and fails them in later ones. */
module EngineStrikes {
  import opened Dag
  import opened Q = QueueRecords
  import opened E = ExecutionState
  import opened Engine
  import opened EngineInv
  import opened EngineSafety
  import opened EngineTiming
  import opened EngineOwners
  import T = Timing
  import W = Runtime

  // ---- what every on-time run keeps, whomever the watchdog strikes ----

  /** Every worker is somewhere in the table, and no task has two. */
  ghost predicate Placed(s: Sys) {
    && Rows(s.db.ex) && s.starts.Keys == s.db.ex.state.Keys && Distinct(s.db.ex.order) && Sole(s)
    && (forall j :: j in s.runs ==> j < |s.db.jobs| && s.db.jobs[j].state != Queued)
  }

  /** Whoever is inside a task has a heartbeat on its row. */
  ghost predicate Beating(s: Sys, beats: map<Name, T.Beat>) {
    forall j: JobId :: IsInside(s, j) ==> s.db.jobs[j].task in beats && beats[s.db.jobs[j].task].inside
  }

  ghost predicate Tracked(l: T.Limits, overhead: real, t: Timed) {
    InTrim(l, overhead, t) && Placed(t.s) && Beating(t.s, t.beats)
  }

  predicate Striking(m: Move) { m.Acts? && m.step.ReapHung? }

  function InsideNow(t: Timed): set<Name> { InsideTasks(t.s.db.jobs, t.s.runs) }

  /** Nobody is inside the task that is struck. */
  predicate Spares(t: Timed, m: Move) { Striking(m) ==> m.step.n !in InsideNow(t) }

  lemma InsideWho(s: Sys, n: Name) returns (j: JobId)
    requires Placed(s) && n in InsideTasks(s.db.jobs, s.runs)
    ensures IsInside(s, j) && s.db.jobs[j].task == n
  {
    j :| j in s.runs && j < |s.db.jobs| && s.runs[j] == Inside && s.db.jobs[j].task == n;
    hide Rows, Distinct, Owns;
  }

  lemma InsideBeats(s: Sys, beats: map<Name, T.Beat>, n: Name)
    requires Placed(s) && Beating(s, beats) && n in InsideTasks(s.db.jobs, s.runs)
    ensures n in beats && beats[n].inside
  {
    hide Placed;
    var j := InsideWho(s, n);
  }

  /** The names recorded are those the watchdog's query returns. */
  lemma HangingIsTheQuery(l: T.Limits, t: Timed, now: Time)
    requires Rows(t.s.db.ex)
    ensures forall n :: n in Hanging(l, t, now) <==>
      n in W.HungTasks(t.s.db.ex.order, t.s.db.ex.state, t.beats, l, now)
  {
    var ex := t.s.db.ex;
    W.HungTasksAre(ex.order, ex.state, t.beats, l, now);
    forall n ensures n in ex.order <==> n in ex.state { assert n in ex.order <==> n in Elements(ex.order); }
    hide W.HungTasks, T.Hung, T.Silent, Rows;
  }

  /** The query itself returns no task a live worker is inside. */
  lemma HangingIsEmpty(c: Settings, l: T.Limits, overhead: real, t: Timed, n: Name, now: Time, at: Time)
    requires Allowed(c, l, overhead) && Tracked(l, overhead, t) && T.InTime(t.beats, overhead, at)
    requires n in Hanging(l, t, now) && now <= at
    ensures n !in InsideNow(t)
  {
    if n in InsideNow(t) {
      InsideBeats(t.s, t.beats, n);
      hide Placed, InsideTasks, Beating, IsInside, T.AllSecure, EverBegun;
    }
  }

  // ---- workers inside, before and after a step ----

  /** A worker inside after the step was inside before, or has just begun. */
  lemma InsideBefore(c: Settings, s: Sys, step: Step, j: JobId)
    requires Rows(s.db.ex) && s.starts.Keys == s.db.ex.state.Keys && Enabled(s, step) && Placed(s)
    requires IsInside(Apply(c, s, step), j)
    ensures j < |s.db.jobs| && Apply(c, s, step).db.jobs[j].task == s.db.jobs[j].task
    ensures IsInside(s, j) || (Begins(s, step) && step.j == j)
  {
    assert step.Start? ==> OwnJob(s.db, step.j);
    hide Rows, Distinct, Sole, Apply, Enabled, Starts;
    RunsAfter(c, s, step);
    StepGrows(c, s, step);
    StepSameKeys(c, s, step);
  }

  lemma StepSameKeys(c: Settings, s: Sys, step: Step)
    requires Rows(s.db.ex) && s.starts.Keys == s.db.ex.state.Keys && Enabled(s, step)
    ensures Apply(c, s, step).db.ex.state.Keys == s.db.ex.state.Keys
  {
    hide Apply, Enabled, Elements;
    assert Apply(c, s, step).db.ex.order == s.db.ex.order;
  }

  /** A worker inside stays inside until it parts, and whoever begins gets inside. */
  lemma InsideAfter(c: Settings, s: Sys, step: Step, j: JobId)
    requires Rows(s.db.ex) && s.starts.Keys == s.db.ex.state.Keys && Enabled(s, step) && Placed(s)
    requires (IsInside(s, j) && !(Parts(s, step) && step.j == j)) || (Begins(s, step) && step.j == j)
    ensures IsInside(Apply(c, s, step), j) && Apply(c, s, step).db.jobs[j].task == s.db.jobs[j].task
  {
    hide Rows, Distinct, Sole, Apply, Enabled, Starts;
    RunsStay(c, s, step, j);
    StepGrows(c, s, step);
    StepSameKeys(c, s, step);
  }

  lemma RunsStay(c: Settings, s: Sys, step: Step, j: JobId)
    requires Rows(s.db.ex) && s.starts.Keys == s.db.ex.state.Keys && Enabled(s, step)
    requires forall k :: k in s.runs ==> k < |s.db.jobs| && s.db.jobs[k].state != Queued
    requires (IsInside(s, j) && !(Parts(s, step) && step.j == j)) || (Begins(s, step) && step.j == j)
    ensures var runs' := Apply(c, s, step).runs; j in runs' && runs'[j] == Inside
  {
    hide Rows, StatusOf, E.Finish, E.Start, FinishStopped, SkipTask, CancelExecution, HandleDeadLetter, RequeueStale,
      DeadLetters, StepFrame, Q.Claim;
  }

  /** Whoever leaves or dies was the only one at its task. */
  lemma LeaverWasAlone(c: Settings, s: Sys, step: Step, j: JobId)
    requires Rows(s.db.ex) && s.starts.Keys == s.db.ex.state.Keys && Enabled(s, step) && Placed(s)
    requires IsInside(s, j) && IsInside(Apply(c, s, step), j)
    requires step.Finish? || step.Interrupt? || (step.Crash? && IsInside(s, step.j))
    ensures step.j < |s.db.jobs| && s.db.jobs[j].task != s.db.jobs[step.j].task
  {
    LeaverLeaves(c, s, step);
    assert OwnJob(s.db, step.j) && step.j in s.runs;
    hide Apply, Rows, Enabled;
    assert Owns(s.db.jobs, s.runs, j) && Owns(s.db.jobs, s.runs, step.j);
  }

  lemma LeaverLeaves(c: Settings, s: Sys, step: Step)
    requires Rows(s.db.ex) && s.starts.Keys == s.db.ex.state.Keys && Enabled(s, step)
    requires step.Finish? || step.Interrupt? || step.Crash?
    ensures Apply(c, s, step).runs == s.runs - {step.j}
  {
    hide Rows, E.Finish, FinishStopped, StepFrame;
  }

  lemma StillBeats(c: Settings, l: T.Limits, t: Timed, m: Move, j: JobId)
    requires m.Acts?
    requires Rows(t.s.db.ex) && t.s.starts.Keys == t.s.db.ex.state.Keys && Enabled(t.s, m.step) && Placed(t.s)
    requires IsInside(t.s, j) && IsInside(Apply(c, t.s, m.step), j) && Beating(t.s, t.beats)
    ensures var n := t.s.db.jobs[j].task; n in BeatsAfter(l, t, m) && BeatsAfter(l, t, m)[n].inside
  {
    assert t.s.db.jobs[j].task in t.beats && t.beats[t.s.db.jobs[j].task].inside;
    hide Apply, Enabled, Placed, Rows, Beating, IsInside;
    if m.step.Finish? || m.step.Interrupt? || (m.step.Crash? && IsInside(t.s, m.step.j)) {
      LeaverWasAlone(c, t.s, m.step, j);
    }
    BeatsElsewhere(l, t, m, t.s.db.jobs[j].task);
  }

  lemma BeatsElsewhere(l: T.Limits, t: Timed, m: Move, n: Name)
    requires m.Acts? && n in t.beats && t.beats[n].inside
    requires m.step.Finish? || m.step.Interrupt? || (m.step.Crash? && IsInside(t.s, m.step.j)) ==>
      m.step.j < |t.s.db.jobs| && n != t.s.db.jobs[m.step.j].task
    ensures n in BeatsAfter(l, t, m) && BeatsAfter(l, t, m)[n].inside
  {
    hide Starts;
  }

  lemma BeatingStays(c: Settings, l: T.Limits, t: Timed, m: Move, s': Sys)
    requires m.Acts?
    requires Rows(t.s.db.ex) && t.s.starts.Keys == t.s.db.ex.state.Keys && Enabled(t.s, m.step) && Placed(t.s)
    requires Beating(t.s, t.beats) && s' == Apply(c, t.s, m.step)
    ensures Beating(s', BeatsAfter(l, t, m))
  {
    hide Rows, Placed, Apply;
    forall j: JobId | IsInside(s', j)
      ensures s'.db.jobs[j].task in BeatsAfter(l, t, m) && BeatsAfter(l, t, m)[s'.db.jobs[j].task].inside {
      InsideBefore(c, t.s, m.step, j);
      if !(Begins(t.s, m.step) && m.step.j == j) {
        StillBeats(c, l, t, m, j);
      }
    }
  }

  // ---- one move ----

  /** A move is a query, a strike, or a step the engine permits. */
  lemma MoveIs(c: Settings, l: T.Limits, overhead: real, t: Timed, m: Move, t': Timed)
    requires Allowed(c, l, overhead) && InTrim(l, overhead, t) && Taken(c, l, overhead, t, m, t')
    ensures Rows(t.s.db.ex) && t.s.starts.Keys == t.s.db.ex.state.Keys
    ensures T.InTime(t.beats, overhead, m.at) && m.at == t'.clock
    ensures m.Lists? ==> t'.s == t.s && t'.beats == t.beats && m.now <= m.at
    ensures t'.listed == t.listed + if m.Lists? then Hanging(l, t, m.now) else {}
    ensures Striking(m) ==> m.step.n in t.listed && m.step.now <= m.at
    ensures Striking(m) ==> t'.s == LoseTask(t.s, m.step.n, m.step.now) && t'.beats == t.beats
    ensures m.Acts? && (Striking(m) ==> Spares(t, m)) ==>
      Legal(c, t.s, m.step, t'.s) && t'.beats == BeatsAfter(l, t, m)
  {
    hide InTrim, Rows, Apply, Enabled, InsideTasks, T.OnTime, T.InTime, Hanging, LoseTask, HeldAfter;
    if m.Acts? { GuardsHold(c, l, overhead, t, m); }
  }

  /** A strike moves nobody. */
  lemma StrikeMovesNobody(s: Sys, n: Name, now: Time)
    requires Rows(s.db.ex)
    ensures var s' := LoseTask(s, n, now);
      && s'.db.jobs == s.db.jobs && s'.runs == s.runs && s'.starts == s.starts
      && s'.db.ex.state.Keys == s.db.ex.state.Keys && s'.db.ex.order == s.db.ex.order && Rows(s'.db.ex)
  {
    hide Rows;
  }

  lemma MoveInsideBefore(c: Settings, l: T.Limits, overhead: real, t: Timed, m: Move, t': Timed, j: JobId)
    requires Allowed(c, l, overhead) && Tracked(l, overhead, t) && Taken(c, l, overhead, t, m, t')
    requires IsInside(t'.s, j)
    ensures j < |t.s.db.jobs| && t'.s.db.jobs[j].task == t.s.db.jobs[j].task
    ensures (IsInside(t.s, j) && !(m.Acts? && Parts(t.s, m.step) && m.step.j == j))
      || (m.Acts? && Begins(t.s, m.step) && m.step.j == j)
  {
    MoveIs(c, l, overhead, t, m, t');
    hide InTrim, Taken, Placed, Beating, Rows, Apply, Enabled, InsideNow;
    if Striking(m) {
      StrikeMovesNobody(t.s, m.step.n, m.step.now);
    } else if m.Acts? {
      InsideBefore(c, t.s, m.step, j);
      if Parts(t.s, m.step) && m.step.j == j { PartedIsOut(c, t.s, m.step); }
    }
  }

  lemma PartedIsOut(c: Settings, s: Sys, step: Step)
    requires Rows(s.db.ex) && s.starts.Keys == s.db.ex.state.Keys && Enabled(s, step) && Parts(s, step)
    ensures !IsInside(Apply(c, s, step), step.j)
  {
    hide Rows, StatusOf, E.Finish, E.Start, FinishStopped, StepFrame;
  }

  lemma MoveInsideAfter(c: Settings, l: T.Limits, overhead: real, t: Timed, m: Move, t': Timed, j: JobId)
    requires Allowed(c, l, overhead) && Tracked(l, overhead, t) && Taken(c, l, overhead, t, m, t')
    requires (IsInside(t.s, j) && !(m.Acts? && Parts(t.s, m.step) && m.step.j == j))
      || (m.Acts? && Begins(t.s, m.step) && m.step.j == j)
    ensures IsInside(t'.s, j) && t'.s.db.jobs[j].task == t.s.db.jobs[j].task
  {
    MoveIs(c, l, overhead, t, m, t');
    hide InTrim, Taken, Placed, Beating, Rows, Apply, Enabled, InsideNow;
    if Striking(m) {
      StrikeMovesNobody(t.s, m.step.n, m.step.now);
    } else if m.Acts? {
      InsideAfter(c, t.s, m.step, j);
    }
  }

  lemma StepKeepsPlaced(c: Settings, s: Sys, step: Step)
    requires Rows(s.db.ex) && s.starts.Keys == s.db.ex.state.Keys && Enabled(s, step) && Distinct(s.db.ex.order)
    requires Sole(s) && c.maxAttempts >= 1
    ensures var s' := Apply(c, s, step);
      Rows(s'.db.ex) && s'.starts.Keys == s'.db.ex.state.Keys && Distinct(s'.db.ex.order) && Sole(s')
  {
    StepKeepsSole(c, s, step);
    hide Rows, Sole, Apply, Enabled, Distinct;
    assert StepFrame(s, Apply(c, s, step));
  }

  lemma TakenKeepsPlaced(c: Settings, l: T.Limits, overhead: real, t: Timed, m: Move, t': Timed)
    requires Allowed(c, l, overhead) && Tracked(l, overhead, t) && Taken(c, l, overhead, t, m, t')
    requires InTrim(l, overhead, t')
    ensures Placed(t'.s)
  {
    hide InTrim, Taken, Beating, Rows, Distinct, Sole, Apply, Enabled, LoseTask, InsideNow, Hanging, T.InTime;
    MoveIs(c, l, overhead, t, m, t');
    TrimRuns(l, overhead, t');
    if Striking(m) {
      StrikeMovesNobody(t.s, m.step.n, m.step.now);
      StrikeKeepsSole(t.s, m.step.n, m.step.now);
    } else if m.Acts? {
      StepKeepsPlaced(c, t.s, m.step);
    }
  }

  lemma TrimRuns(l: T.Limits, overhead: real, t: Timed)
    requires InTrim(l, overhead, t)
    ensures forall j :: j in t.s.runs ==> j < |t.s.db.jobs| && t.s.db.jobs[j].state != Queued
  {
    hide T.Punctual, EverBegun;
    forall j | j in t.s.runs ensures j < |t.s.db.jobs| && t.s.db.jobs[j].state != Queued {
      assert j in t.held.Keys && T.Secure(l, Queue(t), j);
    }
  }

  lemma TakenKeepsBeating(c: Settings, l: T.Limits, overhead: real, t: Timed, m: Move, t': Timed)
    requires Allowed(c, l, overhead) && Tracked(l, overhead, t) && Taken(c, l, overhead, t, m, t')
    ensures Beating(t'.s, t'.beats)
  {
    hide InTrim, Taken, Placed, Rows, Apply, Enabled, LoseTask, InsideNow, Beating, Allowed, Hanging, T.InTime;
    MoveIs(c, l, overhead, t, m, t');
    if Striking(m) {
      StrikeMovesNobody(t.s, m.step.n, m.step.now);
      SameBeats(t.s, t'.s, t.beats);
    } else if m.Acts? {
      BeatingStays(c, l, t, m, t'.s);
    }
  }

  lemma SameBeats(s: Sys, s': Sys, beats: map<Name, T.Beat>)
    requires Beating(s, beats) && s'.db.jobs == s.db.jobs && s'.runs == s.runs
      && s'.db.ex.state.Keys == s.db.ex.state.Keys
    ensures Beating(s', beats)
  {
    forall j: JobId | IsInside(s', j)
      ensures s'.db.jobs[j].task in beats && beats[s'.db.jobs[j].task].inside {
      assert IsInside(s, j);
    }
  }

  lemma TakenKeepsTracked(c: Settings, l: T.Limits, overhead: real, t: Timed, m: Move, t': Timed)
    requires Allowed(c, l, overhead) && Tracked(l, overhead, t) && Taken(c, l, overhead, t, m, t')
    ensures Tracked(l, overhead, t')
  {
    hide InTrim, Taken, Placed, Beating, Allowed;
    var act, what := TakenKeepsTrim(c, l, overhead, t, m, t');
    TakenKeepsPlaced(c, l, overhead, t, m, t');
    TakenKeepsBeating(c, l, overhead, t, m, t');
  }

  // ---- whole runs ----

  lemma StartTracked(c: Settings, l: T.Limits, overhead: real, ex: Execution, t0: Time)
    requires Rows(ex) && Fresh(ex) && Allowed(c, l, overhead)
    ensures Tracked(l, overhead, Outset(c, ex, t0))
  {
    assert Distinct(ex.order);
    hide InTrim, Fresh, EnqueueReady, Sole, Rows, Distinct;
    StartInTrim(c, l, overhead, ex, t0);
    SpawnedSole(c, ex, t0);
    SpawnedFrame(c, ex, t0);
  }

  lemma SpawnedFrame(c: Settings, ex: Execution, t0: Time)
    requires Rows(ex)
    ensures var s := Spawned(c, ex, t0);
      Rows(s.db.ex) && s.starts.Keys == s.db.ex.state.Keys && s.db.ex.order == ex.order && s.runs == map[]
  {
    hide EnqueueReady;
  }

  lemma TimedRunTracked(c: Settings, l: T.Limits, overhead: real, ex: Execution, t0: Time, states: seq<Timed>,
                        moves: seq<Move>, i: nat)
    requires TimedRun(c, l, overhead, ex, t0, states, moves) && i < |states|
    ensures Tracked(l, overhead, states[i])
  {
    hide Tracked, Taken, Fresh, Rows, Outset, Allowed;
    if i == 0 {
      StartTracked(c, l, overhead, ex, t0);
    } else {
      TimedRunTracked(c, l, overhead, ex, t0, states, moves, i - 1);
      assert Taken(c, l, overhead, states[i - 1], moves[i - 1], states[i]);
      TakenKeepsTracked(c, l, overhead, states[i - 1], moves[i - 1], states[i]);
    }
  }

  /** In every on-time run, even once the watchdog has failed a task somebody is inside: no task has two jobs that are
      queued, leased or held by a live worker, and no pending task has any job. */
  lemma NoTaskHasTwoOwners(c: Settings, l: T.Limits, overhead: real, ex: Execution, t0: Time, states: seq<Timed>,
                           moves: seq<Move>, i: nat)
    requires TimedRun(c, l, overhead, ex, t0, states, moves) && i < |states|
    ensures var s := states[i].s; forall j: JobId, k: JobId ::
      Owns(s.db.jobs, s.runs, j) && Owns(s.db.jobs, s.runs, k) && s.db.jobs[j].task == s.db.jobs[k].task ==> j == k
    ensures var s := states[i].s; forall j :: 0 <= j < |s.db.jobs| ==>
      s.db.jobs[j].task in s.db.ex.state && s.db.ex.state[s.db.jobs[j].task] != Pending
  {
    TimedRunTracked(c, l, overhead, ex, t0, states, moves, i);
    hide TimedRun, InTrim, Beating, Rows, Distinct, Owns;
  }

  // ---- who is inside a listed task ----

  /** The query of move `i` returned `n`. */
  predicate Returned(l: T.Limits, states: seq<Timed>, moves: seq<Move>, i: nat, n: Name)
    requires |states| == |moves| + 1
  {
    i < |moves| && moves[i].Lists? && n in Hanging(l, states[i], moves[i].now)
  }

  /** Move `k` begins task `n`. */
  predicate BeginsAt(states: seq<Timed>, moves: seq<Move>, k: nat, n: Name)
    requires |states| == |moves| + 1
  {
    k < |moves| && moves[k].Acts? && Begins(states[k].s, moves[k].step)
    && states[k].s.db.jobs[moves[k].step.j].task == n
  }

  /** The worker of job `j` parts at move `k`. */
  predicate PartsAt(states: seq<Timed>, moves: seq<Move>, k: nat, j: JobId)
    requires |states| == |moves| + 1
  {
    k < |moves| && moves[k].Acts? && Parts(states[k].s, moves[k].step) && moves[k].step.j == j
  }

  /** Move `k` begins task `n`, and until move `m` that worker has not left, been interrupted or died. */
  ghost predicate BegunStill(states: seq<Timed>, moves: seq<Move>, k: nat, m: nat, n: Name)
    requires |states| == |moves| + 1
  {
    k < m && BeginsAt(states, moves, k, n) && forall r: nat :: k < r < m ==> !PartsAt(states, moves, r, moves[k].step.j)
  }

  /** After move `i` and before move `m` the task was begun by a worker that is still at it. */
  ghost predicate BegunSince(states: seq<Timed>, moves: seq<Move>, i: nat, m: nat, n: Name)
    requires |states| == |moves| + 1
  {
    exists k: nat :: i < k && BegunStill(states, moves, k, m, n)
  }

  /** A worker that began and did not part is inside. */
  lemma {:induction false} BegunIsInside(c: Settings, l: T.Limits, overhead: real, ex: Execution, t0: Time,
                                         states: seq<Timed>, moves: seq<Move>, k: nat, m: nat, n: Name)
    requires |states| == |moves| + 1 && TimedRun(c, l, overhead, ex, t0, states, moves) && m <= |moves|
    requires BegunStill(states, moves, k, m, n)
    ensures IsInside(states[m].s, moves[k].step.j) && states[m].s.db.jobs[moves[k].step.j].task == n
    decreases m
  {
    hide Tracked, IsInside, Starts, Parts, TimedRun;
    if k < m - 1 { BegunIsInside(c, l, overhead, ex, t0, states, moves, k, m - 1, n); }
    TimedRunTracked(c, l, overhead, ex, t0, states, moves, m - 1);
    InsideOneLater(c, l, overhead, ex, t0, states, moves, m - 1, moves[k].step.j);
  }

  lemma InsideOneLater(c: Settings, l: T.Limits, overhead: real, ex: Execution, t0: Time, states: seq<Timed>,
                       moves: seq<Move>, m: nat, j: JobId)
    requires |states| == |moves| + 1 && TimedRun(c, l, overhead, ex, t0, states, moves) && m < |moves|
    requires Tracked(l, overhead, states[m])
    requires (IsInside(states[m].s, j) && !PartsAt(states, moves, m, j))
      || (moves[m].Acts? && Begins(states[m].s, moves[m].step) && moves[m].step.j == j)
    ensures IsInside(states[m + 1].s, j) && states[m + 1].s.db.jobs[j].task == states[m].s.db.jobs[j].task
  {
    hide Tracked, Taken, Fresh, Rows, Outset, Allowed, Starts, Parts;
    assert Taken(c, l, overhead, states[m], moves[m], states[m + 1]);
    MoveInsideAfter(c, l, overhead, states[m], moves[m], states[m + 1], j);
  }

  /** Whoever is inside was inside at the earlier move, or began since and is still at it. */
  lemma {:induction false} InsideSince(c: Settings, l: T.Limits, overhead: real, ex: Execution, t0: Time,
                                       states: seq<Timed>, moves: seq<Move>, i: nat, m: nat, j: JobId, n: Name)
    requires |states| == |moves| + 1 && TimedRun(c, l, overhead, ex, t0, states, moves) && i < m <= |moves|
    requires moves[i].Lists? && IsInside(states[m].s, j) && states[m].s.db.jobs[j].task == n
    ensures (IsInside(states[i].s, j) && states[i].s.db.jobs[j].task == n)
      || exists k: nat :: i < k && BegunStill(states, moves, k, m, n) && moves[k].step.j == j
    decreases m
  {
    hide Tracked, IsInside, Starts, Parts, Taken, Fresh, Rows, Outset, Allowed;
    TimedRunTracked(c, l, overhead, ex, t0, states, moves, m - 1);
    assert Taken(c, l, overhead, states[m - 1], moves[m - 1], states[m]);
    MoveInsideBefore(c, l, overhead, states[m - 1], moves[m - 1], states[m], j);
    hide TimedRun;
    if BeginsAt(states, moves, m - 1, n) && moves[m - 1].step.j == j {
      assert BegunStill(states, moves, m - 1, m, n);
    } else if i < m - 1 {
      InsideSince(c, l, overhead, ex, t0, states, moves, i, m - 1, j, n);
      if k: nat :| i < k && BegunStill(states, moves, k, m - 1, n) && moves[k].step.j == j {
        assert BegunStill(states, moves, k, m, n);
      }
    }
  }

  /** In every on-time run: when the watchdog's query returns a task, somebody is inside it later on if and only if it
      was begun after the query by a worker that is still at it. */
  lemma ListedIsMetExactly(c: Settings, l: T.Limits, overhead: real, ex: Execution, t0: Time, states: seq<Timed>,
                           moves: seq<Move>, i: nat, m: nat, n: Name)
    requires |states| == |moves| + 1 && TimedRun(c, l, overhead, ex, t0, states, moves) && i < m <= |moves|
    requires Returned(l, states, moves, i, n)
    ensures n in InsideNow(states[m]) <==> BegunSince(states, moves, i, m, n)
  {
    hide Tracked, TimedRun, BeginsAt, PartsAt, Hanging, InsideNow;
    if n in InsideNow(states[m]) {
      TimedRunTracked(c, l, overhead, ex, t0, states, moves, m);
      var j := InsideSomebody(l, overhead, states[m], n);
      InsideSince(c, l, overhead, ex, t0, states, moves, i, m, j, n);
      if IsInside(states[i].s, j) && states[i].s.db.jobs[j].task == n {
        ListedNotInside(c, l, overhead, ex, t0, states, moves, i, n);
        InsideMember(states[i], j);
        assert false;
      }
    }
    if BegunSince(states, moves, i, m, n) {
      var k: nat :| i < k && BegunStill(states, moves, k, m, n);
      BegunIsInside(c, l, overhead, ex, t0, states, moves, k, m, n);
      InsideMember(states[m], StartedJob(states, moves, k, n));
    }
  }

  /** The job that move `k` starts. */
  function StartedJob(states: seq<Timed>, moves: seq<Move>, k: nat, n: Name): JobId
    requires |states| == |moves| + 1 && BeginsAt(states, moves, k, n)
  {
    moves[k].step.j
  }

  lemma InsideSomebody(l: T.Limits, overhead: real, t: Timed, n: Name) returns (j: JobId)
    requires Tracked(l, overhead, t) && n in InsideNow(t)
    ensures IsInside(t.s, j) && t.s.db.jobs[j].task == n
  {
    hide InTrim, Placed, Beating;
    j := InsideWho(t.s, n);
  }

  lemma InsideMember(t: Timed, j: JobId)
    requires IsInside(t.s, j)
    ensures t.s.db.jobs[j].task in InsideNow(t)
  {
  }

  lemma ListedNotInside(c: Settings, l: T.Limits, overhead: real, ex: Execution, t0: Time, states: seq<Timed>,
                        moves: seq<Move>, i: nat, n: Name)
    requires |states| == |moves| + 1 && TimedRun(c, l, overhead, ex, t0, states, moves)
    requires Returned(l, states, moves, i, n)
    ensures n !in InsideNow(states[i])
  {
    hide Tracked, Hanging, Fresh, Rows, Outset, Taken, InsideNow;
    TimedRunTracked(c, l, overhead, ex, t0, states, moves, i);
    assert Taken(c, l, overhead, states[i], moves[i], states[i + 1]);
    TrackedInTrim(l, overhead, states[i]);
    MoveIs(c, l, overhead, states[i], moves[i], states[i + 1]);
    HangingIsEmpty(c, l, overhead, states[i], n, moves[i].now, moves[i].at);
  }

  lemma TrackedInTrim(l: T.Limits, overhead: real, t: Timed)
    requires Tracked(l, overhead, t)
    ensures InTrim(l, overhead, t)
  {
    hide InTrim, Placed, Beating;
  }

  // ---- which on-time runs are runs of the engine ----

  /** The task struck at move `m`, if any, has not been begun since it was listed by a worker that is still at it. */
  ghost predicate Clear(l: T.Limits, states: seq<Timed>, moves: seq<Move>, m: nat)
    requires |states| == |moves| + 1 && m < |moves|
  {
    Striking(moves[m]) ==> forall i: nat :: i < m && Returned(l, states, moves, i, moves[m].step.n) ==>
      !BegunSince(states, moves, i, m, moves[m].step.n)
  }

  ghost predicate AllClear(l: T.Limits, states: seq<Timed>, moves: seq<Move>)
    requires |states| == |moves| + 1
  {
    forall m: nat :: m < |moves| ==> Clear(l, states, moves, m)
  }

  /** Whatever is struck was listed by an earlier query. */
  lemma {:induction false} ListedWhen(c: Settings, l: T.Limits, overhead: real, ex: Execution, t0: Time,
                                      states: seq<Timed>, moves: seq<Move>, m: nat, n: Name) returns (i: nat)
    requires |states| == |moves| + 1 && TimedRun(c, l, overhead, ex, t0, states, moves) && m <= |moves|
    requires n in states[m].listed
    ensures i < m && Returned(l, states, moves, i, n)
  {
    hide Taken, Fresh, Rows, Spawned, Hanging, Allowed, InTrim;
    assert m > 0;
    assert Taken(c, l, overhead, states[m - 1], moves[m - 1], states[m]);
    TimedRunInTrim(c, l, overhead, ex, t0, states, moves, m - 1);
    MoveIs(c, l, overhead, states[m - 1], moves[m - 1], states[m]);
    if moves[m - 1].Lists? && n in Hanging(l, states[m - 1], moves[m - 1].now) {
      i := m - 1;
    } else {
      i := ListedWhen(c, l, overhead, ex, t0, states, moves, m - 1, n);
    }
  }

  /** A strike meets nobody if and only if it is clear. */
  lemma SparesExactly(c: Settings, l: T.Limits, overhead: real, ex: Execution, t0: Time, states: seq<Timed>,
                      moves: seq<Move>, m: nat)
    requires |states| == |moves| + 1 && TimedRun(c, l, overhead, ex, t0, states, moves) && m < |moves|
    ensures Spares(states[m], moves[m]) <==> Clear(l, states, moves, m)
  {
    if Striking(moves[m]) {
      assert Taken(c, l, overhead, states[m], moves[m], states[m + 1]);
      TimedRunInTrim(c, l, overhead, ex, t0, states, moves, m);
      hide Taken, BegunSince, Hanging, InsideNow, Returned, InTrim, Fresh, Rows, Outset, Allowed;
      MoveIs(c, l, overhead, states[m], moves[m], states[m + 1]);
      var n := moves[m].step.n;
      var i := ListedWhen(c, l, overhead, ex, t0, states, moves, m, n);
      forall i: nat | i < m && Returned(l, states, moves, i, n)
        ensures n in InsideNow(states[m]) <==> BegunSince(states, moves, i, m, n) {
        ListedIsMetExactly(c, l, overhead, ex, t0, states, moves, i, m, n);
      }
    }
  }

  /** Every strike meets nobody inside. */
  ghost predicate AllSpared(states: seq<Timed>, moves: seq<Move>)
    requires |states| == |moves| + 1
  {
    forall m: nat :: m < |moves| ==> Spares(states[m], moves[m])
  }

  /** The engine's states and steps among the first `k` moves; the watchdog's queries leave no trace in them. */
  function StepsTo(moves: seq<Move>, k: nat): (r: seq<Step>)
    requires k <= |moves|
  {
    if k == 0 then [] else StepsTo(moves, k - 1) + if moves[k - 1].Acts? then [moves[k - 1].step] else []
  }

  function SysTo(states: seq<Timed>, moves: seq<Move>, k: nat): (r: seq<Sys>)
    requires |states| == |moves| + 1 && k <= |moves|
    ensures |r| == |StepsTo(moves, k)| + 1
  {
    if k == 0 then [states[0].s] else SysTo(states, moves, k - 1) + if moves[k - 1].Acts? then [states[k].s] else []
  }

  lemma {:induction false} LastOfSys(c: Settings, l: T.Limits, overhead: real, ex: Execution, t0: Time,
                                     states: seq<Timed>, moves: seq<Move>, k: nat)
    requires |states| == |moves| + 1 && TimedRun(c, l, overhead, ex, t0, states, moves) && k <= |moves|
    ensures SysTo(states, moves, k)[|StepsTo(moves, k)|] == states[k].s
  {
    hide Taken, Fresh, Rows, Outset, Allowed, InTrim;
    if k > 0 {
      LastOfSys(c, l, overhead, ex, t0, states, moves, k - 1);
      TimedRunInTrim(c, l, overhead, ex, t0, states, moves, k - 1);
      assert Taken(c, l, overhead, states[k - 1], moves[k - 1], states[k]);
      MoveIs(c, l, overhead, states[k - 1], moves[k - 1], states[k]);
    }
  }

  lemma SparedIsLegal(c: Settings, l: T.Limits, overhead: real, ex: Execution, t0: Time, states: seq<Timed>,
                      moves: seq<Move>, m: nat)
    requires |states| == |moves| + 1 && TimedRun(c, l, overhead, ex, t0, states, moves) && m < |moves|
    requires moves[m].Acts? && Spares(states[m], moves[m])
    ensures Legal(c, states[m].s, moves[m].step, states[m + 1].s)
  {
    hide Taken, Fresh, Rows, Outset, Allowed, InTrim, Legal, Spares;
    TimedRunInTrim(c, l, overhead, ex, t0, states, moves, m);
    assert Taken(c, l, overhead, states[m], moves[m], states[m + 1]);
    MoveIs(c, l, overhead, states[m], moves[m], states[m + 1]);
  }

  lemma {:induction false} SparedIsRun(c: Settings, l: T.Limits, overhead: real, ex: Execution, t0: Time,
                                       states: seq<Timed>, moves: seq<Move>, k: nat)
    requires |states| == |moves| + 1 && TimedRun(c, l, overhead, ex, t0, states, moves) && k <= |moves|
    requires AllSpared(states, moves)
    ensures IsRun(c, ex, t0, SysTo(states, moves, k), StepsTo(moves, k))
  {
    hide TimedRun, Spares, Legal, IsRun;
    if k == 0 {
      EmptyRun(c, l, overhead, ex, t0, states, moves);
    } else {
      SparedIsRun(c, l, overhead, ex, t0, states, moves, k - 1);
      if moves[k - 1].Acts? {
        LastOfSys(c, l, overhead, ex, t0, states, moves, k - 1);
        SparedIsLegal(c, l, overhead, ex, t0, states, moves, k - 1);
        RunAppend(c, ex, t0, SysTo(states, moves, k - 1), StepsTo(moves, k - 1), moves[k - 1].step, states[k].s);
      } else {
        assert SysTo(states, moves, k) == SysTo(states, moves, k - 1) && StepsTo(moves, k) == StepsTo(moves, k - 1);
      }
    }
  }

  lemma EmptyRun(c: Settings, l: T.Limits, overhead: real, ex: Execution, t0: Time, states: seq<Timed>,
                 moves: seq<Move>)
    requires |states| == |moves| + 1 && TimedRun(c, l, overhead, ex, t0, states, moves)
    ensures IsRun(c, ex, t0, SysTo(states, moves, 0), StepsTo(moves, 0))
  {
    hide Taken, Fresh, Rows, Spawned;
  }

  /** Conversely, a run of the engine spares whomever it strikes. */
  lemma {:induction false} RunSpares(c: Settings, l: T.Limits, overhead: real, ex: Execution, t0: Time,
                                     states: seq<Timed>, moves: seq<Move>, k: nat, m: nat)
    requires |states| == |moves| + 1 && TimedRun(c, l, overhead, ex, t0, states, moves) && m < k <= |moves|
    requires IsRun(c, ex, t0, SysTo(states, moves, k), StepsTo(moves, k))
    ensures Spares(states[m], moves[m])
  {
    hide TimedRun, Spares, IsRun, Legal;
    LastOfSys(c, l, overhead, ex, t0, states, moves, k - 1);
    if m == k - 1 {
      LastSpares(c, ex, t0, states, moves, k);
    } else {
      RunPrefix(c, ex, t0, states, moves, k);
      RunSpares(c, l, overhead, ex, t0, states, moves, k - 1, m);
    }
  }

  lemma RunPrefix(c: Settings, ex: Execution, t0: Time, states: seq<Timed>, moves: seq<Move>, k: nat)
    requires |states| == |moves| + 1 && 0 < k <= |moves|
    requires IsRun(c, ex, t0, SysTo(states, moves, k), StepsTo(moves, k))
    ensures IsRun(c, ex, t0, SysTo(states, moves, k - 1), StepsTo(moves, k - 1))
  {
    hide Legal, Fresh, Rows, Spawned;
    var s, s', p, p' := SysTo(states, moves, k - 1), SysTo(states, moves, k), StepsTo(moves, k - 1), StepsTo(moves, k);
    forall i | 0 <= i < |p| ensures Legal(c, s[i], p[i], s[i + 1]) {
      assert Legal(c, s'[i], p'[i], s'[i + 1]);
    }
  }

  lemma LastSpares(c: Settings, ex: Execution, t0: Time, states: seq<Timed>, moves: seq<Move>, k: nat)
    requires |states| == |moves| + 1 && 0 < k <= |moves|
    requires IsRun(c, ex, t0, SysTo(states, moves, k), StepsTo(moves, k))
    requires SysTo(states, moves, k - 1)[|StepsTo(moves, k - 1)|] == states[k - 1].s
    ensures Spares(states[k - 1], moves[k - 1])
  {
    if Striking(moves[k - 1]) {
      hide *;
      LastTwo(states, moves, k);
      LastIsLegal(c, ex, t0, SysTo(states, moves, k), StepsTo(moves, k));
      LegalSpares(c, states[k - 1], moves[k - 1], SysTo(states, moves, k)[|StepsTo(moves, k)|]);
    }
  }

  lemma LastTwo(states: seq<Timed>, moves: seq<Move>, k: nat)
    requires |states| == |moves| + 1 && 0 < k <= |moves| && Striking(moves[k - 1])
    requires SysTo(states, moves, k - 1)[|StepsTo(moves, k - 1)|] == states[k - 1].s
    ensures var s, p := SysTo(states, moves, k), StepsTo(moves, k);
      p != [] && s[|p| - 1] == states[k - 1].s && p[|p| - 1] == moves[k - 1].step && Striking(moves[k - 1])
  {
  }

  lemma LastIsLegal(c: Settings, ex: Execution, t0: Time, s: seq<Sys>, p: seq<Step>)
    requires IsRun(c, ex, t0, s, p) && p != []
    ensures |s| == |p| + 1 && Legal(c, s[|p| - 1], p[|p| - 1], s[|p|])
  {
    hide Fresh, Rows, Spawned, Legal;
  }

  lemma LegalSpares(c: Settings, t: Timed, m: Move, s': Sys)
    requires Striking(m) && Legal(c, t.s, m.step, s')
    ensures Spares(t, m)
  {
    hide Rows, InsideTasks, Apply;
  }

  /** An on-time run, in which the watchdog strikes whomever it has ever listed, is a run of the engine if and only if
      no struck task has been begun since it was listed by a worker that is still at it. Everything proved of the
      engine's runs holds of it then. */
  lemma OnTimeRunIsRun(c: Settings, l: T.Limits, overhead: real, ex: Execution, t0: Time, states: seq<Timed>,
                       moves: seq<Move>)
    requires |states| == |moves| + 1 && TimedRun(c, l, overhead, ex, t0, states, moves)
    ensures IsRun(c, ex, t0, SysTo(states, moves, |moves|), StepsTo(moves, |moves|)) <==> AllClear(l, states, moves)
  {
    hide TimedRun, IsRun, Clear, Spares;
    forall m: nat | m < |moves| ensures Spares(states[m], moves[m]) <==> Clear(l, states, moves, m) {
      SparesExactly(c, l, overhead, ex, t0, states, moves, m);
    }
    if AllSpared(states, moves) {
      SparedIsRun(c, l, overhead, ex, t0, states, moves, |moves|);
    }
    if IsRun(c, ex, t0, SysTo(states, moves, |moves|), StepsTo(moves, |moves|)) {
      forall m: nat | m < |moves| ensures Spares(states[m], moves[m]) {
        RunSpares(c, l, overhead, ex, t0, states, moves, |moves|, m);
      }
    }
  }

  // ---- a check that would make it safe ----

  /** The query would still return the task at the moment it is struck. */
  predicate Rechecked(l: T.Limits, t: Timed, m: Move) {
    Striking(m) ==> m.step.n in Hanging(l, t, m.step.now)
  }

  /** If every strike read the row once more, every on-time run would be a run of the engine. */
  lemma RecheckedRunIsRun(c: Settings, l: T.Limits, overhead: real, ex: Execution, t0: Time, states: seq<Timed>,
                          moves: seq<Move>)
    requires |states| == |moves| + 1 && TimedRun(c, l, overhead, ex, t0, states, moves)
    requires forall m: nat :: m < |moves| ==> Rechecked(l, states[m], moves[m])
    ensures IsRun(c, ex, t0, SysTo(states, moves, |moves|), StepsTo(moves, |moves|))
  {
    hide TimedRun, IsRun, Rechecked, Spares;
    forall m: nat | m < |moves| ensures Spares(states[m], moves[m]) {
      RecheckedSpares(c, l, overhead, ex, t0, states, moves, m);
    }
    SparedIsRun(c, l, overhead, ex, t0, states, moves, |moves|);
  }

  lemma RecheckedSpares(c: Settings, l: T.Limits, overhead: real, ex: Execution, t0: Time, states: seq<Timed>,
                        moves: seq<Move>, m: nat)
    requires |states| == |moves| + 1 && TimedRun(c, l, overhead, ex, t0, states, moves) && m < |moves|
    requires Rechecked(l, states[m], moves[m])
    ensures Spares(states[m], moves[m])
  {
    hide Taken, Fresh, Rows, Outset, Tracked, Allowed, Hanging, InsideNow;
    if Striking(moves[m]) {
      TimedRunTracked(c, l, overhead, ex, t0, states, moves, m);
      assert Taken(c, l, overhead, states[m], moves[m], states[m + 1]);
      TrackedInTrim(l, overhead, states[m]);
      MoveIs(c, l, overhead, states[m], moves[m], states[m + 1]);
      HangingIsEmpty(c, l, overhead, states[m], moves[m].step.n, moves[m].step.now, moves[m].at);
    }
  }
}
