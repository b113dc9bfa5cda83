/** Without operators and without further faults, every execution can be brought to its end. */
module EngineProgress {
  import opened Dag
  import opened Q = QueueRecords
  import opened E = ExecutionState
  import opened Engine
  import opened EngineInv
  import opened EngineStatus
  import opened EngineSafety
  import opened EngineCancel
  import opened EngineQuiet
  import opened EngineOutcome
  import opened EngineMeasure

  /** What workers and reapers do when nothing goes wrong: no crash, no drained letter, no operator. */
  predicate Productive(step: Step) {
    step.Claim? || step.Start? || step.Finish? || step.Deliver? || step.ReapLeases?
  }

  /** The step can be taken, nothing goes wrong in it, and it brings the end nearer. */
  ghost predicate Advances(c: Settings, s: Sys, step: Step) {
    && Rows(s.db.ex) && s.starts.Keys == s.db.ex.state.Keys && Productive(step) && Enabled(s, step)
    && Measure(c, Apply(c, s, step)) < Measure(c, s)
  }

  ghost predicate CanAdvance(c: Settings, s: Sys) { exists step: Step :: Advances(c, s, step) }

  /** A step of a worker, or a delivery. */
  lemma EnabledAdvances(c: Settings, s: Sys, step: Step)
    requires Rows(s.db.ex) && s.starts.Keys == s.db.ex.state.Keys && Inv(c, s) && Agrees(s.db.ex)
    requires !s.db.ex.cancellationRequested && Enabled(s, step) && Productive(step) && !step.ReapLeases?
    ensures CanAdvance(c, s)
  {
    hide Inv, Agrees, Measure, Rows, Enabled, Apply;
    StepMeasure(c, s, step);
    assert Advances(c, s, step);
  }

  /** With nobody alive, an expired lease is reaped. */
  lemma ExpiredAdvances(c: Settings, s: Sys, j: JobId, now: Time)
    requires Rows(s.db.ex) && s.starts.Keys == s.db.ex.state.Keys && Inv(c, s) && Agrees(s.db.ex)
    requires !s.db.ex.cancellationRequested && s.runs == map[] && j < |s.db.jobs| && Expired(s.db.jobs[j], now)
    ensures CanAdvance(c, s)
  {
    var step := Step.ReapLeases(now);
    assert Apply(c, s, step).db.jobs[j].state != Leased && s.db.jobs[j].state == Leased;
    assert Enabled(s, step);
    hide Inv, Agrees, Measure, Rows, Enabled, Apply;
    StepMeasure(c, s, step);
    assert Advances(c, s, step);
  }

  lemma LeaseAdvances(c: Settings, s: Sys, j: JobId)
    requires Rows(s.db.ex) && s.starts.Keys == s.db.ex.state.Keys && Inv(c, s) && Agrees(s.db.ex)
    requires !s.db.ex.cancellationRequested && s.runs == map[]
    requires j < |s.db.jobs| && JobOk(c, s.db.ex.id, s.db.jobs[j]) && s.db.jobs[j].state == Leased
    ensures CanAdvance(c, s)
  {
    hide CanAdvance, Inv, Agrees, Rows;
    ExpiredAdvances(c, s, j, s.db.jobs[j].leaseExpiresAt.value + 1.0);
  }

  /** A live worker can go on with its job. */
  lemma WorkerAdvances(c: Settings, s: Sys, k: JobId)
    requires Rows(s.db.ex) && s.starts.Keys == s.db.ex.state.Keys && Inv(c, s) && Agrees(s.db.ex)
    requires !s.db.ex.cancellationRequested && k in s.runs && OwnJob(s.db, k)
    ensures CanAdvance(c, s)
  {
    hide CanAdvance, Inv, Agrees, Rows;
    EnabledAdvances(c, s, if s.runs[k] == Holding then Step.Start(k, 0.0) else Step.Finish(k, true, 0.0));
  }

  lemma RunsOwn(c: Settings, s: Sys)
    requires Inv(c, s) && !s.db.ex.cancellationRequested
    ensures forall k :: k in s.runs ==> OwnJob(s.db, k)
  {
    WorkIsOwned(c, s);
    hide ViewOk, JobsOk, Settled, Outstanding, Underway;
  }

  /** Whoever owns work that is still underway can go on, or its lease can be reaped. */
  lemma OwnerAdvances(c: Settings, s: Sys, n: Name, j: JobId)
    requires Rows(s.db.ex) && s.starts.Keys == s.db.ex.state.Keys && Inv(c, s) && Agrees(s.db.ex)
    requires !s.db.ex.cancellationRequested && s.letters == s.buffer && Outstanding(s, n, j) && n in s.db.ex.state
    ensures CanAdvance(c, s)
  {
    OutstandingFacts(c, s, n, j);
    hide *;
    if s.db.jobs[j].state == Queued {
      ClaimAdvances(c, s, j);
    } else if j in s.buffer {
      LetterAdvances(c, s, j);
    } else if k :| k in s.runs {
      WorkerAdvances(c, s, k);
    } else {
      LeaseAdvances(c, s, j);
    }
  }

  lemma OutstandingFacts(c: Settings, s: Sys, n: Name, j: JobId)
    requires Inv(c, s) && !s.db.ex.cancellationRequested && s.letters == s.buffer && Outstanding(s, n, j)
      && n in s.db.ex.state
    ensures OwnJob(s.db, j) && JobOk(c, s.db.ex.id, s.db.jobs[j]) && forall k :: k in s.runs ==> OwnJob(s.db, k)
    ensures s.db.jobs[j].state == Queued || j in s.buffer || s.db.jobs[j].state == Leased
  {
    InvTables(c, s);
    RunsOwn(c, s);
    hide Inv, LettersOk, JobOk, Rows;
  }

  lemma ClaimAdvances(c: Settings, s: Sys, j: JobId)
    requires Rows(s.db.ex) && s.starts.Keys == s.db.ex.state.Keys && Inv(c, s) && Agrees(s.db.ex)
    requires !s.db.ex.cancellationRequested && OwnJob(s.db, j) && s.db.jobs[j].state == Queued
    ensures CanAdvance(c, s)
  {
    hide CanAdvance, Inv, Agrees, Rows;
    EnabledAdvances(c, s, Step.Claim(j, 0, 0.0));
  }

  lemma LetterAdvances(c: Settings, s: Sys, j: JobId)
    requires Rows(s.db.ex) && s.starts.Keys == s.db.ex.state.Keys && Inv(c, s) && Agrees(s.db.ex)
    requires !s.db.ex.cancellationRequested && OwnJob(s.db, j) && j in s.buffer
    ensures CanAdvance(c, s)
  {
    hide CanAdvance, Inv, Agrees, Rows;
    EnabledAdvances(c, s, Step.Deliver(j, 0.0));
  }

  /** Unless a dead letter was drained, an execution with an unfinished task can always go on: a claim, a start, an
      answer, a delivery or a reaped lease brings its end nearer. */
  lemma NeverStuck(c: Settings, s: Sys)
    requires Rows(s.db.ex) && s.starts.Keys == s.db.ex.state.Keys && Inv(c, s) && Agrees(s.db.ex)
    requires !s.db.ex.cancellationRequested && s.letters == s.buffer
    ensures AllEnded(s.db.ex.state) || CanAdvance(c, s)
  {
    hide Core, Settled, Agrees, CanAdvance, AllEnded, Rows;
    if Nobody(s) {
      NobodyMeansEnded(c, s);
    } else {
      var n :| Underway(s, n);
      WorkIsOwned(c, s);
      var j: JobId :| Outstanding(s, n, j);
      OwnerAdvances(c, s, n, j);
    }
  }

  // ---- to the end ----

  lemma ProductiveKeepsLetters(c: Settings, s: Sys, step: Step)
    requires Rows(s.db.ex) && s.starts.Keys == s.db.ex.state.Keys && Enabled(s, step) && Productive(step)
    requires s.letters == s.buffer
    ensures Apply(c, s, step).letters == Apply(c, s, step).buffer
  {
    hide Rows, E.Start, E.Finish, HandleDeadLetter, RequeueStale, StepFrame;
  }

  /** What the last state of an uncancelled run is like. */
  lemma LastIsCalm(c: Settings, ex: Execution, t0: Time, states: seq<Sys>, steps: seq<Step>)
    requires IsRun(c, ex, t0, states, steps) && NoCancel(steps)
    ensures |states| == |steps| + 1
    ensures var s := states[|steps|];
      && Rows(s.db.ex) && s.starts.Keys == s.db.ex.state.Keys && Inv(c, s) && Agrees(s.db.ex)
      && !s.db.ex.cancellationRequested && s.db.ex.state != map[]
  {
    hide Inv, Rows, Agrees, Apply, Enabled, Fresh, Spawned, Manned, ViewOf;
    RunKeepsInv(c, ex, t0, states, steps, |steps|);
    UncancelledRun(c, ex, t0, states, steps, |steps|);
    NoCancelNoSweeps(c, ex, t0, states, steps);
    RunAgrees(c, ex, t0, states, steps, |steps|);
    InvStarts(c, states[|steps|]);
  }

  lemma InvStarts(c: Settings, s: Sys)
    requires Inv(c, s)
    ensures Rows(s.db.ex) && s.starts.Keys == s.db.ex.state.Keys && s.db.ex.state != map[]
  {
    OrderMeansStates(c, s);
    hide ViewOk, JobsOk;
  }

  lemma ContinuesTrans(c: Settings, ex: Execution, t0: Time, a: seq<Sys>, p: seq<Step>, b: seq<Sys>, q: seq<Step>,
                       d: seq<Sys>, r: seq<Step>)
    requires Continues(c, ex, t0, a, p, b, q) && Continues(c, ex, t0, b, q, d, r)
    ensures Continues(c, ex, t0, a, p, d, r)
  {
    hide IsRun;
    assert b[..|a|] == d[..|b|][..|a|] == d[..|a|];
    assert q[..|p|] == r[..|q|][..|p|] == r[..|p|];
  }

  ghost predicate ProductiveFrom(steps: seq<Step>, i: nat) {
    forall k :: i <= k < |steps| ==> Productive(steps[k])
  }

  /** Every run without a cancellation and without a drained letter can be continued, by workers and reapers alone and
      without another fault, to one in which all tasks have ended; no more steps are needed than the measure says. */
  lemma {:induction false} CanFinish(c: Settings, ex: Execution, t0: Time, states: seq<Sys>, steps: seq<Step>)
    returns (states': seq<Sys>, steps': seq<Step>)
    requires IsRun(c, ex, t0, states, steps) && NoCancel(steps)
    requires states[|steps|].letters == states[|steps|].buffer
    ensures Continues(c, ex, t0, states, steps, states', steps') && ProductiveFrom(steps', |steps|)
    ensures |states'| == |steps'| + 1 && AllEnded(states'[|steps'|].db.ex.state)
      && Terminal(states'[|steps'|].db.ex.status)
    ensures Rows(states[|steps|].db.ex) && |steps'| - |steps| <= Measure(c, states[|steps|])
    decreases LastMeasure(c, states, steps)
  {
    LastIsCalm(c, ex, t0, states, steps);
    if AllEnded(states[|steps|].db.ex.state) {
      states', steps' := states, steps;
      hide *;
      NothingToDo(c, ex, t0, states, steps);
    } else {
      var step := NextAdvance(c, states[|steps|]);
      hide *;
      var states1, steps1 := OneAhead(c, ex, t0, states, steps, step);
      LastMeasures(c, states, steps, states1, steps1);
      states', steps' := CanFinish(c, ex, t0, states1, steps1);
      ContinuesTrans(c, ex, t0, states, steps, states1, steps1, states', steps');
      StepsAhead(c, ex, t0, states1, steps1, states', steps', |steps|);
    }
  }

  lemma NextAdvance(c: Settings, s: Sys) returns (step: Step)
    requires Rows(s.db.ex) && s.starts.Keys == s.db.ex.state.Keys && Inv(c, s) && Agrees(s.db.ex)
    requires !s.db.ex.cancellationRequested && s.letters == s.buffer && !AllEnded(s.db.ex.state)
    ensures Advances(c, s, step)
  {
    hide Inv, Agrees, Rows, AllEnded, Advances;
    NeverStuck(c, s);
    step :| Advances(c, s, step);
  }

  lemma NothingToDo(c: Settings, ex: Execution, t0: Time, states: seq<Sys>, steps: seq<Step>)
    requires IsRun(c, ex, t0, states, steps) && |states| == |steps| + 1
    requires var e := states[|steps|].db.ex;
      AllEnded(e.state) && Agrees(e) && !e.cancellationRequested && e.state != map[]
    ensures Continues(c, ex, t0, states, steps, states, steps) && ProductiveFrom(steps, |steps|)
    ensures Terminal(states[|steps|].db.ex.status)
  {
    hide IsRun, AllEnded, StatusOf;
    EndedMeansTerminal(states[|steps|].db.ex.state);
    AgreesMeansTerminal(states[|steps|].db.ex);
  }

  lemma LastMeasures(c: Settings, states: seq<Sys>, steps: seq<Step>, states1: seq<Sys>, steps1: seq<Step>)
    requires |states| == |steps| + 1 && |states1| == |steps1| + 1
    requires Rows(states[|steps|].db.ex) && Rows(states1[|steps1|].db.ex)
    requires Measure(c, states1[|steps1|]) < Measure(c, states[|steps|])
    ensures LastMeasure(c, states1, steps1) < LastMeasure(c, states, steps)
    ensures LastMeasure(c, states, steps) == Measure(c, states[|steps|])
      && LastMeasure(c, states1, steps1) == Measure(c, states1[|steps1|])
  {
    hide Measure, Rows;
  }

  ghost function LastMeasure(c: Settings, states: seq<Sys>, steps: seq<Step>): nat {
    if |steps| < |states| && Rows(states[|steps|].db.ex) then Measure(c, states[|steps|]) else 0
  }

  lemma AgreesMeansTerminal(ex: Execution)
    requires Agrees(ex) && !ex.cancellationRequested && Terminal(StatusOf(ex.state, false))
    ensures Terminal(ex.status)
  {
  }

  lemma OneAhead(c: Settings, ex: Execution, t0: Time, states: seq<Sys>, steps: seq<Step>, step: Step)
    returns (states': seq<Sys>, steps': seq<Step>)
    requires IsRun(c, ex, t0, states, steps) && |states| == |steps| + 1 && NoCancel(steps)
    requires Advances(c, states[|steps|], step) && states[|steps|].letters == states[|steps|].buffer
    ensures Continues(c, ex, t0, states, steps, states', steps') && IsRun(c, ex, t0, states', steps')
    ensures |steps'| == |steps| + 1 && |states'| == |states| + 1 && steps'[|steps|] == step && NoCancel(steps')
    ensures var s := states'[|steps'|];
      s.letters == s.buffer && Rows(s.db.ex) && Measure(c, s) < Measure(c, states[|steps|])
  {
    var s' := Apply(c, states[|steps|], step);
    ProductiveKeepsLetters(c, states[|steps|], step);
    AheadRows(c, states[|steps|], step);
    states', steps' := states + [s'], steps + [step];
    hide *;
    StepContinues(c, ex, t0, states, steps, step);
    AheadIs(c, ex, t0, states, steps, step, s');
  }

  lemma AheadRows(c: Settings, s: Sys, step: Step)
    requires Advances(c, s, step)
    ensures Rows(Apply(c, s, step).db.ex) && Measure(c, Apply(c, s, step)) < Measure(c, s) && Productive(step)
  {
    hide Apply, Enabled, Rows, Measure;
  }

  lemma AheadIs(c: Settings, ex: Execution, t0: Time, states: seq<Sys>, steps: seq<Step>, step: Step, s': Sys)
    requires |states| == |steps| + 1 && NoCancel(steps) && Productive(step)
    requires Continues(c, ex, t0, states, steps, states + [s'], steps + [step])
    ensures IsRun(c, ex, t0, states + [s'], steps + [step]) && NoCancel(steps + [step])
    ensures (states + [s'])[|steps + [step]|] == s' && (steps + [step])[|steps|] == step
  {
    hide IsRun;
  }

  lemma StepsAhead(c: Settings, ex: Execution, t0: Time, states1: seq<Sys>, steps1: seq<Step>,
                   states': seq<Sys>, steps': seq<Step>, i: nat)
    requires Continues(c, ex, t0, states1, steps1, states', steps') && ProductiveFrom(steps', |steps1|)
    requires |steps1| == i + 1 && Productive(steps1[i])
    ensures ProductiveFrom(steps', i)
  {
    hide IsRun, Productive;
    assert steps'[..|steps1|][i] == steps1[i];
  }

  /** Together, whatever has changed so far and what is needed to the end stay within the budget of the task list. */
  lemma CanFinishWithinBudget(c: Settings, ex: Execution, t0: Time, states: seq<Sys>, steps: seq<Step>)
    returns (states': seq<Sys>, steps': seq<Step>)
    requires |states| == |steps| + 1 && IsRun(c, ex, t0, states, steps) && NoCancel(steps)
    requires states[|steps|].letters == states[|steps|].buffer
    ensures Continues(c, ex, t0, states, steps, states', steps') && ProductiveFrom(steps', |steps|)
    ensures |states'| == |steps'| + 1 && AllEnded(states'[|steps'|].db.ex.state)
    ensures Rows(ex) && Changes(states, steps, |steps|) + (|steps'| - |steps|) <= Budget(c, ex)
  {
    hide *;
    states', steps' := CanFinish(c, ex, t0, states, steps);
    RunIsBounded(c, ex, t0, states, steps, |steps|);
  }
}
