/** No execution gets stuck. */
module EngineQuiet {
  import opened Dag
  import opened Q = QueueRecords
  import opened E = ExecutionState
  import opened Engine
  import opened EngineInv
  import opened EngineStatus
  import opened EngineSafety

  // ---- no stuck execution ----

  /** Nothing is queued or leased any more. */
  ghost predicate QueueEmpty(jobs: Jobs) { forall j :: 0 <= j < |jobs| ==> !Active(jobs[j]) }

  predicate Ended(x: TaskState) { x == Success || x == Failure || x == Skipped }

  ghost predicate AllEnded(st: States) { forall n :: n in st ==> Ended(st[n]) }

  ghost predicate Nobody(s: Sys) { forall n :: !Underway(s, n) }

  /** A queued or running task waits for a dead letter at least. */
  lemma UnderwayHasLetter(c: Settings, s: Sys, n: Name)
    requires Core(c, s) && !s.db.ex.cancellationRequested && QueueEmpty(s.db.jobs) && Underway(s, n)
    ensures exists j :: j in s.letters && j < |s.db.jobs| && s.db.jobs[j].task == n
  {
    hide Core;
    WorkIsOwned(c, s);
    var j: JobId :| Outstanding(s, n, j);
  }

  lemma PendingHasPendingDep(g: Graph, st: States, n: Name)
    requires Settled(g, st) && Known(g) && st.Keys == g.Keys && n in st && st[n] == Pending
    ensures exists d :: d in g[n] && d in st && !Satisfied(st[d]) && st[d] != Failure
  {
    assert !SomeDep(g, st, n, Failure) && !Ready(g, st, n);
  }

  /** Acyclicity rules out pending tasks that only wait for each other. */
  lemma NothingPending(g: Graph, st: States)
    requires Settled(g, st) && Known(g) && Acyclic(g) && st.Keys == g.Keys
    requires forall n :: n in st ==> st[n] == Pending || Ended(st[n])
    ensures AllEnded(st)
  {
    hide Settled, Acyclic, Known;
    var pending := set n | n in st && st[n] == Pending;
    assert forall n :: n in st && n !in pending ==> Ended(st[n]);
    if pending != {} {
      forall n | n in pending ensures WaitsFor(g, pending, n) {
        PendingHasPendingDep(g, st, n);
        var d :| d in g[n] && d in st && !Satisfied(st[d]) && st[d] != Failure;
        assert d in pending;
      }
      MutualWaitIsCycle(g, pending);
      assert false;
    }
  }

  lemma NobodyMeansEnded(c: Settings, s: Sys)
    requires Inv(c, s) && !s.db.ex.cancellationRequested && Nobody(s)
    ensures AllEnded(s.db.ex.state)
  {
    hide Inv, Known, Acyclic, CaredFor, Settled, Rows, Distinct;
    CalmFacts(c, s);
    forall n | n in s.db.ex.state ensures s.db.ex.state[n] == Pending || Ended(s.db.ex.state[n]) {
      assert !Underway(s, n);
    }
    NothingPending(s.db.ex.graph, s.db.ex.state);
  }

  /** Without a cancellation: once nothing is queued or leased and every dead letter is handled, every task has ended
      and so has the execution. */
  lemma QuietMeansFinished(c: Settings, s: Sys)
    requires Inv(c, s) && !s.db.ex.cancellationRequested && Agrees(s.db.ex)
    requires QueueEmpty(s.db.jobs) && s.letters == {}
    ensures AllEnded(s.db.ex.state) && Terminal(s.db.ex.status)
  {
    hide Core, Settled, QueueEmpty, AllEnded, StatusOf;
    forall n ensures !Underway(s, n) {
      if Underway(s, n) { UnderwayHasLetter(c, s, n); }
    }
    NobodyMeansEnded(c, s);
    OrderMeansStates(c, s);
    EndedMeansTerminal(s.db.ex.state);
  }

  lemma EndedMeansTerminal(st: States)
    requires st != map[] && AllEnded(st)
    ensures StatusOf(st, false) == if Any(st, Failure) then StatusFailed else StatusSuccess
  {
  }

  /** The letters that would still matter if they were delivered. */
  ghost predicate Strands(s: Sys) {
    exists j :: j in s.letters && j < |s.db.jobs| && Underway(s, s.db.jobs[j].task)
  }

  /** The watchdog drains dead letters from memory without handling them. With the queue empty, every task has ended
      exactly when none of the unhandled letters belongs to a task still counted as queued or running. */
  lemma DrainedLettersStrand(c: Settings, s: Sys)
    requires Inv(c, s) && !s.db.ex.cancellationRequested && QueueEmpty(s.db.jobs)
    ensures AllEnded(s.db.ex.state) <==> !Strands(s)
  {
    hide Core, Settled, QueueEmpty;
    if !Strands(s) {
      forall n ensures !Underway(s, n) {
        if Underway(s, n) { UnderwayHasLetter(c, s, n); }
      }
      NobodyMeansEnded(c, s);
    }
  }
}
