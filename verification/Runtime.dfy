/** Dead letters in `backend/workers/runtime.py` and the rounds of `backend/services/watchdog_service.py`. */
module Runtime {
  import opened Dag
  import opened Q = QueueRecords
  import opened E = ExecutionState
  import opened JobQueue
  import S = ExecutionService
  import opened Effects
  import T = Timing

  /** The rows after the listed tasks have lost their workers, one after the other. */
  ghost function LostAll(ex: Execution, tasks: seq<Name>, now: Time): (r: Execution)
    ensures Framed(ex, r) && (Rows(ex) ==> Rows(r))
    decreases |tasks|
  {
    if tasks == [] then ex else E.HandleDeadLetter(LostAll(ex, tasks[..|tasks| - 1], now), tasks[|tasks| - 1], now)
  }

  /** Each of the tasks has failed, unless it had succeeded or been skipped; of the others only pending ones fail. */
  predicate AllFailed(st: States, tasks: seq<Name>, st': States) {
    && st'.Keys == st.Keys
    && forall n | n in st ::
         if n in tasks && st[n] !in {Success, Skipped} then st'[n] == Failure
         else st'[n] == st[n] || (st[n] == Pending && st'[n] == Failure)
  }

  lemma {:induction false} LostAllEffect(ex: Execution, tasks: seq<Name>, now: Time)
    ensures AllFailed(ex.state, tasks, LostAll(ex, tasks, now).state)
    decreases |tasks|
  {
    if tasks != [] {
      var front, n := tasks[..|tasks| - 1], tasks[|tasks| - 1];
      assert tasks == front + [n];
      LostAllEffect(ex, front, now);
      var ex1 := LostAll(ex, front, now);
      HandleDeadLetterEffect(ex1, n, now);
      hide E.HandleDeadLetter, AllFailed, LetterHandled;
      FailedOn(ex.state, front, ex1, n, LostAll(ex, tasks, now), now);
    }
  }

  lemma FailedOn(st: States, front: seq<Name>, ex1: Execution, n: Name, r: Execution, now: Time)
    requires AllFailed(st, front, ex1.state) && LetterHandled(ex1, n, r, now)
    ensures AllFailed(st, front + [n], r.state)
  {
    if n in ex1.state && ex1.state[n] in {Pending, Enqueued, Running, Retrying, Stopped} {
      LetterStates(ex1, n, r, now);
    }
    hide LetterHandled;
  }

  lemma LetterStates(ex: Execution, n: Name, r: Execution, now: Time)
    requires n in ex.state && FailedFor(ex, n, r, now)
    ensures r.state.Keys == ex.state.Keys && r.state[n] == Failure
    ensures forall m :: m in ex.state && m != n ==>
      r.state[m] == ex.state[m] || (ex.state[m] == Pending && r.state[m] == Failure)
  {
    hide Refreshed, ClosedUnderFailure;
  }

  predicate InTable(jobs: Jobs, letters: seq<JobId>) {
    forall i | 0 <= i < |letters| :: letters[i] < |jobs|
  }

  function TasksIn(jobs: Jobs, letters: seq<JobId>): seq<Name>
    requires InTable(jobs, letters)
  {
    seq(|letters|, i requires 0 <= i < |letters| => jobs[letters[i]].task)
  }

  /** `_finalize_orphaned_executions`: an unfinished execution without unfinished tasks gets its status. */
  predicate Orphaned(ex: Execution) {
    !Terminal(ex.status) && ex.state != map[] && forall n | n in ex.state :: !Live(ex.state[n])
  }

  /** Hands the letters' tasks to `handle_dead_letter`, in order. */
  method HandleAll(service: S.ExecutionService, tasks: seq<Name>, now: Time)
    requires Rows(service.Row())
    modifies service`state, service`status, service`finishedAt, service`outbox
    ensures Rows(service.Row()) && service.Row() == LostAll(old(service.Row()), tasks, now)
  {
    hide Rows, E.HandleDeadLetter;
    assert tasks[..0] == [];
    for i := 0 to |tasks|
      invariant Rows(service.Row()) && service.Row() == LostAll(old(service.Row()), tasks[..i], now)
    {
      service.HandleDeadLetter(tasks[i], now);
      assert tasks[..i + 1][..i] == tasks[..i];
    }
    assert tasks[..|tasks|] == tasks;
  }

  class WorkerManager {
    const queue: DatabaseJobQueue
    const service: S.ExecutionService

    constructor (queue: DatabaseJobQueue, service: S.ExecutionService)
      requires service.queue == queue
      ensures this.queue == queue && this.service == service
    {
      this.queue, this.service := queue, service;
    }

    /** `_process_dead_letters`: empties the shared buffer and handles everything that was in it. */
    method ProcessDeadLetters(now: Time)
      requires Rows(service.Row()) && InTable(queue.jobs, queue.deadLetterBuffer)
      modifies queue`deadLetterBuffer, service`state, service`status, service`finishedAt, service`outbox
      ensures Rows(service.Row()) && queue.deadLetterBuffer == []
      ensures service.Row() == LostAll(old(service.Row()), TasksIn(old(queue.jobs), old(queue.deadLetterBuffer)), now)
      ensures AllFailed(old(service.state), TasksIn(old(queue.jobs), old(queue.deadLetterBuffer)), service.state)
    {
      LostAllEffect(service.Row(), TasksIn(queue.jobs, queue.deadLetterBuffer), now);
      hide Rows, LostAll, AllFailed;
      var letters := queue.DrainDeadLetters();
      HandleAll(service, TasksIn(queue.jobs, letters), now);
    }
  }

  /** The query of `_reap_hung_tasks`: running tasks whose heartbeat is too old, in row order. */
  predicate IsHung(st: States, beats: map<Name, T.Beat>, l: T.Limits, now: Time, n: Name) {
    n in st && st[n] == Running && n in beats && T.Hung(l, beats[n], now)
  }

  function HungTasks(order: seq<Name>, st: States, beats: map<Name, T.Beat>, l: T.Limits, now: Time): seq<Name> {
    if order == [] then []
    else
      var front, last := HungTasks(order[..|order| - 1], st, beats, l, now), order[|order| - 1];
      if IsHung(st, beats, l, now, last) then front + [last] else front
  }

  lemma {:induction false} HungTasksAre(order: seq<Name>, st: States, beats: map<Name, T.Beat>, l: T.Limits, now: Time)
    ensures forall n :: n in HungTasks(order, st, beats, l, now) <==> n in order && IsHung(st, beats, l, now, n)
    ensures forall n :: n in HungTasks(order, st, beats, l, now) <==>
      n in order && n in st && st[n] == Running && n in beats && T.Silent(l, beats[n], now)
    ensures Distinct(order) ==> Distinct(HungTasks(order, st, beats, l, now))
  {
    forall n ensures IsHung(st, beats, l, now, n) <==>
        n in st && st[n] == Running && n in beats && T.Silent(l, beats[n], now) {
      if n in beats { T.HungMeans(l, beats[n], now); }
    }
    if order != [] {
      HungTasksAre(order[..|order| - 1], st, beats, l, now);
      hide IsHung;
      assert order == order[..|order| - 1] + [order[|order| - 1]];
    }
  }

  /** What a round makes of the rows: the tasks of its letters are failed, then those that hang by then, and an orphaned
      status is repaired. */
  ghost function RoundRows(ex: Execution, lost: seq<Name>, beats: map<Name, T.Beat>, l: T.Limits,
                           now: Time): Execution
  {
    var ex1 := LostAll(ex, lost, now);
    var ex2 := LostAll(ex1, HungTasks(ex1.order, ex1.state, beats, l, now), now);
    if Orphaned(ex2) then Refresh(ex2, now) else ex2
  }

  class WatchdogService {
    const queue: DatabaseJobQueue
    const service: S.ExecutionService
    const limits: T.Limits

    constructor (queue: DatabaseJobQueue, service: S.ExecutionService, limits: T.Limits)
      requires service.queue == queue
      ensures this.queue == queue && this.service == service && this.limits == limits
    {
      this.queue, this.service, this.limits := queue, service, limits;
    }

    /** `_reap_hung_tasks`: reads the hung tasks off the rows, and then fails them one after the other. */
    method ReapHungTasks(now: Time, beats: map<Name, T.Beat>)
      requires Rows(service.Row())
      modifies service`state, service`status, service`finishedAt, service`outbox
      ensures Rows(service.Row())
      ensures service.Row()
        == LostAll(old(service.Row()), HungTasks(service.order, old(service.state), beats, limits, now), now)
      ensures AllFailed(old(service.state), HungTasks(service.order, old(service.state), beats, limits, now),
                        service.state)
    {
      LostAllEffect(service.Row(), HungTasks(service.order, service.state, beats, limits, now), now);
      hide Rows, LostAll, IsHung, AllFailed;
      var stale: seq<Name> := [];
      assert service.order[..0] == [];
      for i := 0 to |service.order|
        invariant service.Row() == old(service.Row())
        invariant stale == HungTasks(service.order[..i], service.state, beats, limits, now)
      {
        assert service.order[..i + 1][..i] == service.order[..i];
        if IsHung(service.state, beats, limits, now, service.order[i]) { stale := stale + [service.order[i]]; }
      }
      assert service.order[..|service.order|] == service.order;
      HandleAll(service, stale, now);
    }

    /** `run_once`; `beats` are the heartbeats on the task rows. What the buffer held before, a worker's reaper put
        there for a worker to handle: it is drained too, and nobody handles it. */
    method RunOnce(now: Time, beats: map<Name, T.Beat>) returns (letters: seq<JobId>)
      requires Rows(service.Row()) && queue == service.queue
      modifies queue`jobs, queue`deadLetterBuffer, service`state, service`status, service`finishedAt, service`outbox
      ensures Rows(service.Row()) && queue.deadLetterBuffer == [] && queue.jobs == RequeueStale(old(queue.jobs), now)
      ensures Distinct(letters) && (forall j: JobId :: j in letters <==> j in DeadLetters(old(queue.jobs), now))
      ensures InTable(old(queue.jobs), letters)
      ensures service.Row() == RoundRows(old(service.Row()), TasksIn(old(queue.jobs), letters), beats, limits, now)
      ensures service.state != map[] && AllAre(service.state, {Success, Skipped, Failure, Stopped}) ==>
        service.status in {StatusSuccess, StatusFailed, StatusCancelled}
    {
      hide Rows, LostAll, Refresh, HungTasks;
      letters := queue.RequeueStaleJobs(now);
      LettersInTable(old(queue.jobs), letters, now);
      SameTasks(old(queue.jobs), letters, now);
      HandleAll(service, TasksIn(queue.jobs, letters), now);
      var _ := queue.DrainDeadLetters();
      ReapHungTasks(now, beats);
      if Orphaned(service.Row()) {
        RefreshRows(service.Row(), now);
        RepairEnds(service.Row(), now);
        service.RefreshExecutionStatus(now);
      }
    }
  }

  /** Without unfinished tasks the status is a final one. */
  lemma RepairEnds(ex: Execution, now: Time)
    requires ex.state != map[] && forall n | n in ex.state :: !Live(ex.state[n])
    ensures Refresh(ex, now).status in {StatusSuccess, StatusFailed, StatusCancelled}
  {
    RefreshEffect(ex, now);
    hide Refresh;
    var status := Refresh(ex, now).status;
    assert StatusFits(status, ex.state, ex.cancellationRequested);
    EndedFits(status, ex.state, ex.cancellationRequested);
  }

  lemma EndedFits(status: ExecutionStatus, st: States, cancelled: bool)
    requires StatusFits(status, st, cancelled) && st != map[] && forall n | n in st :: !Live(st[n])
    ensures status in {StatusSuccess, StatusFailed, StatusCancelled}
  {
  }

  lemma RefreshRows(ex: Execution, now: Time)
    requires Rows(ex)
    ensures Rows(Refresh(ex, now))
  {
    hide StatusOf;
  }

  lemma LettersInTable(jobs: Jobs, letters: seq<JobId>, now: Time)
    requires forall j: JobId :: j in letters <==> j in DeadLetters(jobs, now)
    ensures InTable(jobs, letters)
  {
    forall i | 0 <= i < |letters| ensures letters[i] < |jobs| { assert letters[i] in letters; }
  }

  lemma SameTasks(jobs: Jobs, letters: seq<JobId>, now: Time)
    requires InTable(jobs, letters)
    ensures InTable(RequeueStale(jobs, now), letters)
      && TasksIn(RequeueStale(jobs, now), letters) == TasksIn(jobs, letters)
  {
  }
}
