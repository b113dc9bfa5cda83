/** How many tasks of one workflow can be leased at once, when claims interleave. */
module ClaimLimit {
  import opened QueueRecords
  import opened JobQueue
  import opened QueueTrace

  /** The table, and the workers whose select has returned a row that they have not updated yet. */
  datatype Claimers = Claimers(jobs: Jobs, pending: map<WorkerId, JobId>)

  datatype Move =
    | Select(worker: WorkerId, j: JobId, now: Time, skipped: set<JobId>)
    | Update(worker: WorkerId, now: Time)
    | Abandon(worker: WorkerId)
    | Other(op: Op)

  /** The rows other claimers have selected. A select may skip any rows, those that other transactions have locked. */
  function Locked(s: Claimers): set<JobId> { s.pending.Values }

  predicate CanMove(q: QueueSettings, workers: set<WorkerId>, s: Claimers, m: Move) {
    match m
    case Select(w, j, now, skipped) => w in workers && w !in s.pending && Selected(q, s.jobs, now, skipped, j)
    case Update(w, _) => w in s.pending && s.pending[w] < |s.jobs|
    case Abandon(w) => w in s.pending
    case Other(op) => !op.OpClaim? && Possible(s.jobs, op)
  }

  function Moved(q: QueueSettings, s: Claimers, m: Move): Claimers
    requires (m.Update? ==> m.worker in s.pending && s.pending[m.worker] < |s.jobs|)
      && (m.Other? ==> Possible(s.jobs, m.op))
  {
    match m
    case Select(w, j, _, _) => s.(pending := s.pending[w := j])
    case Update(w, now) => Claimers(Claim(s.jobs, s.pending[w], w, now, q.leaseSeconds), s.pending - {w})
    case Abandon(w) => s.(pending := s.pending - {w})
    case Other(op) => s.(jobs := After(s.jobs, op, q.leaseSeconds))
  }

  /** The workers about to update a job of the workflow. */
  function Claiming(s: Claimers, workflow: WorkflowId): set<WorkerId> {
    set w | w in s.pending && s.pending[w] < |s.jobs| && s.jobs[s.pending[w]].workflow == workflow
  }

  /** Leased jobs and pending updates together stay below the limit plus the number of workers. */
  ghost predicate Bounded(q: QueueSettings, workers: set<WorkerId>, s: Claimers, workflow: WorkflowId) {
    && (forall w :: w in s.pending ==> w in workers && s.pending[w] < |s.jobs|)
    && (LeasedFor(s.jobs, workflow) != {} || Claiming(s, workflow) != {} ==>
          |LeasedFor(s.jobs, workflow)| + |Claiming(s, workflow)| <= q.maxPerWorkflow + |workers| - 1)
  }

  lemma SelectBounded(q: QueueSettings, workers: set<WorkerId>, s: Claimers, m: Move, workflow: WorkflowId)
    requires Bounded(q, workers, s, workflow) && m.Select? && CanMove(q, workers, s, m)
    ensures Bounded(q, workers, Moved(q, s, m), workflow)
  {
    var s' := Moved(q, s, m);
    hide Before;
    assert Claiming(s', workflow) <= workers;
    Subset(Claiming(s', workflow), workers);
    if s.jobs[m.j].workflow != workflow {
      assert Claiming(s', workflow) == Claiming(s, workflow);
    }
  }

  lemma Subset<T>(a: set<T>, b: set<T>)
    requires a <= b
    ensures |a| <= |b|
    decreases b
  {
    if a != {} {
      var x :| x in a;
      Subset(a - {x}, b - {x});
    }
  }

  lemma UpdateBounded(q: QueueSettings, workers: set<WorkerId>, s: Claimers, m: Move, workflow: WorkflowId)
    requires Bounded(q, workers, s, workflow) && m.Update? && CanMove(q, workers, s, m)
    ensures Bounded(q, workers, Moved(q, s, m), workflow)
  {
    hide Selected, Before, Locked;
    var s', j := Moved(q, s, m), s.pending[m.worker];
    var leased, leased' := LeasedFor(s.jobs, workflow), LeasedFor(s'.jobs, workflow);
    assert forall k :: 0 <= k < |s.jobs| ==> s'.jobs[k].workflow == s.jobs[k].workflow;
    assert Claiming(s', workflow) == Claiming(s, workflow) - {m.worker};
    UpdateLeases(s.jobs, j, m.worker, m.now, q.leaseSeconds, workflow);
    hide LeasedFor, Claim;
    if s.jobs[j].workflow == workflow {
      assert m.worker in Claiming(s, workflow);
      Subset(leased', leased + {j});
    } else {
      Subset(Claiming(s', workflow), Claiming(s, workflow));
    }
  }

  lemma UpdateLeases(jobs: Jobs, j: JobId, worker: WorkerId, now: Time, lease: Time, workflow: WorkflowId)
    requires j < |jobs|
    ensures LeasedFor(Claim(jobs, j, worker, now, lease), workflow) <= LeasedFor(jobs, workflow) + {j}
    ensures jobs[j].workflow != workflow ==>
      LeasedFor(Claim(jobs, j, worker, now, lease), workflow) == LeasedFor(jobs, workflow)
  {
  }

  lemma OtherLeasesNothing(jobs: Jobs, op: Op, lease: Time, j: JobId)
    requires !op.OpClaim? && Possible(jobs, op) && j < |After(jobs, op, lease)| && (op.OpEnqueue? ==> NewRow(op.job))
    ensures After(jobs, op, lease)[j].state == Leased ==> j < |jobs| && jobs[j].state == Leased
    ensures j < |jobs| ==> After(jobs, op, lease)[j].workflow == jobs[j].workflow
    ensures |jobs| <= |After(jobs, op, lease)|
  {
  }

  lemma OtherBounded(q: QueueSettings, workers: set<WorkerId>, s: Claimers, m: Move, workflow: WorkflowId)
    requires Bounded(q, workers, s, workflow) && m.Other? && CanMove(q, workers, s, m)
    ensures Bounded(q, workers, Moved(q, s, m), workflow)
  {
    var s' := Moved(q, s, m);
    forall j: JobId | j < |s'.jobs|
      ensures s'.jobs[j].state == Leased ==> j < |s.jobs| && s.jobs[j].state == Leased
      ensures j < |s.jobs| ==> s'.jobs[j].workflow == s.jobs[j].workflow
      ensures |s.jobs| <= |s'.jobs|
    {
      OtherLeasesNothing(s.jobs, m.op, q.leaseSeconds, j);
    }
    OpGrows(s.jobs, m.op, q.leaseSeconds);
    hide After, Possible;
    assert LeasedFor(s'.jobs, workflow) <= LeasedFor(s.jobs, workflow);
    Subset(LeasedFor(s'.jobs, workflow), LeasedFor(s.jobs, workflow));
    assert Claiming(s', workflow) == Claiming(s, workflow);
  }

  /** A claim that fails between its statements leaves the table as it is. */
  lemma AbandonBounded(q: QueueSettings, workers: set<WorkerId>, s: Claimers, m: Move, workflow: WorkflowId)
    requires Bounded(q, workers, s, workflow) && m.Abandon? && CanMove(q, workers, s, m)
    ensures Bounded(q, workers, Moved(q, s, m), workflow)
  {
    var s' := Moved(q, s, m);
    assert Claiming(s', workflow) <= Claiming(s, workflow);
    Subset(Claiming(s', workflow), Claiming(s, workflow));
    hide LeasedFor;
  }

  lemma OpGrows(jobs: Jobs, op: Op, lease: Time)
    requires Possible(jobs, op)
    ensures |jobs| <= |After(jobs, op, lease)|
  {
  }

  ghost predicate Interleaving(q: QueueSettings, workers: set<WorkerId>, states: seq<Claimers>, moves: seq<Move>) {
    && |states| == |moves| + 1 && states[0] == Claimers([], map[])
    && forall i :: 0 <= i < |moves| ==> Takes(q, workers, states[i], moves[i], states[i + 1])
  }

  ghost predicate Takes(q: QueueSettings, workers: set<WorkerId>, s: Claimers, m: Move, s': Claimers) {
    CanMove(q, workers, s, m) && s' == Moved(q, s, m)
  }

  lemma {:induction false} InterleavingBounded(q: QueueSettings, workers: set<WorkerId>, states: seq<Claimers>,
      moves: seq<Move>, i: nat, workflow: WorkflowId)
    requires Interleaving(q, workers, states, moves) && i < |states|
    ensures Bounded(q, workers, states[i], workflow)
  {
    hide CanMove, Moved, Bounded;
    if i == 0 {
      NothingBounded(q, workers, workflow);
    } else {
      InterleavingBounded(q, workers, states, moves, i - 1, workflow);
      assert Takes(q, workers, states[i - 1], moves[i - 1], states[i]);
      match moves[i - 1]
      case Select(_, _, _, _) => SelectBounded(q, workers, states[i - 1], moves[i - 1], workflow);
      case Update(_, _) => UpdateBounded(q, workers, states[i - 1], moves[i - 1], workflow);
      case Abandon(_) => AbandonBounded(q, workers, states[i - 1], moves[i - 1], workflow);
      case Other(_) => OtherBounded(q, workers, states[i - 1], moves[i - 1], workflow);
    }
  }

  lemma NothingBounded(q: QueueSettings, workers: set<WorkerId>, workflow: WorkflowId)
    ensures Bounded(q, workers, Claimers([], map[]), workflow)
  {
  }

  /** With `W` claiming workers, however their selects and updates interleave with each other and with everything else
      the queue does, a workflow never has more than its limit plus `W - 1` leased jobs. */
  lemma SplitClaimLimit(q: QueueSettings, workers: set<WorkerId>, states: seq<Claimers>, moves: seq<Move>, i: nat,
                        workflow: WorkflowId)
    requires Interleaving(q, workers, states, moves) && i < |states|
    ensures LeasedFor(states[i].jobs, workflow) == {}
      || |LeasedFor(states[i].jobs, workflow)| <= q.maxPerWorkflow + |workers| - 1
  {
    InterleavingBounded(q, workers, states, moves, i, workflow);
  }

  // ---- atomic claims ----

  /** Every select is followed at once by its update, or abandoned. */
  ghost predicate Atomic(moves: seq<Move>) {
    forall i :: 0 <= i < |moves| && moves[i].Select? ==> i + 1 == |moves| || EndsClaim(moves[i + 1], moves[i].worker)
  }

  predicate EndsClaim(m: Move, worker: WorkerId) {
    (m.Update? || m.Abandon?) && m.worker == worker
  }

  /** Between two claims nobody is claiming, and the workflow is within its limit. */
  ghost predicate AtRest(q: QueueSettings, s: Claimers, workflow: WorkflowId) {
    s.pending == map[] && |LeasedFor(s.jobs, workflow)| <= q.maxPerWorkflow
  }

  ghost predicate AtSelect(q: QueueSettings, s: Claimers, workflow: WorkflowId, m: Move) {
    && m.Select? && s.pending == map[m.worker := m.j] && m.j < |s.jobs|
    && |LeasedFor(s.jobs, workflow)| <= q.maxPerWorkflow
    && (s.jobs[m.j].workflow == workflow ==> |LeasedFor(s.jobs, workflow)| < q.maxPerWorkflow)
  }

  lemma AtomicMove(q: QueueSettings, workers: set<WorkerId>, s: Claimers, m: Move, workflow: WorkflowId)
    requires CanMove(q, workers, s, m) && AtRest(q, s, workflow)
    ensures if m.Select? then AtSelect(q, Moved(q, s, m), workflow, m) else AtRest(q, Moved(q, s, m), workflow)
  {
    hide Before;
    if m.Other? {
      var s' := Moved(q, s, m);
      forall j: JobId | j < |s'.jobs|
        ensures s'.jobs[j].state == Leased ==> j < |s.jobs| && s.jobs[j].state == Leased
        ensures j < |s.jobs| ==> s'.jobs[j].workflow == s.jobs[j].workflow
      {
        OtherLeasesNothing(s.jobs, m.op, q.leaseSeconds, j);
      }
      hide After, Possible;
      assert LeasedFor(s'.jobs, workflow) <= LeasedFor(s.jobs, workflow);
      Subset(LeasedFor(s'.jobs, workflow), LeasedFor(s.jobs, workflow));
    }
  }

  lemma AtomicUpdate(q: QueueSettings, s: Claimers, select: Move, m: Move, workflow: WorkflowId)
    requires AtSelect(q, s, workflow, select) && EndsClaim(m, select.worker)
    ensures m.worker in s.pending && s.pending[m.worker] < |s.jobs| && AtRest(q, Moved(q, s, m), workflow)
  {
    var s' := Moved(q, s, m);
    if m.Abandon? {
      assert s'.pending == map[];
      return;
    }
    assert forall k :: 0 <= k < |s.jobs| ==> s'.jobs[k].workflow == s.jobs[k].workflow;
    assert s'.pending == map[];
    assert LeasedFor(s'.jobs, workflow) <= LeasedFor(s.jobs, workflow) + {select.j};
    Subset(LeasedFor(s'.jobs, workflow), LeasedFor(s.jobs, workflow) + {select.j});
    if s.jobs[select.j].workflow != workflow { assert LeasedFor(s'.jobs, workflow) == LeasedFor(s.jobs, workflow); }
  }

  lemma {:induction false} AtomicStates(q: QueueSettings, workers: set<WorkerId>, states: seq<Claimers>,
                                        moves: seq<Move>, i: nat, workflow: WorkflowId)
    requires Interleaving(q, workers, states, moves) && Atomic(moves) && i < |states|
    ensures if i > 0 && moves[i - 1].Select? then AtSelect(q, states[i], workflow, moves[i - 1])
      else AtRest(q, states[i], workflow)
  {
    if i > 0 {
      hide CanMove, Moved, AtRest, AtSelect;
      AtomicStates(q, workers, states, moves, i - 1, workflow);
      assert Takes(q, workers, states[i - 1], moves[i - 1], states[i]);
      if i > 1 && moves[i - 2].Select? {
        AtomicUpdate(q, states[i - 1], moves[i - 2], moves[i - 1], workflow);
      } else {
        AtomicMove(q, workers, states[i - 1], moves[i - 1], workflow);
      }
    }
  }

  /** When a claim is one step, the limit itself holds. */
  lemma AtomicClaimLimit(q: QueueSettings, workers: set<WorkerId>, states: seq<Claimers>, moves: seq<Move>, i: nat,
                         workflow: WorkflowId)
    requires Interleaving(q, workers, states, moves) && Atomic(moves) && i < |states|
    ensures |LeasedFor(states[i].jobs, workflow)| <= q.maxPerWorkflow
  {
    AtomicStates(q, workers, states, moves, i, workflow);
  }

  // ---- the bound is reached ----

  ghost predicate Reachable(q: QueueSettings, workers: set<WorkerId>, s: Claimers) {
    exists states: seq<Claimers>, moves: seq<Move> :: Interleaving(q, workers, states, moves) && states[|moves|] == s
  }

  lemma ReachableMove(q: QueueSettings, workers: set<WorkerId>, s: Claimers, m: Move)
    requires Reachable(q, workers, s) && CanMove(q, workers, s, m)
    ensures Reachable(q, workers, Moved(q, s, m))
  {
    var states: seq<Claimers>, moves: seq<Move> :| Interleaving(q, workers, states, moves) && states[|moves|] == s;
    var states', moves' := states + [Moved(q, s, m)], moves + [m];
    hide CanMove, Moved;
    forall i | 0 <= i < |moves'| ensures Takes(q, workers, states'[i], moves'[i], states'[i + 1]) {
      if i < |moves| { assert Takes(q, workers, states[i], moves[i], states[i + 1]); }
    }
    assert Interleaving(q, workers, states', moves') && states'[|moves'|] == Moved(q, s, m);
  }

  function PlainRow(): Job {
    Job(0, 0, 0, 0, 0, 0.0, 0.0, 0, 0, 1, false, Queued, None, None, None, None)
  }

  /** `n` like jobs of which the first `leased` are leased; workers `from <= w < to` have selected one each of the
      next. */
  ghost predicate Lined(s: Claimers, n: nat, leased: nat, from: nat, to: nat) {
    && |s.jobs| == n && leased <= n && from <= to && leased + (to - from) <= n
    && (forall j :: 0 <= j < leased ==> s.jobs[j].state == Leased && s.jobs[j].workflow == 0)
    && (forall j :: leased <= j < n ==> s.jobs[j] == PlainRow())
    && (forall w: WorkerId :: w in s.pending <==> from <= w < to)
    && (forall w: WorkerId :: w in s.pending ==> s.pending[w] == leased + (w - from))
  }

  lemma LinedLeases(s: Claimers, n: nat, leased: nat, from: nat, to: nat)
    requires Lined(s, n, leased, from, to)
    ensures |LeasedFor(s.jobs, 0)| == leased
  {
    assert LeasedFor(s.jobs, 0) == Below(leased);
  }

  function Below(n: nat): (r: set<nat>)
    ensures |r| == n && forall k: nat :: k in r <==> k < n
  {
    if n == 0 then {} else Below(n - 1) + {n - 1}
  }

  lemma {:induction false} LineUp(q: QueueSettings, workers: set<WorkerId>, n: nat) returns (s: Claimers)
    ensures Reachable(q, workers, s) && Lined(s, n, 0, 0, 0)
  {
    if n == 0 {
      s := Claimers([], map[]);
      var moves: seq<Move> := [];
      assert Interleaving(q, workers, [s], moves) && [s][|moves|] == s;
    } else {
      var t := LineUp(q, workers, n - 1);
      var m := Other(OpEnqueue(PlainRow()));
      ReachableMove(q, workers, t, m);
      s := Moved(q, t, m);
    }
  }

  lemma NextSelected(q: QueueSettings, s: Claimers, n: nat, leased: nat, from: nat, to: nat)
    requires Lined(s, n, leased, from, to) && leased < q.maxPerWorkflow && leased + (to - from) < n
    ensures Selected(q, s.jobs, 0.0, Locked(s), leased + (to - from))
  {
    LinedLeases(s, n, leased, from, to);
    var j: JobId := leased + (to - from);
    assert j !in Locked(s);
    hide LeasedFor;
    forall k: JobId | k < |s.jobs| && Eligible(q, s.jobs, 0.0, k) ensures !Before(q, 0.0, s.jobs[k], s.jobs[j]) {
      assert s.jobs[k] == PlainRow() && s.jobs[j] == PlainRow();
    }
  }

  /** The next worker's select, while the workflow is below its limit. */
  lemma SelectNext(q: QueueSettings, workers: set<WorkerId>, s: Claimers, n: nat, leased: nat, from: nat, to: nat)
    returns (s': Claimers)
    requires Reachable(q, workers, s) && Lined(s, n, leased, from, to) && leased < q.maxPerWorkflow
      && leased + (to - from) < n && to in workers
    ensures Reachable(q, workers, s') && Lined(s', n, leased, from, to + 1)
  {
    NextSelected(q, s, n, leased, from, to);
    var m := Select(to, leased + (to - from), 0.0, Locked(s));
    ReachableMove(q, workers, s, m);
    s' := Moved(q, s, m);
  }

  /** The first waiting worker's update succeeds whatever the others have leased meanwhile. */
  lemma UpdateFirst(q: QueueSettings, workers: set<WorkerId>, s: Claimers, n: nat, leased: nat, from: nat, to: nat)
    returns (s': Claimers)
    requires Reachable(q, workers, s) && Lined(s, n, leased, from, to) && from < to
    ensures Reachable(q, workers, s') && Lined(s', n, leased + 1, from + 1, to)
  {
    var m := Update(from, 0.0);
    ReachableMove(q, workers, s, m);
    s' := Moved(q, s, m);
    assert s.pending[from] == leased && s.jobs[leased] == PlainRow();
  }

  lemma {:induction false} SelectAll(q: QueueSettings, workers: set<WorkerId>, s: Claimers, n: nat, leased: nat,
                                     to: nat, w: nat) returns (s': Claimers)
    requires Reachable(q, workers, s) && Lined(s, n, leased, 0, to) && leased < q.maxPerWorkflow && to <= w
      && leased + w <= n
    requires workers == Below(w)
    ensures Reachable(q, workers, s') && Lined(s', n, leased, 0, w)
    decreases w - to
  {
    hide Lined, Reachable;
    if to == w {
      s' := s;
    } else {
      var t := SelectNext(q, workers, s, n, leased, 0, to);
      s' := SelectAll(q, workers, t, n, leased, to + 1, w);
    }
  }

  lemma {:induction false} UpdateAll(q: QueueSettings, workers: set<WorkerId>, s: Claimers, n: nat, leased: nat,
                                     from: nat, to: nat) returns (s': Claimers)
    requires Reachable(q, workers, s) && from <= to && Lined(s, n, leased, from, to)
    ensures Reachable(q, workers, s') && Lined(s', n, leased + (to - from), to, to)
    decreases if from <= to then to - from else 0
  {
    if from == to {
      s' := s;
    } else {
      hide Lined, Reachable;
      var t := UpdateFirst(q, workers, s, n, leased, from, to);
      s' := UpdateAll(q, workers, t, n, leased + 1, from + 1, to);
    }
  }

  lemma {:induction false} FillUp(q: QueueSettings, workers: set<WorkerId>, n: nat, leased: nat) returns (s: Claimers)
    requires leased < q.maxPerWorkflow && leased <= n && 0 in workers
    ensures Reachable(q, workers, s) && Lined(s, n, leased, 0, 0)
    decreases leased
  {
    if leased == 0 {
      s := LineUp(q, workers, n);
    } else {
      var t := FillUp(q, workers, n, leased - 1);
      hide Reachable;
      var u := SelectNext(q, workers, t, n, leased - 1, 0, 0);
      var v := UpdateFirst(q, workers, u, n, leased - 1, 0, 1);
      s := v;
      assert s.pending == map[];
    }
  }

  /** The bound is exact: for every limit and every number of workers some interleaving leases that many jobs of one
      workflow. A second worker is enough to exceed the limit itself. */
  lemma SplitClaimLimitIsReached(q: QueueSettings, w: nat) returns (s: Claimers)
    requires q.maxPerWorkflow >= 1 && w >= 1
    ensures Reachable(q, Below(w), s) && |LeasedFor(s.jobs, 0)| == q.maxPerWorkflow + w - 1
  {
    var workers := Below(w);
    var n := q.maxPerWorkflow - 1 + w;
    hide Lined, Reachable;
    var a := FillUp(q, workers, n, q.maxPerWorkflow - 1);
    var b := SelectAll(q, workers, a, n, q.maxPerWorkflow - 1, 0, w);
    s := UpdateAll(q, workers, b, n, q.maxPerWorkflow - 1, 0, w);
    LinedLeases(s, n, n, w, w);
  }
}
