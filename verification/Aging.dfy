/** Priority aging: a job that has waited long enough is overtaken only boundedly often. */
module Aging {
  import opened Sums
  import opened QueueRecords
  import opened JobQueue
  import opened QueueTrace
  import opened ClaimLimit

  // ---- claims in two statements, with row locks ----

  /** Selected rows stay locked until their claim ends: each has one claimer and is still queued. */
  ghost predicate LocksHold(s: Claimers) {
    && (forall w :: w in s.pending ==> s.pending[w] < |s.jobs| && s.jobs[s.pending[w]].state == Queued)
    && (forall v, w :: v in s.pending && w in s.pending && s.pending[v] == s.pending[w] ==> v == w)
  }

  /** The move respects the row locks. */
  predicate Respects(q: QueueSettings, s: Claimers, m: Move) {
    match m
    case Select(_, j, _, _) => j !in Locked(s)
    case Other(op) => Possible(s.jobs, op) && forall w | w in s.pending ::
      Untouched(s.jobs, After(s.jobs, op, q.leaseSeconds), s.pending[w])
    case _ => true
  }

  predicate Untouched(jobs: Jobs, jobs': Jobs, j: JobId) {
    j < |jobs| && j < |jobs'| && jobs'[j] == jobs[j]
  }

  /** The move falls into the aging window that begins at `t`; new jobs become available when they are enqueued or
      later. */
  predicate InWindow(q: QueueSettings, t: Time, m: Move) {
    match m
    case Select(_, _, now, _) => t <= now < t + q.agingSeconds
    case Other(OpEnqueue(job)) => t <= job.availableAt
    case Other(OpReplay(_, _, now)) => t <= now
    case _ => true
  }

  /** The select takes another job although `x`, aged by `t`, could have been taken. */
  predicate PassesOver(q: QueueSettings, jobs: Jobs, m: Move, t: Time, x: JobId) {
    && m.Select? && m.j != x && x !in m.skipped
    && Eligible(q, jobs, m.now, x) && jobs[x].availableAt <= t - q.agingSeconds
  }

  /** Whoever overtakes an aged job is aged itself. */
  lemma OvertakerIsAged(q: QueueSettings, jobs: Jobs, m: Move, t: Time, x: JobId)
    requires PassesOver(q, jobs, m, t, x) && Selected(q, jobs, m.now, m.skipped, m.j) && InWindow(q, t, m)
    ensures jobs[m.j].availableAt < t && jobs[m.j].state == Queued
  {
    assert !Before(q, m.now, jobs[x], jobs[m.j]);
  }

  // ---- what is left to claim ----

  /** How often a job that was available before `t` can still be claimed. */
  function Remaining(job: Job, t: Time): nat {
    if job.availableAt < t && Active(job) && job.attempts <= job.maxAttempts then job.maxAttempts - job.attempts else 0
  }

  function Remainders(jobs: Jobs, t: Time): seq<nat> {
    seq(|jobs|, i requires 0 <= i < |jobs| => Remaining(jobs[i], t))
  }

  function Potential(jobs: Jobs, t: Time): nat { Total(Remainders(jobs, t)) }

  lemma ClaimUses(jobs: Jobs, j: JobId, worker: WorkerId, now: Time, lease: Time, t: Time)
    requires j < |jobs| && jobs[j].state == Queued && RecordsOk(jobs)
    ensures Potential(Claim(jobs, j, worker, now, lease), t) + (if jobs[j].availableAt < t then 1
      else 0) <= Potential(jobs, t)
  {
    var jobs' := Claim(jobs, j, worker, now, lease);
    assert RecordOk(jobs[j]);
    var w, w' := Remainders(jobs, t), Remainders(jobs', t);
    forall i | 0 <= i < |w| ensures w'[i] <= w[i] {}
    TotalDrops(w, w', j, if jobs[j].availableAt < t then 1 else 0);
  }

  lemma OtherUses(jobs: Jobs, op: Op, lease: Time, t: Time)
    requires !op.OpClaim? && Possible(jobs, op) && RecordsOk(jobs)
    requires (op.OpEnqueue? ==> t <= op.job.availableAt) && (op.OpReplay? ==> t <= op.now)
    ensures Potential(After(jobs, op, lease), t) <= Potential(jobs, t)
  {
    var jobs' := After(jobs, op, lease);
    var w, w' := Remainders(jobs, t), Remainders(jobs', t);
    if op.OpEnqueue? {
      assert w' == w + [0];
      TotalAppend(w, 0);
    } else {
      forall i | 0 <= i < |w| ensures |jobs'| == |jobs| && w'[i] <= w[i] {
        assert RecordOk(jobs[i]);
        OtherRow(jobs, op, lease, t, i);
      }
      TotalLe(w, w');
    }
  }

  lemma OtherRow(jobs: Jobs, op: Op, lease: Time, t: Time, i: JobId)
    requires Possible(jobs, op) && !op.OpClaim? && !op.OpEnqueue? && (op.OpReplay? ==> t <= op.now) && i < |jobs|
    requires RecordOk(jobs[i])
    ensures |After(jobs, op, lease)| == |jobs| && Remaining(After(jobs, op, lease)[i], t) <= Remaining(jobs[i], t)
  {
  }

  // ---- a window of moves ----

  ghost predicate Window(q: QueueSettings, workers: set<WorkerId>, t: Time, states: seq<Claimers>, moves: seq<Move>) {
    && |states| == |moves| + 1 && RecordsOk(states[0].jobs) && LocksHold(states[0])
    && forall i :: 0 <= i < |moves| ==> Made(q, workers, t, states[i], moves[i], states[i + 1])
  }

  ghost predicate Made(q: QueueSettings, workers: set<WorkerId>, t: Time, s: Claimers, m: Move, s': Claimers) {
    Takes(q, workers, s, m, s') && Respects(q, s, m) && InWindow(q, t, m)
  }

  /** The worker's pending select passed over `x`; one made before the window opened is held against it. */
  predicate Passed(q: QueueSettings, t: Time, states: seq<Claimers>, moves: seq<Move>, x: JobId, i: nat, w: WorkerId)
    requires |states| == |moves| + 1 && i <= |moves|
  {
    if i == 0 then true
    else if moves[i - 1].Select? && moves[i - 1].worker == w then PassesOver(q, states[i - 1].jobs, moves[i - 1], t, x)
    else Passed(q, t, states, moves, x, i - 1, w)
  }

  /** Move `i` leases another job after its select passed over `x`. */
  predicate Overtakes(q: QueueSettings, t: Time, states: seq<Claimers>, moves: seq<Move>, x: JobId, i: nat)
    requires |states| == |moves| + 1 && i < |moves|
  {
    && moves[i].Update? && moves[i].worker in states[i].pending && states[i].pending[moves[i].worker] != x
    && Passed(q, t, states, moves, x, i, moves[i].worker)
  }

  /** How many of the first `i` moves overtake `x`. */
  function Overtakings(q: QueueSettings, t: Time, states: seq<Claimers>, moves: seq<Move>, x: JobId, i: nat): nat
    requires |states| == |moves| + 1 && i <= |moves|
  {
    if i == 0 then 0
    else Overtakings(q, t, states, moves, x, i - 1) + if Overtakes(q, t, states, moves, x, i - 1) then 1 else 0
  }

  /** The workers whose select was pending when the window opened and has not ended since. */
  function Early(states: seq<Claimers>, moves: seq<Move>, i: nat): set<WorkerId>
    requires |states| == |moves| + 1 && i <= |moves|
  {
    if i == 0 then states[0].pending.Keys
    else if moves[i - 1].Update? || moves[i - 1].Abandon? then Early(states, moves, i - 1) - {moves[i - 1].worker}
    else Early(states, moves, i - 1)
  }

  /** Selects of the window that passed over `x` chose a job that was available before it. */
  ghost predicate ChoseOld(q: QueueSettings, t: Time, states: seq<Claimers>, moves: seq<Move>, x: JobId, i: nat)
    requires |states| == |moves| + 1 && i <= |moves|
  {
    forall w :: w in states[i].pending && w !in Early(states, moves, i) && Passed(q, t, states, moves, x, i, w) ==>
      states[i].pending[w] < |states[i].jobs| && states[i].jobs[states[i].pending[w]].availableAt < t
  }

  lemma MoveKeepsLocks(q: QueueSettings, workers: set<WorkerId>, t: Time, s: Claimers, m: Move, s': Claimers)
    requires Made(q, workers, t, s, m, s') && LocksHold(s) && RecordsOk(s.jobs)
    ensures LocksHold(s') && RecordsOk(s'.jobs)
  {
    hide Before, RecordsOk, Eligible;
    match m
    case Select(_, j, _, _) => assert s'.jobs == s.jobs && s.jobs[j].state == Queued
      by { SelectedQueued(q, s.jobs, m); }
    case Update(w, now) => OpKeepsRecords(s.jobs, OpClaim(s.pending[w], w, now), q.leaseSeconds);
    case Abandon(_) =>
    case Other(op) => OpKeepsRecords(s.jobs, op, q.leaseSeconds);
  }

  lemma SelectedQueued(q: QueueSettings, jobs: Jobs, m: Move)
    requires m.Select? && Selected(q, jobs, m.now, m.skipped, m.j)
    ensures m.j < |jobs| && jobs[m.j].state == Queued
  {
  }

  lemma MoveChoosesOld(q: QueueSettings, workers: set<WorkerId>, t: Time, states: seq<Claimers>, moves: seq<Move>,
                       x: JobId, i: nat)
    requires |states| == |moves| + 1 && i < |moves| && Made(q, workers, t, states[i], moves[i], states[i + 1])
    requires LocksHold(states[i]) && ChoseOld(q, t, states, moves, x, i)
      && Early(states, moves, i) <= states[i].pending.Keys
    ensures ChoseOld(q, t, states, moves, x, i + 1) && Early(states, moves, i + 1) <= states[i + 1].pending.Keys
  {
    var s, m, s' := states[i], moves[i], states[i + 1];
    hide Before, Eligible, After;
    forall w | w in s'.pending && w !in Early(states, moves, i + 1) && Passed(q, t, states, moves, x, i + 1, w)
      ensures s'.pending[w] < |s'.jobs| && s'.jobs[s'.pending[w]].availableAt < t
    {
      if m.Select? && m.worker == w {
        OvertakerIsAged(q, s.jobs, m, t, x);
        SelectedQueued(q, s.jobs, m);
      } else {
        hide Selected, PassesOver;
        assert w in s.pending && w !in Early(states, moves, i) && Passed(q, t, states, moves, x, i, w);
      }
    }
  }

  /** One move's overtaking is paid by an attempt, or by a select that was pending from the start. */
  lemma MovePays(q: QueueSettings, workers: set<WorkerId>, t: Time, states: seq<Claimers>, moves: seq<Move>, x: JobId,
                 i: nat)
    requires |states| == |moves| + 1 && i < |moves| && Made(q, workers, t, states[i], moves[i], states[i + 1])
    requires LocksHold(states[i]) && RecordsOk(states[i].jobs) && ChoseOld(q, t, states, moves, x, i)
    ensures (if Overtakes(q, t, states, moves, x, i) then 1
      else 0) + Potential(states[i + 1].jobs, t) + |Early(states, moves, i + 1)|
      <= Potential(states[i].jobs, t) + |Early(states, moves, i)|
  {
    var s, m := states[i], moves[i];
    match m
    case Select(_, _, _, _) => hide *; SelectPays(q, workers, t, states, moves, x, i);
    case Abandon(w) => hide *; AbandonPays(q, workers, t, states, moves, x, i);
    case Update(w, now) => hide *; UpdatePays(q, workers, t, states, moves, x, i);
    case Other(op) => hide *; OtherPays(q, workers, t, states, moves, x, i);
  }

  lemma SelectPays(q: QueueSettings, workers: set<WorkerId>, t: Time, states: seq<Claimers>, moves: seq<Move>, x: JobId,
                   i: nat)
    requires |states| == |moves| + 1 && i < |moves| && Made(q, workers, t, states[i], moves[i], states[i + 1])
      && moves[i].Select?
    ensures !Overtakes(q, t, states, moves, x, i) && Early(states, moves, i + 1) == Early(states, moves, i)
    ensures Potential(states[i + 1].jobs, t) == Potential(states[i].jobs, t)
  {
    hide Potential, Selected;
  }

  lemma AbandonPays(q: QueueSettings, workers: set<WorkerId>, t: Time, states: seq<Claimers>, moves: seq<Move>,
                    x: JobId, i: nat)
    requires |states| == |moves| + 1 && i < |moves| && Made(q, workers, t, states[i], moves[i], states[i + 1])
      && moves[i].Abandon?
    ensures !Overtakes(q, t, states, moves, x, i) && |Early(states, moves, i + 1)| <= |Early(states, moves, i)|
    ensures Potential(states[i + 1].jobs, t) == Potential(states[i].jobs, t)
  {
    hide Potential;
    Subset(Early(states, moves, i + 1), Early(states, moves, i));
  }

  lemma OtherPays(q: QueueSettings, workers: set<WorkerId>, t: Time, states: seq<Claimers>, moves: seq<Move>, x: JobId,
                  i: nat)
    requires |states| == |moves| + 1 && i < |moves| && Made(q, workers, t, states[i], moves[i], states[i + 1])
      && moves[i].Other?
    requires RecordsOk(states[i].jobs)
    ensures !Overtakes(q, t, states, moves, x, i) && Early(states, moves, i + 1) == Early(states, moves, i)
    ensures Potential(states[i + 1].jobs, t) <= Potential(states[i].jobs, t)
  {
    hide Potential, After, RecordsOk;
    OtherUses(states[i].jobs, moves[i].op, q.leaseSeconds, t);
  }

  lemma UpdatePays(q: QueueSettings, workers: set<WorkerId>, t: Time, states: seq<Claimers>, moves: seq<Move>, x: JobId,
                   i: nat)
    requires |states| == |moves| + 1 && i < |moves| && Made(q, workers, t, states[i], moves[i], states[i + 1])
      && moves[i].Update?
    requires LocksHold(states[i]) && RecordsOk(states[i].jobs) && ChoseOld(q, t, states, moves, x, i)
    ensures (if Overtakes(q, t, states, moves, x, i) then 1
      else 0) + Potential(states[i + 1].jobs, t) + |Early(states, moves, i + 1)|
      <= Potential(states[i].jobs, t) + |Early(states, moves, i)|
  {
    var s, w := states[i], moves[i].worker;
    hide Potential, RecordsOk, Respects, InWindow, Passed;
    ClaimUses(s.jobs, s.pending[w], w, moves[i].now, q.leaseSeconds, t);
    if w in Early(states, moves, i) {
      assert Early(states, moves, i) == Early(states, moves, i + 1) + {w};
    } else {
      assert Early(states, moves, i) == Early(states, moves, i + 1);
    }
  }

  /** Within the aging window, an aged job is overtaken at most as often as the jobs that were available before the
      window began can still be claimed, plus once for each select that was pending when it began; what is enqueued
      or replayed later never overtakes it. */
  lemma {:induction false} BoundedOvertaking(q: QueueSettings, workers: set<WorkerId>, t: Time, states: seq<Claimers>,
                                             moves: seq<Move>, x: JobId, i: nat)
    requires Window(q, workers, t, states, moves) && i <= |moves|
    ensures RecordsOk(states[i].jobs) && LocksHold(states[i]) && ChoseOld(q, t, states, moves, x, i)
    ensures Early(states, moves, i) <= states[i].pending.Keys
    ensures Overtakings(q, t, states, moves, x, i) + Potential(states[i].jobs, t) + |Early(states, moves, i)|
      <= Potential(states[0].jobs, t) + |states[0].pending|
  {
    hide Made, RecordsOk, LocksHold, Potential, Passed, Overtakes;
    if i == 0 {
      assert |states[0].pending.Keys| == |states[0].pending|;
    } else {
      BoundedOvertaking(q, workers, t, states, moves, x, i - 1);
      hide ChoseOld, Early;
      assert Made(q, workers, t, states[i - 1], moves[i - 1], states[i]);
      MoveKeepsLocks(q, workers, t, states[i - 1], moves[i - 1], states[i]);
      MoveChoosesOld(q, workers, t, states, moves, x, i - 1);
      MovePays(q, workers, t, states, moves, x, i - 1);
    }
  }

  // ---- who overtakes ----

  lemma RowKeepsAvailability(q: QueueSettings, workers: set<WorkerId>, t: Time, s: Claimers, m: Move, s': Claimers,
                             j: JobId)
    requires Made(q, workers, t, s, m, s') && j < |s'.jobs| && s'.jobs[j].availableAt < t
    ensures j < |s.jobs| && s.jobs[j].availableAt < t
  {
    hide Selected, Respects;
  }

  lemma {:induction false} OldJobs(q: QueueSettings, workers: set<WorkerId>, t: Time, states: seq<Claimers>,
                                   moves: seq<Move>, j: JobId, i: nat)
    requires Window(q, workers, t, states, moves) && i <= |moves| && j < |states[i].jobs|
      && states[i].jobs[j].availableAt < t
    ensures j < |states[0].jobs| && states[0].jobs[j].availableAt < t
  {
    if i > 0 {
      hide Made, RecordsOk, LocksHold;
      assert Made(q, workers, t, states[i - 1], moves[i - 1], states[i]);
      RowKeepsAvailability(q, workers, t, states[i - 1], moves[i - 1], states[i], j);
      OldJobs(q, workers, t, states, moves, j, i - 1);
    }
  }

  /** Every claim selected in the window that overtakes an aged job takes one that was there, and available, before the
      window began. */
  lemma OvertakersWereThere(q: QueueSettings, workers: set<WorkerId>, t: Time, states: seq<Claimers>, moves: seq<Move>,
                            x: JobId, i: nat)
    requires Window(q, workers, t, states, moves) && i < |moves| && Overtakes(q, t, states, moves, x, i)
    requires moves[i].worker !in Early(states, moves, i)
    ensures var j := states[i].pending[moves[i].worker]; j < |states[0].jobs| && states[0].jobs[j].availableAt < t
  {
    assert |states| == |moves| + 1;
    hide Made, RecordsOk, LocksHold, Potential, Passed, Early, Window;
    BoundedOvertaking(q, workers, t, states, moves, x, i);
    OldJobs(q, workers, t, states, moves, states[i].pending[moves[i].worker], i);
  }
}
