/** No job is taken before its time: start delays and backoffs are kept. */
module Availability {
  import opened Dag
  import opened Q = QueueRecords
  import opened E = ExecutionState
  import opened JobQueue
  import opened QueueTrace
  import opened ClaimLimit
  import opened Effects

  /** Only a replay moves the time from which a job is available. */
  lemma OpKeepsAvailability(jobs: Jobs, op: Op, lease: Time, j: JobId)
    requires Possible(jobs, op) && j < |jobs| && !Replays(jobs, op, j)
    ensures j < |After(jobs, op, lease)| && After(jobs, op, lease)[j].availableAt == jobs[j].availableAt
  {
  }

  /** Job `j` is not replayed by the moves from `i` up to `k`. */
  ghost predicate NotReplayed(states: seq<Claimers>, moves: seq<Move>, i: nat, k: nat, j: JobId)
    requires |states| == |moves| + 1
  {
    forall m: nat :: i <= m < k && m < |moves| && moves[m].Other? ==> !Replays(states[m].jobs, moves[m].op, j)
  }

  lemma MoveKeepsAvailability(q: QueueSettings, workers: set<WorkerId>, s: Claimers, m: Move, s': Claimers, j: JobId)
    requires Takes(q, workers, s, m, s') && j < |s.jobs| && (m.Other? ==> !Replays(s.jobs, m.op, j))
    ensures j < |s'.jobs| && s'.jobs[j].availableAt == s.jobs[j].availableAt
  {
    if m.Other? { OpKeepsAvailability(s.jobs, m.op, q.leaseSeconds, j); }
    hide Selected, After, Possible, Replays;
  }

  lemma {:induction false} StaysAvailableFrom(q: QueueSettings, workers: set<WorkerId>, states: seq<Claimers>,
                                              moves: seq<Move>, i: nat, k: nat, j: JobId)
    requires Interleaving(q, workers, states, moves) && i <= k < |states| && j < |states[i].jobs|
    requires NotReplayed(states, moves, i, k, j)
    ensures j < |states[k].jobs| && states[k].jobs[j].availableAt == states[i].jobs[j].availableAt
  {
    hide Takes, Replays;
    if i < k {
      StaysAvailableFrom(q, workers, states, moves, i, k - 1, j);
      assert Takes(q, workers, states[k - 1], moves[k - 1], states[k]);
      MoveKeepsAvailability(q, workers, states[k - 1], moves[k - 1], states[k], j);
    }
  }

  /** However claims and everything else interleave: whoever selects a job reads a clock at or past the time from which
      the job was available, at any moment since which nobody has replayed it. */
  lemma NotBeforeItsTime(q: QueueSettings, workers: set<WorkerId>, states: seq<Claimers>, moves: seq<Move>, i: nat,
                         k: nat)
    requires Interleaving(q, workers, states, moves) && i <= k < |moves| && moves[k].Select?
    requires moves[k].j < |states[i].jobs| && NotReplayed(states, moves, i, k, moves[k].j)
    ensures states[i].jobs[moves[k].j].availableAt <= moves[k].now
  {
    StaysAvailableFrom(q, workers, states, moves, i, k, moves[k].j);
    assert Takes(q, workers, states[k], moves[k], states[k + 1]);
    hide Before, LeasedFor, Interleaving, NotReplayed;
  }

  /** A retried attempt is not taken before its backoff has passed: the configured wait, doubled for each failure
      before. */
  lemma RetryKeepsBackoff(q: QueueSettings, workers: set<WorkerId>, states: seq<Claimers>, moves: seq<Move>, i: nat,
                          k: nat, db: Db, j: JobId, now: Time, maxAttempts: nat)
    requires Interleaving(q, workers, states, moves) && i <= k < |moves| && moves[k].Select?
    requires Rows(db.ex) && OwnJob(db, j) && states[i].jobs == Retry(db, j, now, maxAttempts).jobs
    requires moves[k].j == |db.jobs| && NotReplayed(states, moves, i, k, |db.jobs|)
    ensures db.jobs[j].task in db.ex.config && db.jobs[j].task in db.ex.retries
    ensures var n := db.jobs[j].task;
      now + db.ex.config[n].backoffSeconds * Power2(db.ex.retries[n]) as real <= moves[k].now
  {
    RetryEffect(db, j, now, maxAttempts);
    hide Rows, Retry, Interleaving, NotReplayed, Acknowledge;
    NotBeforeItsTime(q, workers, states, moves, i, k);
  }

  /** A job queued by a pass is not taken before the task's delay has passed. */
  lemma PassKeepsDelay(q: QueueSettings, workers: set<WorkerId>, states: seq<Claimers>, moves: seq<Move>, i: nat,
                       k: nat, db: Db, now: Time, maxAttempts: nat)
    requires Interleaving(q, workers, states, moves) && i <= k < |moves| && moves[k].Select?
    requires Rows(db.ex) && Distinct(db.ex.order) && states[i].jobs == EnqueueReady(db, now, maxAttempts).jobs
    requires |db.jobs| <= moves[k].j < |states[i].jobs| && NotReplayed(states, moves, i, k, moves[k].j)
    ensures var n := states[i].jobs[moves[k].j].task;
      n in db.ex.config && now + db.ex.config[n].delaySeconds <= moves[k].now
  {
    EnqueueReadyEffect(db, now, maxAttempts);
    hide Rows, Distinct, EnqueueReady, Interleaving, NotReplayed, Refreshed, DecidedInOrder, Swept;
    assert FirstOf(db, EnqueueReady(db, now, maxAttempts), moves[k].j, now, maxAttempts);
    NotBeforeItsTime(q, workers, states, moves, i, k);
  }
}
