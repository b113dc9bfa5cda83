/** Why only dead workers lose their job: the renewal interval of `backend/workers/runtime.py` against the lease, and
    the cutoff of the hung-task reaper in `backend/services/watchdog_service.py` against the task timeout. */
module Timing {
  import opened Dag
  import opened QueueRecords
  import opened QueueTrace

  function Min(a: real, b: real): real { if a <= b then a else b }

  function Max(a: real, b: real): real { if a >= b then a else b }

  /** The operator's settings, with the bounds the configuration enforces. */
  datatype Limits = Limits(leaseSeconds: int, heartbeatSeconds: int, maxTaskTimeoutSeconds: int)

  predicate Permitted(l: Limits) {
    && 5 <= l.leaseSeconds <= 3600
    && 1 <= l.heartbeatSeconds <= 300
    && 1 <= l.maxTaskTimeoutSeconds <= 86400
  }

  function Lease(l: Limits): real { l.leaseSeconds as real }

  /** `_renew_lease_loop` sleeps this long between renewals. */
  function RenewalInterval(l: Limits): real {
    Max(Min(Lease(l) / 2.0, l.heartbeatSeconds as real), 1.0)
  }

  lemma RenewalIsTwiceAsFast(l: Limits)
    requires Permitted(l)
    ensures 1.0 <= RenewalInterval(l) <= Lease(l) / 2.0
    ensures RenewalInterval(l) == if 2 * l.heartbeatSeconds <= l.leaseSeconds then l.heartbeatSeconds as real
      else l.leaseSeconds as real / 2.0
  {
  }

  // ---- live workers keep their lease ----

  /** A live worker's hold on a job: the clock reading its last lease was computed from. */
  datatype Hold = Hold(worker: WorkerId, read: Time)

  datatype Clocked = Clocked(jobs: Jobs, held: map<JobId, Hold>, clock: Time)

  /** One transaction on the queue; it may insert fresh rows besides. */
  datatype Act =
    | Claims(j: JobId, worker: WorkerId, read: Time)
    | Renews(j: JobId, read: Time)
    | Finishes(j: JobId, read: Time, added: Jobs)
    | Dies(j: JobId)
    | Enqueues(added: Jobs)
    | Cancels(execution: ExecutionId, read: Time)
    | Withdraws(execution: ExecutionId, task: Name, read: Time, added: Jobs)
    | Reaps(read: Time)
    | Replays(tenant: TenantId, j: JobId, read: Time)
    | Resolves(tenant: TenantId, j: JobId, read: Time)
    | Rests

  /** Time passes until `at`, and then something is done. */
  datatype Tick = Tick(at: Time, act: Act)

  /** Each live worker's next renewal is committed in time: it sleeps for the interval and loses at most half a lease to
      everything else. */
  predicate OnTime(l: Limits, held: map<JobId, Hold>, until: Time) {
    forall j | j in held :: until <= held[j].read + RenewalInterval(l) + Lease(l) / 2.0
  }

  /** Clock readings precede the commit they lead to; no more than half a lease passes between them. */
  predicate Reading(l: Limits, clock: Time, read: Time) { read <= clock <= read + Lease(l) / 2.0 }

  ghost predicate FreshRows(added: Jobs) { forall i :: 0 <= i < |added| ==> NewRow(added[i]) }

  ghost predicate CanAct(l: Limits, k: Clocked, act: Act) {
    match act
    case Claims(j, worker, read) => j < |k.jobs| && k.jobs[j].state == Queued && Reading(l, k.clock, read)
    case Renews(j, read) => j in k.held && j < |k.jobs| && k.held[j].read <= read && Reading(l, k.clock, read)
    case Finishes(j, _, added) => j in k.held && j < |k.jobs| && FreshRows(added)
    case Dies(j) => j in k.held
    case Enqueues(added) => FreshRows(added)
    case Cancels(_, _) => true
    case Withdraws(_, _, _, added) => FreshRows(added)
    case Reaps(read) => read <= k.clock
    case Replays(_, j, _) => j < |k.jobs|
    case Resolves(_, j, _) => j < |k.jobs|
    case Rests => true
  }

  function Acted(l: Limits, k: Clocked, act: Act): Clocked
    requires match act
      case Claims(j, _, _) => j < |k.jobs|
      case Renews(j, _) => j in k.held && j < |k.jobs|
      case Finishes(j, _, _) => j < |k.jobs|
      case Replays(_, j, _) => j < |k.jobs|
      case Resolves(_, j, _) => j < |k.jobs|
      case _ => true
  {
    match act
    case Claims(j, worker, read) =>
      k.(jobs := Claim(k.jobs, j, worker, read, Lease(l)), held := k.held[j := Hold(worker, read)])
    case Renews(j, read) =>
      k.(jobs := Renew(k.jobs, j, k.held[j].worker, read, Lease(l)), held := k.held[j := k.held[j].(read := read)])
    case Finishes(j, read, added) => k.(jobs := Acknowledge(k.jobs, j, read) + added, held := k.held - {j})
    case Dies(j) => k.(held := k.held - {j})
    case Enqueues(added) => k.(jobs := k.jobs + added)
    case Cancels(execution, read) => k.(jobs := CancelExecutionJobs(k.jobs, execution, read))
    case Withdraws(execution, task, read, added) => k.(jobs := CancelTaskJobs(k.jobs, execution, task, read) + added)
    case Reaps(read) => k.(jobs := RequeueStale(k.jobs, read))
    case Replays(tenant, j, read) => k.(jobs := Replay(k.jobs, tenant, j, read))
    case Resolves(tenant, j, read) => k.(jobs := Resolve(k.jobs, tenant, j, read))
    case Rests => k
  }

  /** A live worker's job carries the lease of its last reading, unless a cancellation took the job away. */
  predicate Secure(l: Limits, k: Clocked, j: JobId)
    requires j in k.held
  {
    && j < |k.jobs| && (k.jobs[j].state == Leased || k.jobs[j].state == Cancelled)
    && (k.jobs[j].state == Leased ==>
      k.jobs[j].leasedBy == Some(k.held[j].worker) && k.jobs[j].leaseExpiresAt == Some(k.held[j].read + Lease(l)))
    && k.clock <= k.held[j].read + RenewalInterval(l) + Lease(l) / 2.0
  }

  ghost predicate AllSecure(l: Limits, k: Clocked) {
    RecordsOk(k.jobs) && forall j :: j in k.held ==> Secure(l, k, j)
  }

  lemma SecureNotExpired(l: Limits, k: Clocked, j: JobId, now: Time)
    requires Permitted(l) && j in k.held && Secure(l, k, j) && now <= k.clock
    ensures !Expired(k.jobs[j], now)
  {
    RenewalIsTwiceAsFast(l);
  }

  lemma WaitKeepsSecure(l: Limits, k: Clocked, at: Time)
    requires AllSecure(l, k) && OnTime(l, k.held, at)
    ensures AllSecure(l, k.(clock := at))
  {
    hide RecordsOk, RenewalInterval;
    var k' := k.(clock := at);
    forall j | j in k'.held ensures Secure(l, k', j) { assert Secure(l, k, j); }
  }

  lemma AppendKeepsRecords(jobs: Jobs, added: Jobs)
    requires RecordsOk(jobs) && FreshRows(added)
    ensures RecordsOk(jobs + added)
  {
    forall j | 0 <= j < |jobs + added| ensures RecordOk((jobs + added)[j]) {
      if j < |jobs| { assert RecordOk(jobs[j]); } else { assert NewRow(added[j - |jobs|]); }
    }
  }

  lemma ActKeepsRecords(l: Limits, k: Clocked, act: Act)
    requires RecordsOk(k.jobs) && CanAct(l, k, act)
    ensures RecordsOk(Acted(l, k, act).jobs)
  {
    hide RecordsOk, FreshRows;
    match act
    case Claims(j, worker, read) => OpKeepsRecords(k.jobs, OpClaim(j, worker, read), Lease(l));
    case Renews(j, read) => OpKeepsRecords(k.jobs, OpRenew(j, k.held[j].worker, read), Lease(l));
    case Finishes(j, read, added) =>
      OpKeepsRecords(k.jobs, OpAcknowledge(j, read), Lease(l));
      AppendKeepsRecords(Acknowledge(k.jobs, j, read), added);
    case Enqueues(added) => AppendKeepsRecords(k.jobs, added);
    case Cancels(execution, read) => OpKeepsRecords(k.jobs, OpCancelExecution(execution, read), Lease(l));
    case Withdraws(execution, task, read, added) =>
      OpKeepsRecords(k.jobs, OpCancelTask(execution, task, read), Lease(l));
      AppendKeepsRecords(CancelTaskJobs(k.jobs, execution, task, read), added);
    case Reaps(read) => OpKeepsRecords(k.jobs, OpRequeueStale(read), Lease(l));
    case Replays(tenant, j, read) => OpKeepsRecords(k.jobs, OpReplay(tenant, j, read), Lease(l));
    case Resolves(tenant, j, read) => OpKeepsRecords(k.jobs, OpResolve(tenant, j, read), Lease(l));
    case _ =>
  }

  lemma ActKeepsJobSecure(l: Limits, k: Clocked, act: Act, j: JobId)
    requires Permitted(l) && CanAct(l, k, act) && RecordsOk(k.jobs)
    requires j in Acted(l, k, act).held && (j in k.held ==> Secure(l, k, j))
    ensures Secure(l, Acted(l, k, act), j)
  {
    RenewalIsTwiceAsFast(l);
    hide RenewalInterval;
    if j in k.held {
      assert RecordOk(k.jobs[j]);
      if act.Reaps? { SecureNotExpired(l, k, j, act.read); }
    }
  }

  lemma TickKeepsSecure(l: Limits, k: Clocked, t: Tick, k': Clocked)
    requires Permitted(l) && Ticks(l, k, t, k') && AllSecure(l, k)
    ensures AllSecure(l, k')
  {
    WaitKeepsSecure(l, k, t.at);
    var k1 := k.(clock := t.at);
    hide RecordsOk, OnTime, Secure, Acted, CanAct;
    ActKeepsRecords(l, k1, t.act);
    forall j | j in k'.held ensures Secure(l, k', j) { ActKeepsJobSecure(l, k1, t.act, j); }
  }

  ghost predicate Ticks(l: Limits, k: Clocked, t: Tick, k': Clocked) {
    && k.clock <= t.at && OnTime(l, k.held, t.at)
    && CanAct(l, k.(clock := t.at), t.act) && k' == Acted(l, k.(clock := t.at), t.act)
  }

  ghost predicate ClockedRun(l: Limits, states: seq<Clocked>, ticks: seq<Tick>) {
    && |states| == |ticks| + 1 && states[0].held == map[] && RecordsOk(states[0].jobs)
    && forall i :: 0 <= i < |ticks| ==> Ticks(l, states[i], ticks[i], states[i + 1])
  }

  lemma {:induction false} RunIsSecure(l: Limits, states: seq<Clocked>, ticks: seq<Tick>, i: nat)
    requires Permitted(l) && ClockedRun(l, states, ticks) && i < |states|
    ensures AllSecure(l, states[i])
  {
    if i > 0 {
      RunIsSecure(l, states, ticks, i - 1);
      hide AllSecure, Ticks, RecordsOk;
      assert Ticks(l, states[i - 1], ticks[i - 1], states[i]);
      TickKeepsSecure(l, states[i - 1], ticks[i - 1], states[i]);
    }
  }

  /** For all permitted settings, whatever else the queue does: as long as renewals are on time, the lease reaper
      leaves the job of every live worker exactly as it is, and its next renewal is accepted unless the execution was
      cancelled. */
  lemma NeverRobbed(l: Limits, states: seq<Clocked>, ticks: seq<Tick>, i: nat, j: JobId, now: Time)
    requires Permitted(l) && ClockedRun(l, states, ticks) && i < |states| && j in states[i].held
      && now <= states[i].clock
    ensures j < |states[i].jobs| && RequeueStale(states[i].jobs, now)[j] == states[i].jobs[j]
    ensures states[i].jobs[j].state == Cancelled || (states[i].jobs[j].state == Leased && states[i].jobs[j].leasedBy
      == Some(states[i].held[j].worker))
  {
    RunIsSecure(l, states, ticks, i);
    hide ClockedRun, RecordsOk;
    SecureNotExpired(l, states[i], j, now);
  }

  // ---- live workers are not taken for hung ----

  /** A running task as the watchdog sees it, and whether a live worker is inside, with the timeout it runs under. */
  datatype Beat = Beat(startedAt: Time, lastHeartbeatAt: Option<Time>, inside: bool, timeoutSeconds: real)

  /** The handler may run this long, whatever its configuration asks for. */
  function Timeout(l: Limits, configured: real): real { Min(configured, l.maxTaskTimeoutSeconds as real) }

  function Cutoff(l: Limits, now: Time): Time {
    now - (l.maxTaskTimeoutSeconds as real + 2.0 * l.heartbeatSeconds as real)
  }

  /** `_reap_hung_tasks` picks these tasks. */
  predicate Hung(l: Limits, b: Beat, now: Time) {
    if b.lastHeartbeatAt.None? then b.startedAt < Cutoff(l, now) else b.lastHeartbeatAt.value < Cutoff(l, now)
  }

  /** The row has been silent for longer than the longest timeout and two heartbeats. */
  predicate Silent(l: Limits, b: Beat, now: Time) {
    match b.lastHeartbeatAt
    case Some(at) => now - at > (l.maxTaskTimeoutSeconds + 2 * l.heartbeatSeconds) as real
    case None => now - b.startedAt > (l.maxTaskTimeoutSeconds + 2 * l.heartbeatSeconds) as real
  }

  lemma HungMeans(l: Limits, b: Beat, now: Time)
    ensures Hung(l, b, now) <==> Silent(l, b, now)
  {
    assert (l.maxTaskTimeoutSeconds + 2 * l.heartbeatSeconds) as real
      == l.maxTaskTimeoutSeconds as real + 2.0 * l.heartbeatSeconds as real;
  }

  /** A handler runs as long as it was configured to, up to the limit. */
  lemma TimeoutMeans(l: Limits, configured: real)
    ensures Timeout(l, configured) == if configured > l.maxTaskTimeoutSeconds as real
      then l.maxTaskTimeoutSeconds as real else configured
  {
  }

  datatype Watch = Watch(tasks: map<Name, Beat>, clock: Time)

  datatype Happening =
    | Begins(n: Name, read: Time, configured: real)
    | Leaves(n: Name)
    | Perishes(n: Name)
    | Nothing

  /** Time passes until `at`, and then something happens to a task. */
  datatype Moment = Moment(at: Time, what: Happening)

  /** A live worker leaves its task within the timeout plus the overhead. */
  predicate InTime(tasks: map<Name, Beat>, overhead: real, until: Time) {
    forall n | n in tasks && tasks[n].inside && tasks[n].lastHeartbeatAt.Some? ::
      until <= tasks[n].lastHeartbeatAt.value + tasks[n].timeoutSeconds + overhead
  }

  predicate CanHappen(w: Watch, overhead: real, what: Happening) {
    match what
    case Begins(n, read, configured) => 0.0 <= configured && read <= w.clock <= read + overhead
    case Leaves(n) => true
    case Perishes(n) => true
    case Nothing => true
  }

  function Begun(l: Limits, tasks: map<Name, Beat>, n: Name, read: Time, configured: real): map<Name, Beat> {
    tasks[n := Beat(if n in tasks then tasks[n].startedAt else read, Some(read), true, Timeout(l, configured))]
  }

  function Perished(tasks: map<Name, Beat>, n: Name): map<Name, Beat> {
    if n in tasks then tasks[n := tasks[n].(inside := false)] else tasks
  }

  function Happened(l: Limits, w: Watch, what: Happening): Watch {
    match what
    case Begins(n, read, configured) => w.(tasks := Begun(l, w.tasks, n, read, configured))
    case Leaves(n) => w.(tasks := w.tasks - {n})
    case Perishes(n) => w.(tasks := Perished(w.tasks, n))
    case Nothing => w
  }

  predicate Happens(l: Limits, overhead: real, w: Watch, m: Moment, w': Watch) {
    && w.clock <= m.at && InTime(w.tasks, overhead, m.at)
    && CanHappen(w.(clock := m.at), overhead, m.what) && w' == Happened(l, w.(clock := m.at), m.what)
  }

  ghost predicate WatchRun(l: Limits, overhead: real, states: seq<Watch>, moments: seq<Moment>) {
    && |states| == |moments| + 1 && states[0].tasks == map[]
    && forall i :: 0 <= i < |moments| ==> Happens(l, overhead, states[i], moments[i], states[i + 1])
  }

  /** Every live worker's task has a heartbeat it is not yet too late for. */
  predicate Punctual(l: Limits, overhead: real, w: Watch) {
    forall n | n in w.tasks && w.tasks[n].inside ::
      && w.tasks[n].lastHeartbeatAt.Some? && 0.0 <= w.tasks[n].timeoutSeconds <= l.maxTaskTimeoutSeconds as real
      && w.clock <= w.tasks[n].lastHeartbeatAt.value + w.tasks[n].timeoutSeconds + overhead
  }

  lemma MomentKeepsPunctual(l: Limits, overhead: real, w: Watch, m: Moment, w': Watch)
    requires Permitted(l) && Happens(l, overhead, w, m, w') && Punctual(l, overhead, w)
    ensures Punctual(l, overhead, w')
  {
  }

  lemma {:induction false} RunIsPunctual(l: Limits, overhead: real, states: seq<Watch>, moments: seq<Moment>, i: nat)
    requires Permitted(l) && WatchRun(l, overhead, states, moments) && i < |states|
    ensures Punctual(l, overhead, states[i])
  {
    if i > 0 {
      RunIsPunctual(l, overhead, states, moments, i - 1);
      hide Happens, Punctual;
      assert Happens(l, overhead, states[i - 1], moments[i - 1], states[i]);
      MomentKeepsPunctual(l, overhead, states[i - 1], moments[i - 1], states[i]);
    }
  }

  lemma PunctualNotHung(l: Limits, overhead: real, w: Watch, n: Name, now: Time)
    requires Permitted(l) && Punctual(l, overhead, w) && overhead <= 2.0 * l.heartbeatSeconds as real
    requires n in w.tasks && Hung(l, w.tasks[n], now) && now <= w.clock
    ensures !w.tasks[n].inside
  {
  }

  /** While the overhead around a handler is under two heartbeats, the hung-task reaper never picks a task a live worker
      is still inside, however long the handler was configured to run. */
  lemma LiveTasksAreNotHung(l: Limits, overhead: real, states: seq<Watch>, moments: seq<Moment>, i: nat, n: Name,
                            now: Time)
    requires Permitted(l) && WatchRun(l, overhead, states, moments) && i < |states|
      && overhead <= 2.0 * l.heartbeatSeconds as real
    requires n in states[i].tasks && Hung(l, states[i].tasks[n], now) && now <= states[i].clock
    ensures !states[i].tasks[n].inside
  {
    RunIsPunctual(l, overhead, states, moments, i);
    hide WatchRun, Punctual, Hung;
    PunctualNotHung(l, overhead, states[i], n, now);
  }

  /** Some live worker is inside a task the query returns. */
  ghost predicate TakesForHung(l: Limits, overhead: real, states: seq<Watch>, moments: seq<Moment>, n: Name) {
    && WatchRun(l, overhead, states, moments) && n in states[|moments|].tasks
    && states[|moments|].tasks[n].inside && Hung(l, states[|moments|].tasks[n], states[|moments|].clock)
  }

  /** A handler that uses its whole timeout, and an overhead of more than two heartbeats. */
  function LateStates(l: Limits, overhead: real): seq<Watch> {
    var limit := l.maxTaskTimeoutSeconds as real;
    var begun := map[0 := Beat(0.0, Some(0.0), true, limit)];
    [Watch(map[], 0.0), Watch(begun, 0.0), Watch(begun, limit + overhead)]
  }

  function LateMoments(l: Limits, overhead: real): seq<Moment> {
    var limit := l.maxTaskTimeoutSeconds as real;
    [Moment(0.0, Begins(0, 0.0, limit)), Moment(limit + overhead, Nothing)]
  }

  lemma LateRun(l: Limits, overhead: real)
    requires Permitted(l) && overhead > 2.0 * l.heartbeatSeconds as real
    ensures TakesForHung(l, overhead, LateStates(l, overhead), LateMoments(l, overhead), 0)
  {
    var states, moments := LateStates(l, overhead), LateMoments(l, overhead);
    assert Happens(l, overhead, states[0], moments[0], states[1]);
    assert Happens(l, overhead, states[1], moments[1], states[2]);
  }

  /** The bound is exact: the query can return a task with a punctual live worker inside if and only if the overhead
      exceeds two heartbeats. */
  lemma OverheadBoundIsExact(l: Limits, overhead: real)
    requires Permitted(l)
    ensures (exists states: seq<Watch>, moments: seq<Moment>, n: Name :: TakesForHung(l, overhead, states, moments, n))
      <==> overhead > 2.0 * l.heartbeatSeconds as real
  {
    if overhead > 2.0 * l.heartbeatSeconds as real {
      LateRun(l, overhead);
    } else {
      forall states: seq<Watch>, moments: seq<Moment>, n: Name ensures !TakesForHung(l, overhead, states, moments, n) {
        if TakesForHung(l, overhead, states, moments, n) {
          LiveTasksAreNotHung(l, overhead, states, moments, |moments|, n, states[|moments|].clock);
        }
      }
    }
  }
}
