# DevFlow workflow engine: a verified model

DevFlow runs workflows: graphs of tasks with dependencies. An execution's task rows live in a database; a lease-based
queue hands tasks to worker processes that may crash at any point; dead letters, a watchdog and operators change the same
rows. This project models that engine as one transition system, the queue and the rows as classes that change state in
place, and the algorithms around them, and proves what every run keeps.

How the pieces fit:

- `ExecutionState.dfy` and `QueueRecords.dfy` describe each transaction as a function from rows to rows.
  `ExecutionService.dfy`, `JobQueue.dfy` and `Runtime.dfy` are the imperative counterparts: classes whose loops and
  assignments are proved to produce exactly those rows. `Downstream.dfy` holds the two graph walks they use.
  `Effects.dfy` and `RetryEffects.dfy` say what each call leaves in the columns without those functions, and prove that it
  does; the classes' contracts carry the same statements. `Availability.dfy` adds that delays and backoffs are kept.
- `Engine.dfy` turns the transactions into steps of a system with live workers, a dead-letter buffer and a history.
  A task run is two atomic steps, start and finish; anything may happen in between. Finishing acts on the current rows,
  even if the task is no longer running. Unhandled dead letters are explicit, including those the watchdog drains.
  `EngineCore`, `EngineInv`, `EngineStatus` and `EngineMoves` carry the invariant; `EngineSafety`, `EngineCancel`, `EngineQuiet`,
  `EngineOutcome`, `EngineMeasure`, `EngineProgress`, `EngineStarts`, `EngineEvents`, `EngineFinal` and `EngineRetry` hold the results over
  whole runs;
  `EngineExample` is a complete run; `EngineGaps`, `EngineCommit` and `EngineLate` show by concrete runs where the
  promises end; `EngineRounds` takes a round of the watchdog apart into steps.
- `QueueTrace.dfy`, `ClaimLimit.dfy` and `Aging.dfy` are about the queue alone, with claims split into select and update
  where it matters. `Timing.dfy` proves that on-time workers keep their lease and
  are not taken for hung by the query. `EngineTiming.dfy` puts the engine under a clock, with the watchdog's query and the
  handling of its rows as separate moves, and discharges the engine's guard on the lease reaper in every on-time run.
  The guard on the hung-task reaper is an assumption of the engine: `EngineStrikes.dfy` proves exactly which on-time runs
  meet it, and `EngineRestart.dfy` is one that does not. `EngineOwners.dfy` is about what needs neither guard.
- `Dag.dfy`, `Tasks.dfy`, `DagService.dfy`, `BuilderCheck.dfy` and `WorkflowService.dfy` cover graphs, Kahn's algorithm, the
  builder's depth-first check and the fact that only valid documents are stored. `RateLimit.dfy` and `RateLimitExact.dfy`
  cover the token buckets. `Readiness.dfy` and `PassFixpoint.dfy` are about one pass of `enqueue_ready_tasks` and of `_fail_downstream`; `Sums.dfy`
  is arithmetic.

Where code and documentation disagree the model follows the code:

- `docs/RUNBOOK.md:83-84` says a workflow cannot exceed its configured number of leased tasks. The claim selects and updates
  in two statements, so it can: the exact bound is the limit plus the number of claiming workers minus one
  (`ClaimLimit.SplitClaimLimit`, reached by `ClaimLimit.SplitClaimLimitIsReached`).
- `docs/ARCHITECTURE.md:33` says a job whose worker disappears is returned to the queue automatically. On its last attempt it
  becomes a dead letter instead, and that letter can be drained without being handled (`EngineGaps.DrainedLetterIsLost`).

Several natural statements are false of the code. Each comes with the exact condition and, where a run can show it, a concrete one:

- Success and skipped are never left: they are left exactly while a worker is still inside the task
  (`EngineSafety.SatisfiedMayBeLeftExactly`, `EngineLate.SkippedIsLeft`).
- Every call leaves the status refreshed: it does unless it re-queues a task under a terminal status
  (`EngineStatus.StepAgreement`, `EngineLate.CancelledExecutionReopens`).
- The watchdog never fails a task that a punctual worker is inside: it does exactly if that worker began after the query
  that listed the task and is still at it
  (`EngineStrikes.ListedIsMetExactly`, `EngineStrikes.OnTimeRunIsRun`, `EngineRestart.StrikeMeetsWorker`).
- An empty queue means a finished execution: exactly if no unhandled letter belongs to an unfinished task
  (`EngineQuiet.DrainedLettersStrand`, `EngineGaps.DrainedLetterIsLost`).
- One pass settles everything: exactly if nothing left pending waits for a task the pass has failed or cancelled
  (`PassFixpoint.PassSufficesExactly`, `EngineGaps.OnePassCanMiss`).
- The dead-letter flag means failed: exactly if no given-up job is acknowledged
  (`QueueTrace.FlagFitsExactly`, `QueueTrace.LateAcknowledgement`).
- The rate limit's window bound, and the agreement of its two forms: exactly if ten minutes refill a bucket
  (`RateLimitExact.BoundedExactly`, `RateLimitExact.AlikeExactly`).

Conventions: task names are natural numbers, since the code only compares them; the job table only grows, so a job is its
position; times and tokens are reals; one clock reading stands for all readings of one transaction; the state the code
calls queued is `Enqueued`, failed is `Failure`, cancelled is `Stopped`.

## Model

| member | source | states |
|---|---|---|
| `EngineOutcome.ScheduleIndependence` | backend/services/execution_service.py:220-310 | Two complete runs of one execution without operators, under any interleaving of workers, crashes and redeliveries and even different settings, end in the same task states and the same status, provided every attempt is answered by the same script and the same tasks lost their workers for good. |
| `EngineOutcome.RunEndsAsRecursion` | backend/services/execution_service.py:480-564 | Where such a run ends: going through the graph dependencies-first, a task succeeds exactly when it is capable on its own and everything it depends on succeeded, and fails otherwise; the execution fails exactly when some task does. |
| `EngineOutcome.SolutionIsRecursion` | backend/services/execution_service.py:265-304 | The fixpoint equation that the end states satisfy has one solution, and the recursion computes it along every dependencies-first listing. |
| `EngineOutcome.VerdictMeans` | backend/services/execution_service.py:508-517 | A task succeeds on its own exactly when its failure is tolerated or some attempt from `fail_first_n` up to `max_retries` is answered well. |
| `EngineOutcome.StepKeepsOutcome` | backend/services/execution_service.py:480-564 | Every step keeps each task state consistent with the script: a queued or running task still has its original verdict ahead of it, a failed one has a lost worker, a bad verdict or a failed dependency. |
| `EngineStarts.StartsAreBounded` | backend/services/execution_service.py:340-358 | In every run without a cancellation, however often workers crash, a handler is started at most `(max_retries + 1) * max_attempts` times. |
| `EngineStarts.StepFlow` | backend/queue/job_queue.py:160-192 | Job accounting of one step: nobody starts owning an old job, every handler start uses up a claim, and new jobs are fresh and belong to tasks that were pending or are tried again. |
| `EngineMeasure.StepMeasure` | backend/services/execution_service.py:387-564 | Without a cancellation every step strictly lowers a natural-number measure, except a lease renewal, which keeps it, and a reaper's step that changes nothing at all because no lease has expired or the listed task has ended. |
| `EngineMeasure.RunIsBounded` | backend/services/execution_service.py:510-545 | Renewals apart, the number of changes in any run without a cancellation is bounded by a figure computed from the task list alone. |
| `EngineQuiet.QuietMeansFinished` | backend/services/execution_service.py:709-736 | With no queued or leased job and no unhandled dead letter, every task has ended and the execution status is terminal. |
| `EngineQuiet.DrainedLettersStrand` | backend/services/watchdog_service.py:59-64 | With the queue empty, every task has ended if and only if no unhandled dead letter belongs to a task still counted as queued or running. |
| `EngineQuiet.NothingPending` | backend/services/execution_service.py:265-304 | In settled rows of an acyclic graph, pending tasks cannot merely wait for each other. |
| `EngineSafety.NoLostOrDuplicatedWork` | backend/services/execution_service.py:278-304 | Without a cancellation: a pending task has no job; every queued or running task has a queued or leased job or a dead letter still to be handled; no task ever has two. |
| `EngineSafety.DependencySafety` | backend/services/execution_service.py:312-335 | In every run, with cancellations and skips: the dependencies of a task that is queued, running or successful, or ever had a job, are satisfied, and stay exactly as they are to the end of the run. |
| `EngineInv.StepKeepsInv` | backend/services/execution_service.py:312-478 | Each of the thirteen steps (claim, start, renew, finish, interrupt, crash, lease reaping, delivery and drain of dead letters, hung-task reaping, orphan repair, cancel, skip) keeps the invariant. |
| `EngineInv.RunKeepsInv` | backend/services/execution_service.py:140-207 | The invariant holds in every state of every run from what `_spawn` leaves behind. |
| `EngineInv.SpawnedInv` | backend/services/execution_service.py:191-207 | Queueing what is ready in fresh rows of a valid graph establishes the invariant. |
| `EngineCancel.CancellationHolds` | backend/services/execution_service.py:589-620 | After a cancellation, as long as nobody skips a task and no failure is tolerated: no handler starts, no task becomes a success, nothing is pending; and once nothing is queued or running the status is cancelled, or failed if some task failed. |
| `EngineCancel.StepAfterCancel` | backend/services/execution_service.py:397-453 | What one step can still do to a task of a cancelled execution: running goes to cancelled, failed or queued, queued to cancelled or failed, cancelled to failed, and nothing else moves. |
| `EngineCancel.RunAgrees` | backend/services/execution_service.py:738-780 | In every state of every run without sweeps, the status is the status function of the task states, `finished_at` is set exactly when it is terminal, and whoever is inside a task finds it running. |
| `EngineStatus.StepAgreement` | backend/services/execution_service.py:738-780 | A step leaves status, `finished_at` and task states in agreement if and only if it is not the one exception: a failed attempt with retries left that re-queues its task under a terminal status. |
| `EngineStatus.RefreshTwice` | backend/services/execution_service.py:738-780 | Refreshing a second time changes nothing and writes no event. |
| `EngineStatus.MannedNeverReopens` | backend/services/execution_service.py:515-545 | The exception cannot arise while workers find their tasks running. |
| `EngineLate.CancelledExecutionReopens` | backend/services/execution_service.py:518-545 | A concrete five-step run in which it does arise: cancel, skip another task, and the handler that was still running fails. |
| `EngineEvents.StepPosts` | backend/services/execution_service.py:764-780 | Every step writes exactly the outbox event its change of status calls for, and no other. |
| `EngineEvents.RunEvents` | backend/services/execution_service.py:182-188 | In a run without operators the outbox holds the start and, if and only if the execution has ended, one further event with its final status. |
| `EngineGaps.StuckForever` | backend/services/execution_service.py:220-310 | A state with no worker, no job and no deliverable letter, in which every task the watchdog may have listed has ended and yet some task is unfinished, stays exactly as it is under every sequence of automatic steps. |
| `EngineGaps.SpawnGap` | backend/services/execution_service.py:191-205 | A crash between the commit of the rows and the first pass leaves such a state. |
| `EngineGaps.DrainedLetterIsLost` | backend/services/watchdog_service.py:64 | A concrete run in which the drained letter of a single task leaves it counted as queued for ever, under status running. |
| `EngineRetry.RetryRepairs` | backend/services/execution_service.py:622-659 | At any moment of a run without operators: if a failed task has satisfied dependencies and all failures lie in it and below it, retrying it leaves no failed task, adds exactly one queued job, for that task, and leaves no pending task ready or with a failed dependency. |
| `EngineRetry.RetryMends` | backend/services/execution_service.py:632-645 | The same for any rows broken at one task, with the new job and the reset retry count spelled out. |
| `EngineExample.OneTaskRuns` | backend/services/execution_service.py:340-475 | A concrete complete run of one task, claimed, started and finished: it meets the premises of the results above, and its outbox holds the start and the success. |
| `EngineProgress.NeverStuck` | backend/queue/job_queue.py:272-312 | Unless a dead letter was drained unhandled, a state with an unfinished task can advance without a fault and without an operator: a claim, a start, an answer, a delivery or a reaped lease lowers the measure. |
| `EngineProgress.CanFinish` | backend/services/execution_service.py:340-564 | Every run without a cancellation and without a drained letter, whatever has crashed in it, can be continued by such steps alone to one in which all tasks have ended and the status is terminal, in no more steps than the measure says. |
| `EngineProgress.CanFinishWithinBudget` | backend/services/execution_service.py:510-564 | What has changed so far and what is still needed to the end together stay within the budget computed from the task list. |
| `EngineSafety.SatisfiedIsLeftExactly` | backend/services/execution_service.py:397-453 | With cancellations and skips: some step takes a task out of success or skipped if and only if a worker is still inside it. |
| `EngineSafety.SatisfiedMayBeLeftExactly` | backend/services/execution_service.py:661-686 | The same for whole runs: a satisfied task is left in some continuation of a run if and only if a worker is still inside it. |
| `EngineSafety.SatisfiedForever` | backend/services/execution_service.py:661-686 | In particular success and skipped are never left while no cancellation is requested. |
| `EngineLate.SkippedIsLeft` | backend/services/execution_service.py:397-404 | A concrete six-step run in which skipped is left: cancel, skip another task, skip the swept task whose worker is inside, and interrupt that worker. |
| `EngineCommit.CommitGap` | backend/services/execution_service.py:470-472 | A concrete run in which the worker of the first of two tasks dies between the commit of its success and the pass after it: the second task is ready, and the state is one nothing leads out of. |
| `EngineCommit.SkipGap` | backend/services/execution_service.py:682-683 | A concrete run in which `skip_task` dies between its commit and the pass after it: the task below is ready and stays pending for ever. |
| `EngineCommit.RetryGap` | backend/services/execution_service.py:657-658 | A concrete run in which `retry_task` dies between its commit and the pass after it: the retried task is ready and stays pending for ever. |
| `EngineRetry.RetryTaskAgrees` | backend/services/execution_service.py:647-659 | After a retry, status, `finished_at` and task states agree whatever they were before; a refused retry changes nothing. |
| `EngineRounds.RoundIsSteps` | backend/services/watchdog_service.py:59-68 | A round of the watchdog that nobody else's step interrupts is a chain of legal engine steps: the reaper, a delivery for each of its letters, the drain of the rest, the hung tasks, the repair. It ends with the rows and table of `RunOnce`, and what its process had buffered before is unhandled for good. |
| `EngineExample.OneTaskOnTime` | backend/services/execution_service.py:340-475 | The same run of one task can be had on time, so the premises of the timed results can be met. |
| `PassFixpoint.PassSufficesExactly` | backend/services/execution_service.py:239-304 | For every list order: a second pass changes nothing if and only if, read off the rows before the first one, no task stays pending that waits for one the pass fails or cancels. |
| `PassFixpoint.PassSinks` | backend/services/execution_service.py:242-276 | The tasks a pass fails or cancels are exactly those a walk along the list finds blocked, by what was lost before or has sunk on the way. |
| `Readiness.OnePassIsEnough` | backend/services/execution_service.py:239-304 | When tasks are listed dependencies-first a second pass changes nothing. |
| `EngineGaps.OnePassCanMiss` | backend/services/execution_service.py:239-304 | For other orders it can: a concrete three-task chain listed backwards. |
| `Readiness.PassQueuesReady` | backend/services/execution_service.py:239-304 | Whatever the list order, a pass queues exactly the tasks that were pending and ready at entry, in list order, one fresh job each, and touches nothing but pending tasks. |
| `Readiness.CleanPassSettles` | backend/services/execution_service.py:265-304 | After a pass over rows without failed or cancelled dependencies no pending task is ready or blocked, in any list order. |
| `Readiness.FailDownstreamCloses` | backend/services/execution_service.py:709-736 | After `_fail_downstream` no pending task depends on a failed one. |
| `Readiness.FailDownstreamIsLeast` | backend/services/execution_service.py:709-736 | It fails no more than any set that holds the failed tasks and is closed under the rule: a least fixpoint, independent of list order. |
| `Effects.InitialRowsEffect` | backend/services/execution_service.py:168-179 | Every task row of a new execution carries its own name, dependencies and configuration from the document, pending and with no retries; the order of the rows is that of the document. |
| `Effects.StatusMeans` | backend/services/execution_service.py:738-780 | Which of the five statuses goes with which task states and cancel flag, each as an if-and-only-if. |
| `Effects.RefreshEffect` | backend/services/execution_service.py:738-780 | The status fits the task states; `finished_at` is set at the first end and cleared by a return to running; an event is written exactly when a final status is new. |
| `Effects.EnqueueReadyEffect` | backend/services/execution_service.py:220-307 | A pass decides every pending row by what it sees of its dependencies, rows further up the list already decided: failed if one is missing or failed, else cancelled if one is cancelled, queued exactly if all have succeeded or were skipped. Each task queued has one new job, with every column given: available after `delay_seconds`, created now, priority, retry count, tenant, workflow and execution from its rows. |
| `Effects.StartEffect` | backend/services/execution_service.py:315-358 | The handler runs exactly for an unfinished task of an execution that is not being cancelled; rows and table in each of the three cases. |
| `Effects.FinishEffect` | backend/services/execution_service.py:387-475 | Which of the four ends an answer leads to, by `fail_first_n`, the cancel flag, `allow_failure` and the retries left, and what each leaves in the rows and the table. |
| `Effects.RetryEffect` | backend/services/execution_service.py:510-540 | The failed attempt is counted, its job acknowledged, and the one new job is available after the backoff times two to the number of earlier failures, created now, with every other column given. |
| `Effects.FailTaskEffect` | backend/services/execution_service.py:546-564 | Besides the task itself exactly the least set of pending tasks closed under waiting for a failed one fails. |
| `Effects.HandleDeadLetterEffect` | backend/services/execution_service.py:566-587 | A lost worker fails its task in every state but success, skipped and failed, cancelled included. |
| `Effects.CancelEffect` | backend/services/execution_service.py:589-608 | Nothing at all changes at status success, failed or cancelled; otherwise the flag is set, pending, queued and retrying rows are cancelled, running ones are not, and the execution's active jobs are cancelled. |
| `Effects.SkipEffect` | backend/services/execution_service.py:661-686 | Accepted exactly for pending, queued, retrying, failed and cancelled tasks; then the row is skipped, its queued jobs are cancelled and a pass follows. |
| `RetryEffects.RetryTaskEffect` | backend/services/execution_service.py:622-659 | On any rows, a retry of a pending, queued, retrying, failed or cancelled task: failed, cancelled, skipped and pending rows of its branch start over with no retries, and end failed or cancelled only if a dependency does; other rows keep their retries, and their states unless they were pending; each task queued has exactly one new job. Any other retry changes nothing. |
| `RetryEffects.RetriedTaskIsQueued` | backend/services/execution_service.py:622-659 | A failed, cancelled or pending task whose dependencies have succeeded or were skipped is queued by its retry, with retries 0 and exactly one new job behind its delay. |
| `RetryEffects.RetryRevives` | backend/services/execution_service.py:632-645 | If every failed or cancelled task lies in the retried branch, none is left and the cancel flag is gone: a cancelled execution comes back. |
| `EngineFinal.SuccessIsFinal` | backend/services/execution_service.py:589-592 | In every run, with cancellations and skips, once the status is success no row of the execution ever changes again. |
| `EngineFinal.EndedIsNotCancelled` | backend/services/execution_service.py:591-592 | In every run, a cancellation at status success, failed or cancelled changes neither rows nor jobs. |
| `Availability.NotBeforeItsTime` | backend/queue/job_queue.py:134-149 | However claims interleave with everything else, whoever selects a job reads a clock at or past its `available_at`, which only a replay moves. |
| `Availability.RetryKeepsBackoff` | backend/services/execution_service.py:534 | A retried attempt is not taken before its backoff has passed: the configured wait, doubled for each earlier failure. |
| `Availability.PassKeepsDelay` | backend/services/execution_service.py:292 | A job queued by a pass is not taken before the task's `delay_seconds` have passed. |
| `ExecutionService.ExecutionService.constructor` | backend/services/execution_service.py:168-179 | Creates the rows of a stored document: per task its name, dependencies and configuration, all pending. |
| `ExecutionService.ExecutionService.RefreshExecutionStatus` | backend/services/execution_service.py:738-780 | Branches on the set of task states in place; the row becomes exactly what the status function and the event rule say. |
| `ExecutionService.ExecutionService.EnqueueIfReady` | backend/services/execution_service.py:239-304 | One row of the loop: missing, failed, cancelled or ready dependencies, in that order. |
| `ExecutionService.ExecutionService.EnqueueReadyTasks` | backend/services/execution_service.py:220-307 | The loop over the rows equals the specified pass; with a cancellation requested it cancels everything unfinished instead. |
| `ExecutionService.ExecutionService.StartTask` | backend/services/execution_service.py:315-358 | Acknowledges jobs of finished tasks, cancels under a cancellation, otherwise marks the task running; answers whether the handler runs. |
| `ExecutionService.ExecutionService.EndStopped` | backend/services/execution_service.py:397-419 | A cancelled attempt: task cancelled, job acknowledged, status refreshed. |
| `ExecutionService.ExecutionService.EndWell` | backend/services/execution_service.py:455-475 | A good attempt: task successful, job acknowledged, ready tasks queued, status refreshed. |
| `ExecutionService.ExecutionService.FinishTask` | backend/services/execution_service.py:387-475 | Decides between the cancelled, the good and the failed end; the first `fail_first_n` attempts fail. |
| `ExecutionService.ExecutionService.HandleFailure` | backend/services/execution_service.py:480-564 | Tolerated failures count as success, others are retried while `max_retries` allows and fail the task after that. |
| `ExecutionService.ExecutionService.QueueRetry` | backend/services/execution_service.py:510-540 | Counts the attempt and queues a fresh job behind the exponential backoff. |
| `ExecutionService.BackoffDoubles` | backend/services/execution_service.py:534 | The first retry waits for the configured backoff and each further one twice as long as the one before. |
| `ExecutionService.ExecutionService.EndFailed` | backend/services/execution_service.py:546-564 | Fails the task and, through the pending tasks below it, everything that waits for it. |
| `ExecutionService.ExecutionService.FailDownstreamTasks` | backend/services/execution_service.py:709-736 | The nested loops terminate and fail exactly the pending tasks that a chain of pending tasks links to a failed one. |
| `ExecutionService.ExecutionService.HandleDeadLetter` | backend/services/execution_service.py:566-587 | Fails a task whose worker was lost, unless it has succeeded, failed or been skipped. |
| `ExecutionService.ExecutionService.CancelExecution` | backend/services/execution_service.py:589-608 | Flags the execution, cancels what has not started and its jobs; a terminal execution is left alone. |
| `ExecutionService.ExecutionService.SkipTask` | backend/services/execution_service.py:661-686 | Refused for running and complete tasks; otherwise marks the task, cancels its queued jobs and queues what becomes ready. |
| `ExecutionService.ExecutionService.RetryTask` | backend/services/execution_service.py:622-659 | Refused for running and complete tasks; otherwise resets exactly the task and what is reachable from it, then queues what is ready. |
| `Downstream.DownstreamNames` | backend/services/execution_service.py:694-707 | Terminates on any graph, cyclic or not, and returns exactly the tasks one or more dependency edges below. |
| `Downstream.PartlyDone` | backend/services/execution_service.py:712-736 | A partial propagation that no further row wants to extend is the whole one. |
| `JobQueue.SelectFindsEligible` | backend/queue/job_queue.py:134-149 | The select returns a row if and only if some unlocked job is queued, due and below its workflow's limit. |
| `JobQueue.SelectedMeans` | backend/queue/job_queue.py:134-149 | A row is selected exactly if it is first in line: no unlocked claimable job has waited past the aging window unless it has too; among equals none has a higher priority, then none was available earlier, then none has an older row. |
| `JobQueue.DatabaseJobQueue.ClaimNextAvailable` | backend/queue/job_queue.py:129-192 | Leases a job that is first in line to the worker, counts the attempt and touches no other row; returns nothing only if every claimable job is locked. |
| `JobQueue.DatabaseJobQueue.RenewLease` | backend/queue/job_queue.py:212-226 | Extends the lease exactly when the job is leased by this worker, and says so. |
| `JobQueue.DatabaseJobQueue.RequeueStaleJobs` | backend/queue/job_queue.py:272-312 | The loop returns every expired lease to the queue, gives up those on their last attempt, and buffers exactly these. |
| `JobQueue.DatabaseJobQueue.ReplayDeadLetter` | backend/queue/job_queue.py:366-385 | Puts a flagged job of the tenant back in the queue, available now and with no attempts counted, and touches no other row; anything else is not found. |
| `JobQueue.DatabaseJobQueue.ResolveDeadLetter` | backend/queue/job_queue.py:387-403 | Sets a flagged job of the tenant to completed, clears its flag and touches no other row; anything else is not found. |
| `QueueTrace.OpKeepsRecords` | backend/queue/job_queue.py:160-312 | Every operation keeps the record invariant: lease expiry set iff leased; completion time set iff completed, cancelled or failed; failed implies dead-lettered, dead-lettered implies failed or completed; attempts within bounds. |
| `QueueTrace.TraceKeepsRecords` | backend/queue/job_queue.py:160-403 | So every record is in order after every sequence of operations, whatever their arguments and clock readings. |
| `QueueTrace.AttemptsCountClaims` | backend/queue/job_queue.py:167-171 | In every run of queue operations, `attempts` is the number of successful claims since the job was enqueued or replayed, and never exceeds `max_attempts`. |
| `QueueTrace.OneClaimPerStay` | backend/queue/job_queue.py:160-166 | Between two successful claims of a job its lease has expired or it was replayed: of several workers after one row, one wins. |
| `QueueTrace.OpKeepsFlag` | backend/queue/job_queue.py:228-312 | One operation breaks the rule that exactly the failed jobs are flagged as dead-lettered if and only if it acknowledges a job that was given up before. |
| `QueueTrace.FlagFitsExactly` | backend/queue/job_queue.py:228-403 | Along every trace the flag means failed in each table if and only if no given-up job is ever acknowledged. |
| `QueueTrace.LateAcknowledgement` | backend/queue/job_queue.py:228-250 | It happens: a late acknowledgement leaves a completed job flagged, in a concrete trace. |
| `ClaimLimit.SplitClaimLimit` | backend/queue/job_queue.py:117-195 | With `W` workers whose selects and updates interleave freely with each other, with abandoned claims and with every other operation, and whichever locked rows a select skips, a workflow never has more than its limit plus `W - 1` leased jobs. |
| `ClaimLimit.AtomicClaimLimit` | backend/queue/job_queue.py:117-192 | When select and update are one step the limit itself holds. |
| `ClaimLimit.SplitClaimLimitIsReached` | backend/queue/job_queue.py:117-192 | The bound is exact: for every limit and every `W` some interleaving reaches it. |
| `Aging.BoundedOvertaking` | backend/queue/job_queue.py:129-192 | Claims in two statements under row locks: during the aging window an aged, eligible job is overtaken at most as often as the jobs available before the window can still be claimed, plus once for each select pending when it began. |
| `Aging.OvertakersWereThere` | backend/queue/job_queue.py:130-149 | Each claim selected in the window that overtakes it takes a job that was in the table and available before the window began; later arrivals and replays never do. |
| `Timing.RenewalIsTwiceAsFast` | backend/workers/runtime.py:176 | For all permitted settings the renewal interval is the heartbeat interval or half the lease, whichever is shorter, and at least one second. |
| `Timing.NeverRobbed` | backend/queue/job_queue.py:212-226 | In every run of the whole queue (claims, renewals, acknowledgements, insertions, both cancellations, reaping, replay, resolve): as long as renewals lose at most half a lease to everything else, the lease reaper leaves every live worker's job as it is and the worker still holds it, unless it was cancelled. |
| `EngineTiming.GuardsHold` | backend/workers/runtime.py:175-189 | Under a clock, with the hung-task query and the handling of its rows as separate moves: every move of an on-time run is one the engine permits, the lease reaper's included, except that a strike is permitted if and only if nobody is inside the struck task. |
| `EngineTiming.OnTimeIsFailStop` | backend/workers/runtime.py:175-189 | In every on-time run, whatever the watchdog strikes: whenever the lease reaper comes by, no live worker's lease has expired. |
| `EngineStrikes.ListedIsMetExactly` | backend/services/watchdog_service.py:82-111 | In every on-time run: once the query has returned a task, somebody is inside it at a later moment if and only if it was begun after the query by a worker that has not left, been interrupted or died since. |
| `EngineStrikes.OnTimeRunIsRun` | backend/services/watchdog_service.py:82-111 | An on-time run, in which the watchdog strikes any task it has ever listed at any later time, is a run of the engine, with all results about runs, if and only if no struck task was begun since its listing by a worker still at it. |
| `EngineStrikes.RecheckedRunIsRun` | backend/services/watchdog_service.py:97-111 | If the query would still return each task when it is struck, the on-time run is a run of the engine: re-reading the row before the strike would suffice. |
| `EngineStrikes.NoTaskHasTwoOwners` | backend/services/execution_service.py:566-587 | In every on-time run, even after the watchdog has failed a task somebody is inside: no task has two jobs that are queued, leased or held by a live worker, and no pending task has a job. |
| `EngineOwners.StepKeepsSole` | backend/services/execution_service.py:265-304 | Every step of the engine, under cancellations and operators too, keeps it so: a new job is only ever made for a pending task or for one whose owner gives it up. |
| `EngineRestart.StrikeMeetsWorker` | backend/services/watchdog_service.py:86-111 | A concrete on-time run under the default settings: the query returns a crashed attempt's row, a new attempt begins, and the watchdog fails the task with the punctual live worker inside. It is no run of the engine. |
| `EngineTiming.OnTimeRunProjects` | backend/workers/runtime.py:175-189 | Seen alone, the queue and the heartbeats of an on-time run are runs of the clocked queue and of the watch, step by step. |
| `Timing.LiveTasksAreNotHung` | backend/services/watchdog_service.py:82-95 | While the overhead around handlers is within two heartbeats, the hung-task query never returns a task a live worker is inside, whatever timeout it was configured with. |
| `Timing.OverheadBoundIsExact` | backend/services/watchdog_service.py:82-95 | The two heartbeats are exact: the query can return a task with a punctual live worker inside if and only if the overhead around handlers exceeds them. |
| `Runtime.LostAllEffect` | backend/services/watchdog_service.py:59-63 | Of a list of tasks whose workers were lost each ends failed, unless it had succeeded or been skipped; of the other tasks only pending ones fail. |
| `Runtime.WorkerManager.ProcessDeadLetters` | backend/workers/runtime.py:167-173 | Empties the shared buffer and hands every task in it to `handle_dead_letter`. |
| `Runtime.WatchdogService.ReapHungTasks` | backend/services/watchdog_service.py:82-111 | Reads the running tasks with an old heartbeat off the rows, in row order, and fails exactly these. |
| `Runtime.WatchdogService.RunOnce` | backend/services/watchdog_service.py:59-68 | Handles exactly the letters of its own pass, then the tasks that hang by then, repairs an orphaned status, and discards whatever else the buffer held. |
| `Runtime.HungTasksAre` | backend/services/watchdog_service.py:82-95 | The query returns exactly the running tasks silent for longer than the longest timeout and two heartbeats, each once. |
| `DagService.Validate` | backend/services/dag_service.py:10-37 | Rejects for duplicates, for an unknown dependency or for a cycle, each exactly when that is the first thing wrong, and accepts exactly the valid documents. |
| `DagService.Drain` | backend/services/dag_service.py:25-37 | The work-queue loop visits as many tasks as there are names exactly when the graph is acyclic. |
| `DagService.BuildMaps` | backend/services/dag_service.py:15-23 | Builds both maps with repeated dependencies counted, or stops at the first unknown dependency. |
| `DagService.Release` | backend/services/dag_service.py:31-34 | Decrements once per listed repeat and queues exactly the tasks whose count reaches zero. |
| `Dag.MutualWaitIsCycle` | backend/services/dag_service.py:36-37 | Tasks that all wait for one another contain a cycle. |
| `Dag.ListingMeansAcyclic` | backend/services/dag_service.py:25-37 | A dependencies-first listing of all tasks rules out cycles. |
| `Dag.AcyclicMeansListing` | backend/services/dag_service.py:25-37 | An acyclic graph with known dependencies has such a listing. |
| `BuilderCheck.CycleFinder.HasCycle` | frontend/src/pages/WorkflowBuilderPage.jsx:109-119 | The recursive search terminates; a reported cycle is one; otherwise everything below the task is visited and the search is back where it began. |
| `BuilderCheck.ReportsCycle` | frontend/src/pages/WorkflowBuilderPage.jsx:101-125 | The builder complains if and only if the graph it built has a cycle, for any task list. |
| `BuilderCheck.BuilderGraphAt` | frontend/src/pages/WorkflowBuilderPage.jsx:101-108 | With unique names the builder's graph gives each task exactly those of its dependencies that name a task. |
| `BuilderCheck.ChecksAgree` | frontend/src/pages/WorkflowBuilderPage.jsx:101-125 | With unique names and known dependencies, the builder reports a cycle if and only if the backend rejects the document for one. |
| `WorkflowService.WorkflowService.CreateWorkflow` | backend/services/workflow_service.py:19-74 | Stores a document exactly when it has tasks, is valid and its name is free; says which of these fails. |
| `WorkflowService.WorkflowService.CloneWorkflow` | backend/services/workflow_service.py:148-159 | Creates a workflow from the latest revision, which is never rejected as a graph. |
| `WorkflowService.WorkflowService.ArchiveWorkflow` | backend/services/workflow_service.py:140-146 | Flags the workflow and changes nothing else. |
| `WorkflowService.WorkflowService.UpdateWorkflow` | backend/services/workflow_service.py:76-138 | Takes the given name and tasks, keeps what is not given and appends one revision, or changes nothing and says why; an empty task list is refused. |
| `WorkflowService.StoredMeansFresh` | backend/services/execution_service.py:168-179 | Every stored document gives rows from which the engine's invariant starts. |
| `WorkflowService.NoDependencyIsMissing` | backend/services/execution_service.py:242-254 | In every state of every run the missing-dependency branch is unreachable. |
| `RateLimit.MemoryLevels` | backend/core/rate_limit.py:29-40 | As long as pruning is harmless (ten minutes refill a bucket, or there are few keys), a granted call costs its own key one token and no call changes any other key's level, now or later. |
| `RateLimit.MemoryRateLimiter.Consume` | backend/core/rate_limit.py:23-40 | Refills, answers, spends and prunes as specified; the advertised wait is just enough for one token. |
| `RateLimit.RedisRateLimiter.Consume` | backend/core/rate_limit.py:49-64 | Writes only when it grants; expired keys read as absent; the advertised wait is just enough. |
| `RateLimit.MemoryEffect` | backend/core/rate_limit.py:23-40 | What a call finds and leaves in memory: the bucket refilled by a sixtieth of the rate per second up to `burst`, settled, and one token less if granted; a granted call with more than ten thousand keys drops exactly the buckets untouched for ten minutes. |
| `RateLimit.RedisEffect` | backend/core/rate_limit.py:49-64 | What a call finds and leaves in Redis: a key not written for ten minutes counts as absent, and only a granted call writes. |
| `RateLimit.TokensBounded` | backend/core/rate_limit.py:23-64 | After any sequence of calls every bucket, in memory or in Redis, holds between zero and `burst` tokens. |
| `RateLimit.WindowBound` | backend/core/rate_limit.py:23-40 | Any stretch of calls grants a key at most `burst` requests plus what the rate earns in that time, as long as pruning is harmless. |
| `RateLimitExact.BoundedExactly` | backend/core/rate_limit.py:37-39 | That bound holds for every sequence of calls, with any number of keys, if and only if ten minutes refill a bucket. |
| `RateLimitExact.AlikeExactly` | backend/core/rate_limit.py:43-64 | The Redis form answers every sequence of calls as the memory form does if and only if ten minutes refill a bucket. |

## Left out

- SQLAlchemy sessions and database locking: each transaction is one atomic step on current rows, so stale identity maps and serialization failures are not modelled; skipped locked rows are.
- A finish is one step together with the `enqueue_ready_tasks` call after it; and so are a skip, a retry and `_spawn`. A crash between the two commits appears only in the gap results (`SpawnGap`, `CommitGap`, `SkipGap`, `RetryGap`); runs do not continue from it with other workers.
- Runs of the engine do not go on after a strike that met a live worker; what still holds then is `EngineStrikes.NoTaskHasTwoOwners` and the lease guard.
- EngineRounds.RoundIsSteps: the round runs without a step of anybody else between its transactions; interleaved, its transactions are the engine's separate steps.
- Other executions in the same queue: the engine has one execution's rows and jobs; the queue modules alone have many.
- Claim order inside the engine: a claim may take any queued job there, which allows more runs than the real order does.
- `retry_task`, replay and resolve of dead letters as steps of a run: retry is proved for one call after a run, and after it success no longer implies satisfied dependencies, because skipped tasks below are reset to pending.
- `_inflight` and `_cancelling`: an interrupt may strike any handler of a cancelled execution; a second handler's unexpected interrupt counts as a crash.
- `_enforce_cancellations` of the watchdog: it only sends those interrupts again.
- Jobs whose task row no longer exists: rows are never deleted while an execution runs.
- A dead letter whose handling raises an exception: it is logged and lost, which for the engine is the same as the drain.
- EngineCancel.CancellationHolds: says nothing once an operator skips a task or a tolerated failure ends after the cancellation, because both cancel running rows behind their workers' backs and a tolerated failure becomes a success.
- EngineMeasure.RunIsBounded: does not count lease renewals, of which a long-running handler may make any number.
- Aging.BoundedOvertaking: takes a selected row as locked until its claim ends, as the row locks of PostgreSQL make it; nothing is said of a database that lets others change the row in between.
- RateLimit.MemoryRateLimiter.Consume: rounding of the advertised wait, and a rate of zero, which the settings exclude.
- WorkflowService.WorkflowService.CreateWorkflow: two concurrent requests for one name, of which the database rejects the second.
- `last_error`, log lines, metrics, `updated_at`, `started_at`, worker identifiers on task rows and realtime broadcasts: written, never read by the modelled decisions.
- Clock skew: all processes read one clock, and a worker that is late with a renewal or a handler has to die in the model.
- Handlers, timeouts inside a handler, HTTP calls and secrets: a handler is an outcome chosen when it finishes.
- The tenant's execution quota: check-then-insert, bypassed by `retry_execution`, so not an invariant.
- Idempotency keys, revisions' metadata, export, listing, import: only easy members.
- The builder's trimming of names, its blank names and its form-field messages: task lists are taken as parsed.
- Schedules and cron, retention, webhooks, outbox delivery, auth, audit, routes, React pages: glue or library code.
