# A verified model of the WhatsApp group sender

The repository is a command-line tool and daemon that queues messages for WhatsApp groups in SQLite,
delivers them one at a time, and takes commands from the owner's own chat. This project models its hard
parts in Dafny and proves what they keep over whole runs.

`dafny verify dfyconfig.toml` checks everything.

## How the model is built

**The queue and its worker.** `Statements` gives every SQL statement on jobs and destinations as a
function on rows (a row's id is its position; rows are never deleted). `System` puts them into one state
machine: rows, destinations, the two pause keys, a clock, the running workers and a trace of events
(created, claimed, send called, error handled, manually retried, ...). A `Step` is one transaction or
one stretch of code without an `await`; what the environment decides (the transport's answer, the jitter
draw, whether a staged file exists, how long a step takes) is a parameter of the step, so a run is any
sequence of steps: enqueues, claims, crashes, restarts, denials, refreshes, operator actions, connection
events. A step that is impossible, or whose transaction is rolled back, changes nothing. Worker 0 is the
daemon: it takes the process lock, recovers the queue, and, unless it is in dry-run mode, begins only
when a connection opens. Worker j + 1 is the helper of the dry-run job j: the command-line process that
created the job and goes on to run it once (src/cli/index.ts:250-265). A worker's look at the pause keys,
its removal of an expired pause, the promotion, the bulk cancel and the claim are separate steps, between
which other processes run; the claim's clock reading lies between the look and the claim. A transition
refused inside `processOnce` escapes it and ends that process.

`Invariants`, `History`, `Delivery`, `Resend`, `Denial`, `Draining`, `Fairness`, `CleanStop`,
`Separation`, `Schedule`, `Simulated` (dry-run jobs), `Timing` (timed pauses), `Blocking` (pauses by
reason) and `Spacing` prove properties of all runs. Where a property fails on some runs, they prove when
exactly it holds; `Scenarios` has the runs that the other half of such a proof needs (allow a group,
wait, cancel every other job). `Storage` (the repositories as classes over a mutable database, each
statement a loop over rows) and `Worker` (the worker's class) are the same code in its imperative form:
each method's result is equal to the steps it stands for, so what is proved of runs holds of the
objects, and besides is written out column by column. `Outcomes` writes out what the end of a delivery
leaves behind; `Rounds` gives the steps of one call of `processOnce` and of the loop, `Quiet` what a call
nobody disturbs does to the rows. What other processes do at an await is an argument of the method that
awaits.

**Enqueueing.** `Enqueue` (one message, a stored forward), `Bulk` (many groups), `Targets` (resolving
what the user typed, the forward commands and their reports) and `Batches` (what a batch report adds up
to).

**Processes and connection.** `Lock` is the lock-file protocol with every file operation a step of its
own, `LockLimits` shows when it can break, `ProcessLock` is the class; `Connection` is the connection
manager with every await a task that may run at any later time, `ConnectionEnds` what a stop or a final
close leaves behind, `ConnectionManager` the class; `Controller` is the self-chat controller and its two
tables.

**Time.** Instants are integers (milliseconds). The database compares ISO text; `IsoTime` proves that
this is the same comparison. `RetryPolicy` is the backoff arithmetic over `real`.

## Where the code and the expectations differ

- The repository's own README (line 193) intends the manual retry for FAILED and REVIEW_REQUIRED jobs.
  The code's guard is the transition table (src/db/repositories/job-repository.ts:352), which also admits
  PROCESSING. A retry of a live PROCESSING job that the daemon is pacing, and has not been asked to stop,
  can lead to a second delivery from every such state (`Resend.RetryWhilePacingResends`; the state is
  reached, `Resend.SendAheadIsReached`). After a run without such a retry, the next retry is safe for
  every continuation exactly when it is not one either (`Resend.RetryIsSafeExactlyWhenCareful`), and no
  job is delivered twice without an error or a manual retry in between (`Resend.NoResendWithoutCause`).
- A job denied while a worker is pacing for it can still be sent, if the group is allowed again in time:
  a queued job is paced when an operator retried it under the daemon. It is sent in some later run
  exactly when a worker not asked to stop was pacing for it at the denial
  (`Denial.DeniedJobSentExactlyWhenPaced`, reached in `Denial.DeniedJobSentAfterAll`).
- Claims are in order of due time, but a job due at the very millisecond of a put-back can still be
  overtaken (`Fairness.PutBackOvertakesAtTheSameInstant`). From the next millisecond on, the only thing
  that gets ahead of it is a new job whose stamp was read before its due time and inserted after it
  (`Fairness.AheadOnlyShrinks`, `Fairness.LateStampHappens`).
- A claimer whose clock reading predates another process's promotion records a start before the
  schedule, though the claim itself is not early (`Schedule.PromotedAfterTheReading`); it happens exactly
  when the job was released by a later reading (`Schedule.EarlyStartExactlyWhenReleasedLater`).
- A pause for authentication, logout or a fatal close is not lifted by an opened connection only. The
  worker, the connection and `auth logout --local-only` (src/cli/index.ts:416-420, without the lock)
  share one key for the reason. A delivery in hand that ends in a rate limit replaces the reason by one
  that expires; and a reason written between the daemon's look at the keys and its claim comes too late,
  or is even removed together with an expired rate limit. Without an opened connection a live job is
  claimed on some run exactly when the live daemon stands between its look and its claim, or, not asked
  to stop, holds a PROCESSING live job with attempts left
  (`Blocking.BlockHoldsExactlyWhenNothingSlipsThrough`, both reached in
  `Blocking.SlippingThroughIsReached`).
- The lock is exclusive under these conditions, and for each there is a run on which it fails without it:
  after no start and no death can two processes still come to remove a dead owner's file
  (`Lock.RaceForDeadFile`, `Lock.DeathAmongContenders`), no process ends between another's reading of its
  pid and its liveness probe (`Lock.ExitUnderProbe`), a created file is written within 30 s
  (`Lock.SlowWriter`), and the reader of an unreadable file looks up its age within 30 s
  (`Lock.SlowReader`). From any safe state a start or a death can end in two holders, with all the other
  conditions kept from then on, exactly when it breaks one of the first two
  (`LockLimits.TwoHoldersExactlyWhenCareless`).
- A `disconnect` during the await in `createSocket` does not stop it: the new socket becomes current
  after the stop, is deaf for ever, and no later `connect` opens another, since the pending connect
  promise never settles (`ConnectionEnds.StopWhileConnecting`). The awaited `useSQLiteAuthState` itself
  awaits nothing (src/whatsapp/auth-state.ts:29), so the window is one microtask. Exact conditions:
  `ConnectionEnds.StopIsFinalExactlyWithoutBuild` and `ConnectionEnds.StopWedgesExactlyWhen`.
- A fatal or logged-out close of the current socket can be followed by another reconnect attempt, while
  the worker stays paused; `ConnectionEnds.FinalCloseRearmsExactlyWhen` says exactly when.
- The insert of a job and the lookup of the job standing in its way are separate statements. If that job
  is cancelled in between, the caller gets the raw constraint error (`Storage.JobRepository.Create`,
  `Bulk.BulkMessageService.EnqueueTarget`).
- One chat and message id, delivered once marked forwarded and once not, can be both stored as a source
  and executed (`Controller.TwoFormsDoBoth`).
- Recovery takes a dry-run row away from a helper that is still working on it, and the helper's refused
  write puts the row back without an operator, so the job is claimed once more
  (`Simulated.SecondAttemptIsReached`). It stays within its budget all the same
  (`Simulated.DryAttemptsWithinBudget`).
- A bulk request's schedule is passed on for forwards only
  (src/messaging/bulk-message-service.ts:49-63); `Bulk.BulkMessageService.Enqueue` does the same.

## Model

| member | source | states |
|---|---|---|
| Resend.NoResendWithoutCause | src/messaging/queue-worker.ts:62-139 | From an empty queue, on every run without a manual retry of a live PROCESSING job that the daemon is pacing and goes on to send, two live sends of one job have an error recorded by the worker or a manual retry of it between them; crashes alone never repeat a delivery |
| Resend.RetryIsSafeExactlyWhenCareful | src/db/repositories/job-repository.ts:347-371 | After every such run: no continuation without further manual retries sends j twice without a cause exactly when the retry of j was not of a job the daemon is going to send |
| Resend.RetryWhilePacingResends | src/db/repositories/job-repository.ts:347-371 | From every sound state in which the daemon is pacing a live PROCESSING job, not asked to stop, a manual retry of it can lead to a second live send with no error or retry in between |
| Resend.SendAheadIsReached | src/messaging/queue-worker.ts:62-75 | Such a state is reached from an empty queue |
| Delivery.AttemptsWithinBudget | src/messaging/retry-policy.ts:26-67 | On every run from an empty queue a live job's attempts never exceed its budget plus the authentication pauses and put-backs since its last manual retry, and only the daemon holds it |
| Simulated.DryAttemptsWithinBudget | src/messaging/retry-policy.ts:26-67 | On every run from an empty queue every dry-run job stays in the same budget, and since its last manual retry makes at most two attempts that are not put back |
| Simulated.SecondAttemptIsReached | src/db/repositories/job-repository.ts:307-334 | The second is reached: recovery takes the row from its helper, whose refused write puts it back, and the daemon claims it |
| Draining.ClaimsArePaidFor | src/db/repositories/job-repository.ts:243-251 | Over any run the claims of any job, live or dry-run, old or new, and the attempts it has left are covered by the attempts it had left, one budget at creation and per manual retry, and one per authentication pause or put-back |
| Draining.QueuePays | src/messaging/queue-worker.ts:62-201 | The same summed over the queue, for the live jobs or for all: claims made plus attempts left are at most the attempts there were plus what the run gave |
| Draining.QueueDrains | src/messaging/queue-worker.ts:62-201 | If the run creates, manually retries, pauses for authentication and puts back none of the jobs counted (the live ones, or all), its claims number at most the fall of their total remaining attempts |
| Draining.RunHealthy | src/messaging/queue-worker.ts:62-201 | Soundness and the budget of all jobs, and the ownership of live ones, survive every run |
| Invariants.StepGood | src/domain/jobs.ts:19-50 | Every step of every process keeps row shapes and the active-key index, and moves each row along at most one edge of the transition table |
| Invariants.RunSound | src/db/database.ts:91-102 | The same for every run |
| Invariants.KeysStayUnique | src/db/migrations/index.ts:112-116 | From an empty queue, on every run: at most one active row per idempotency key, hence at most one SENT row per key, and every row has the shape of its status |
| Invariants.FinalRowsFrozen | src/domain/jobs.ts:34-36 | SENT, CANCELLED and DRY_RUN rows are never changed again |
| Jobs.TableReadBackwards | src/domain/jobs.ts:19-50 | The transition table read backwards, status by status: where each can be entered from; and the final statuses are exactly those that cannot be left |
| Statements.PromoteRefinesTable | src/db/repositories/job-repository.ts:182-192 | Promotion moves rows only SCHEDULED to PENDING, keeping shape and index |
| Statements.CancelDisabledRefinesTable | src/db/repositories/job-repository.ts:194-213 | The bulk cancel moves rows only along table edges, keeping shape and index |
| Statements.RefreshRefinesTable | src/db/repositories/destination-repository.ts:74-84 | The cancel of a group refresh moves rows only along table edges, keeping shape and index |
| Statements.DenyRefinesTable | src/db/repositories/destination-repository.ts:126-136 | The cancels of setEnabled(false) and setCanSend(false) move rows only along table edges, keeping shape and index |
| Statements.RecoveryRefinesTable | src/db/repositories/job-repository.ts:307-334 | Recovery moves rows only PROCESSING to REVIEW_REQUIRED, keeping shape and index |
| Statements.InsertKeepsWellFormed | src/db/repositories/job-repository.ts:89-144 | An insert that succeeds keeps shape and index |
| Statements.StoreKeepsWellFormed | src/db/migrations/index.ts:112-116 | A row update either fails on the index or keeps it unique; a row that was already active never conflicts |
| Statements.ClaimKeepsWellFormed | src/db/repositories/job-repository.ts:242-251 | Claiming is a table edge, keeps shape and index, and never conflicts |
| Statements.TransitionKeepsWellFormed | src/db/repositories/job-repository.ts:257-305 | A transition is a table edge that keeps shape and index, or an error |
| Statements.ManualRetryKeepsWellFormed | src/db/repositories/job-repository.ts:347-371 | A manual retry keeps shape and index and succeeds exactly from the statuses the table lets into RETRY, from an inactive one only if no other active row holds the key |
| Fairness.AheadOnlyShrinks | src/db/repositories/job-repository.ts:227-240 | Of all steps that leave a job due for a millisecond queued, exactly the successful insert of a job stamped before its due time adds to the jobs ordered before it, and it adds only that job |
| Fairness.LateStampHappens | src/messaging/message-service.ts:103-148 | Such an insert is possible in a reached state: its stamp was read before another job became due |
| Fairness.RivalTakesFromAhead | src/db/repositories/job-repository.ts:237-250 | A claim of the daemon that could have taken j takes j or a job ordered before it |
| Fairness.BoundedBypass | src/db/repositories/job-repository.ts:224-255 | Over any run in which j, due for a millisecond, stays queued, the daemon's claims that passed it over number at most the jobs ahead of it at the start plus the jobs inserted with a stamp before its due time |
| Fairness.FirstInLineIsClaimed | src/db/repositories/job-repository.ts:237-251 | With nobody ahead, the next such claim takes j |
| Fairness.PutBackOvertakesAtTheSameInstant | src/messaging/queue-worker.ts:75-80 | A job due at this very instant is overtaken by an older job put back now |
| Denial.SendsOnlyWhileAllowed | src/messaging/queue-worker.ts:83-105 | Every send call goes out in a step in which its destination is enabled and sendable |
| Denial.DenialCancelsQueued | src/db/repositories/destination-repository.ts:114-136 | A denial, an unsendable refresh or a permission failure cancels every queued job of the destination and blocks it |
| Denial.DenialSparesOthers | src/db/repositories/destination-repository.ts:178-198 | A denial leaves the rows and permissions of every other destination as they are |
| Denial.DeniedJobSentExactlyWhenPaced | src/messaging/queue-worker.ts:75-105 | A job of any kind queued at a denial, unsendable refresh or permission failure is sent in some later run exactly when a worker not asked to stop was pacing for it |
| Denial.DeniedJobNeverSent | src/messaging/queue-worker.ts:192-199 | From an empty queue and after any run without a manual retry of a live job the daemon is going to send: a live job queued at a denial is never sent afterwards, even if the destination is allowed again |
| Denial.DeniedJobSentAfterAll | src/db/repositories/job-repository.ts:347-371 | With such a retry it can be: claim, retry, deny, allow again, and the daemon sends a job that the denial cancelled |
| Denial.CancelledIsSentExactlyWhenPaced | src/db/repositories/job-repository.ts:336-345 | A cancelled job is sent in some later run exactly when a worker not asked to stop is pacing for it |
| Denial.CancelledNeverSent | src/db/repositories/job-repository.ts:336-345 | A cancelled job no such worker is pacing for stays cancelled and is never sent in any later run |
| Denial.PassLeavesNoneHeldBack | src/db/repositories/job-repository.ts:194-213 | After a worker's bulk cancel no queued row belongs to a known group that is disabled or cannot be sent to; exactly those rows were changed, to CANCELLED with DESTINATION_ERROR |
| Denial.RetriedUnderDenialNeverSent | src/db/repositories/job-repository.ts:347-371 | A job that is queued although its group is out of use, as after a manual retry, is never sent, from then on and on any run, once a worker has passed while the group still was out of use, even if the group is allowed again; nobody is pacing for it at the beginning |
| Denial.RetryUnderDenial | src/db/repositories/job-repository.ts:347-371 | Such a retry is possible and leaves the job in that state |
| Denial.ForwardNeverBlocks | src/whatsapp/transport.ts:30-41 | A failed forward never makes its destination unsendable |
| CleanStop.RunNoOrphans | src/messaging/queue-worker.ts:62-139 | On every run in which nobody dies busy, every PROCESSING row is in some worker's hand |
| CleanStop.NormalStopLeavesNothing | src/messaging/queue-worker.ts:47-59 | When all workers have stopped normally, recovery changes no row |
| CleanStop.RecoveryReviewsExactlyTheInFlight | src/db/repositories/job-repository.ts:307-334 | After the daemon dies in the middle of a delivery, recovery reviews exactly the job it held |
| CleanStop.ReviewNeedsOperator | src/domain/jobs.ts:33 | A live job under review is moved on only by an operator's retry, cancel or mark-sent |
| Separation.ClaimsRespectMode | src/db/repositories/job-repository.ts:236 | A dry-run worker claims dry-run jobs only |
| Separation.DryRunNeverMixes | src/messaging/queue-worker.ts:101-115 | On every run: a dry-run job is never sent live and is SENT only by operator confirmation; a live job never becomes DRY_RUN; the two never share a key |
| Schedule.NeverClaimedEarly | src/db/repositories/job-repository.ts:229-240 | When a job is claimed, its scheduled time and its next-attempt time have passed; the recorded start is the instant the claimer read |
| Schedule.NoRecordedStartIsEarly | src/db/repositories/job-repository.ts:243-250 | On every run from an empty queue whose claims use readings no earlier than those of the promotions and immediate enqueues before them, no recorded start precedes the schedule; time may pass between a reading and its transactions |
| Schedule.EarlyStartExactlyWhenReleasedLater | src/messaging/queue-worker.ts:64-69 | Whatever ran before, a claim with reading r records an early start exactly when an earlier step released the job by a reading at or after its schedule and r lies before the schedule |
| Schedule.PromotedAfterTheReading | src/messaging/queue-worker.ts:64-69 | It happens for every r and later t: the daemon looks and reads r, a job is due at t, and another process promotes it then, before the daemon claims |
| Timing.PauseHasItsCause | src/messaging/queue-worker.ts:157-171 | On every run, a rate-limit pause was set by a job that waits for exactly that instant or was cancelled, so it is due when the pause expires |
| Timing.PauseKept | src/messaging/queue-worker.ts:203-213 | While pause_until lies ahead, only an opened connection changes it |
| Timing.PausedMeansNoClaims | src/messaging/queue-worker.ts:210-213 | From a rate limit until its pause_until, with no connection opened, no live job is claimed, whoever restarts |
| Blocking.ConnectionDecidesThePause | src/whatsapp/connection-manager.ts:161-215 | An opened connection lifts every pause and lets the daemon begin; a final close, a logout or a missing login stops every live worker at its next look; neither changes anything else |
| Blocking.BlockHoldsExactlyWhenNothingSlipsThrough | src/messaging/queue-worker.ts:203-211 | Under a reason AUTH_REQUIRED, LOGGED_OUT or FATAL: without an opened connection no run claims a live job exactly when the live daemon is not between its look at the pause keys and its claim, and does not, without having been asked to stop, hold a PROCESSING live job with attempts left |
| Blocking.SlippingThroughIsReached | src/messaging/queue-worker.ts:63-72 | Both other cases are reached: the connection ends for good while a message is being sent, and a local logout writes its reason between the daemon's look and its claim |
| Spacing.SendsAreSpaced | src/messaging/queue-worker.ts:215-224 | On every run, one worker instance's send call comes at least its interval after its previous send finished, however many claims ended without a send |
| RetryPolicy.DelayWithinBounds | src/messaging/retry-policy.ts:15-24 | Every delay lies between 100 ms and the larger of 100 ms and the rounded 1.2-fold cap |
| RetryPolicy.FirstDelay | src/messaging/retry-policy.ts:15-24 | The first delay: the smaller of base and cap, times 0.8 + 0.4 random, rounded, at least 100 ms |
| RetryPolicy.NextDelayDoubles | src/messaging/retry-policy.ts:21-23 | One attempt more waits as long as a doubled base would: with the first delay this fixes every delay |
| RetryPolicy.DelayStrictlyGrows | src/messaging/retry-policy.ts:21-23 | While the doubled delay is under the cap and the base at least 100, the next delay is larger for any two draws |
| RetryPolicy.DelaySaturates | src/messaging/retry-policy.ts:21-23 | Once the doubling has passed the cap, the delay no longer depends on the attempt |
| RetryPolicy.SaturationIsReached | src/messaging/retry-policy.ts:21-23 | After more attempts than the cap has milliseconds the delay is the jittered cap |
| RetryPolicy.TotalDelayBounded | src/messaging/retry-policy.ts:15-24 | The waiting over n attempts lies between 100 n and n times the largest delay |
| RetryPolicy.RetryOnlyWithinBudget | src/messaging/retry-policy.ts:26-67 | The decision for every class: a pause exactly for AUTH_REQUIRED and LOGGED_OUT; within the budget a rate limit, by the server's own delay if it named one, and a retry exactly for the four transient classes; failure for the listed permanent classes and, but for authentication, once the attempts are used up |
| Storage.JobRepository.FindByIdempotencyKey | src/db/repositories/job-repository.ts:151-161 | The newest active row with the key, none exactly when there is none |
| Storage.JobRepository.IndexRefuses | src/db/migrations/index.ts:112-116 | True exactly when another row with the key is in one of the seven statuses the index covers |
| Storage.JobRepository.Create | src/db/repositories/job-repository.ts:89-144 | Appends the row, or after a lookup of its own names the active row with its key, or reports the raw error if that row is gone by then; writes nothing otherwise |
| Storage.JobRepository.PromoteDueScheduled | src/db/repositories/job-repository.ts:182-192 | Row by row: a SCHEDULED row whose time has come is PENDING, any other is as it was; the count is of the changed rows |
| Storage.JobRepository.CancelDisabled | src/db/repositories/job-repository.ts:194-213 | Row by row: a PENDING, SCHEDULED, RETRY or WAITING_RATE_LIMIT row of a known group that is disabled or cannot be sent to is CANCELLED with DESTINATION_ERROR, any other is as it was; the count is of the changed rows |
| Storage.JobRepository.Claim | src/db/repositories/job-repository.ts:224-255 | Takes a row of an allowed group that is PENDING or whose next attempt is due, before every other such row by (due time, id); only that row changes, to PROCESSING with one attempt more |
| Statements.NextClaim | src/db/repositories/job-repository.ts:227-240 | The chosen row is claimable and before every other claimable one; none exactly when nothing is claimable |
| Storage.JobRepository.Transition | src/db/repositories/job-repository.ts:257-305 | Succeeds exactly on an existing row in a status the target can be entered from with no other active row holding its key; writes the target, the given columns and sent_at, or nothing |
| Storage.JobRepository.RecoverStaleProcessing | src/db/repositories/job-repository.ts:307-334 | Row by row: PROCESSING becomes REVIEW_REQUIRED with its error, any other row is as it was; returns how many there were |
| Storage.JobRepository.Cancel | src/db/repositories/job-repository.ts:336-345 | Cancels exactly from the six statuses the table allows, as one step of the system |
| Storage.JobRepository.Retry | src/db/repositories/job-repository.ts:347-371 | Succeeds exactly from PROCESSING, FAILED and REVIEW_REQUIRED with no other active row holding the key: RETRY, no attempts, due at once; otherwise writes nothing |
| Storage.JobRepository.MarkSent | src/db/repositories/job-repository.ts:373-379 | Succeeds exactly from PROCESSING and REVIEW_REQUIRED under the same condition: SENT now, confirmed by the operator; otherwise writes nothing |
| Storage.JobRepository.Counts | src/db/repositories/batch-repository.ts:37-48 | The number of positions with each status, overall (job-repository.ts:381-387) or in one batch; statuses with none are absent |
| Storage.DestinationRepository.Resolve | src/db/repositories/destination-repository.ts:95-101 | The destination with that JID, or one with that alias up to the case of ASCII letters, none exactly when there is none; the only one while aliases are unique |
| Storage.DestinationRepository.Synchronize | src/db/repositories/destination-repository.ts:41-93 | Group by group: the last report decides subject and sendability, permission and alias survive, a new group has neither, an unreported one stays; then exactly the queued rows of unsendable groups are cancelled |
| Storage.DestinationRepository.CancelUnsendable | src/db/repositories/destination-repository.ts:74-84 | Row by row: a queued row of a group that cannot be sent to is CANCELLED with DESTINATION_ERROR, any other is as it was |
| Storage.DestinationRepository.CancelFor | src/db/repositories/destination-repository.ts:126-136 | Row by row: a queued row of this destination is CANCELLED with DESTINATION_ERROR, any other is as it was |
| Storage.DestinationRepository.SetEnabled | src/db/repositories/destination-repository.ts:114-148 | Sets the flag of the named destination alone and, when denying, cancels exactly its queued rows; an unknown name changes nothing |
| Storage.DestinationRepository.SetCanSend | src/db/repositories/destination-repository.ts:178-198 | Sets the flag of the destination alone and, when blocking, cancels exactly its queued rows |
| Storage.DestinationRepository.SetAlias | src/db/repositories/destination-repository.ts:150-176 | Stores only well-formed aliases nobody else has, so aliases stay unique up to case |
| Worker.QueueWorker.Daemon | src/daemon.ts:35-112 | The daemon's worker is made after recovery and, if live, after a connection opened, whatever the others do until then |
| Worker.QueueWorker.Helper | src/cli/index.ts:250-265 | A helper is made once, for the dry-run job its process created |
| Worker.QueueWorker.RequestStop | src/messaging/queue-worker.ts:43-45 | Asks the worker to stop, nothing else |
| Worker.QueueWorker.IsGloballyPaused | src/messaging/queue-worker.ts:203-213 | Paused exactly when live and under a reason other than the rate limit or before pause_until; an expired pause is removed with the reason read before, whatever the others wrote since |
| Worker.QueueWorker.Pace | src/messaging/queue-worker.ts:215-224 | The wait ends; it proceeds exactly when no stop was asked for, never before the interval has passed and, undisturbed, never after |
| Worker.QueueWorker.TakeJob | src/messaging/queue-worker.ts:63-74 | Nothing under a pause; otherwise look, clear, read the clock, promote, cancel and claim, in this order with the others between any two; it adds one claim of this worker to the trace exactly when it returns a job |
| Worker.QueueWorker.BeginDelivery | src/messaging/queue-worker.ts:83-105 | The send call goes out exactly when the group is still enabled and sendable and the media is there; otherwise the row is FAILED with DESTINATION_ERROR or MEDIA_ERROR |
| Worker.QueueWorker.FinishDelivery | src/messaging/queue-worker.ts:105-137 | Records the transport's own answer: SENT under its id, DRY_RUN, or the failure, class by class; a row that cannot be moved ends the process |
| Worker.QueueWorker.HandleError | src/messaging/queue-worker.ts:141-201 | The failed row class by class: status, due time, last error; with it the pause keys, the stop, the blocked group and its cancelled rows; refused exactly when the row cannot be moved |
| Worker.QueueWorker.ProcessOnce | src/messaging/queue-worker.ts:62-139 | A call nobody disturbs returns false exactly when paused or nothing can be taken; otherwise it takes the first row in order, calls the transport exactly when the media is there, and the row carries the answer, written out class by class. A disturbed call is exactly this sequence of its own statements, with the environment's own answer, around the others' steps; the job goes back exactly when somebody asked for a stop by the end of the pacing. Unless somebody dies busy, no PROCESSING row is left without a worker |
| Worker.QueueWorker.RunLoop | src/messaging/queue-worker.ts:47-59 | Runs call after call, and sleeps after each that claimed nothing, until a stop is asked for, a call throws or the rounds end, each call on the course the state requires; if nobody dies busy and all are idle at its end, recovery would change nothing |
| Rounds.ForeignRunKeepsWorker | src/messaging/queue-worker.ts:75-105 | At an await the others leave this worker's record alone; it is asked to stop exactly when one of their steps asks it |
| Quiet.QuietlyDone | src/messaging/queue-worker.ts:62-139 | The run of steps of an undisturbed call has the outcome told from the rows as they were before it |
| Outcomes.ErrorIsRecorded | src/messaging/queue-worker.ts:141-201 | The machine's error step leaves exactly the written-out row, pause keys, worker and events for each class |
| Outcomes.AnswerIsRecorded | src/messaging/queue-worker.ts:105-137 | The same for the transport's answer |
| Enqueue.MessageService.Enqueue | src/messaging/message-service.ts:103-182 | A request that passes every check is stored, and its row is told from the request: group, text, media, schedule or the reading, attempts, mode, batch, no forward, and a key of these fields; a duplicate is an active row with that key; every refusal is justified and writes nothing |
| Enqueue.MessageService.EnqueueForward | src/messaging/message-service.ts:45-101 | The same for a stored forward: its row and its key carry the source and the schedule |
| Enqueue.SameForwardKeyMeansSameForward | src/messaging/message-service.ts:45-101 | Two forwards share a key exactly when they bring one source to one group for one time in one mode |
| Enqueue.MessageService.Store | src/messaging/message-service.ts:148-176 | Create, or return the active job with the key found after the insert failed, or the raw error if it has gone |
| Enqueue.OutcomeIsForTheKey | src/messaging/message-service.ts:148-176 | The job returned, new or old, is active, has the key asked for and goes to that key's group in its mode |
| Enqueue.SameKeyMeansSameMessage | src/messaging/idempotency.ts:21-34 | Two requests, with or without staged media, share a key exactly when they agree on group, content (text, schedule, options, media), and mode, and are both unforced or forced with one nonce |
| Enqueue.EqualEnqueuesShareOneRow | src/messaging/message-service.ts:148-176 | However the system runs in between, a second enqueue with the same key creates a row exactly when no row with it is active any more |
| Bulk.BulkMessageService.Enqueue | src/messaging/bulk-message-service.ts:39-82 | Every different target has its turn in the state the turns before left: one that must be refused fails, any other gets a row with the requested content, or is a duplicate of an active row with it, or fails if that row vanished between insert and lookup; the counts are of these results; the batch has exactly the new rows, one per target, each with the forward's source and schedule or the text |
| Bulk.BulkMessageService.EnqueueTarget | src/messaging/bulk-message-service.ts:47-73 | One target's turn, exactly |
| Batches.ReportTotalIsBatchRows | src/db/repositories/batch-repository.ts:37-48 | The per-status counts of a batch add up to its rows |
| Batches.ReportAddsUpForever | src/db/repositories/batch-repository.ts:37-48 | After any later run the counts still add up to the rows the batch was queued with |
| Targets.TargetResolver.ResolveTargets | src/whatsapp/target-resolver.ts:33-83 | Non-blank inputs = resolved + rejected + repeated; resolved groups differ and are usable, every rejection is true, no input is lost |
| Targets.TargetResolver.ResolveOne | src/whatsapp/target-resolver.ts:41-73 | A usable group the input refers to, or the reason that applies |
| Targets.TargetResolver.SnapshotAllowed | src/whatsapp/target-resolver.ts:85-95 | Exactly the groups messages may be sent to, once each, with the skipped count that completes the total |
| Targets.ForwardCommands.ForwardAll | src/cli/index.ts:128-133 | The targets are exactly the allowed groups; each has its turn with this source and time; queued + skipped + failed = known destinations |
| Targets.ForwardCommands.ForwardMulti | src/cli/index.ts:134-145 | The targets are the usable groups the inputs name, and each has its turn; queued + skipped + failed = targets typed; or nothing is queued and every issue is true |
| Targets.ForwardCommands.ForwardSet | src/cli/index.ts:146-157 | The targets are exactly the members that are usable groups, and each has its turn; queued + skipped + failed = members of the set |
| Targets.ForwardCommands.QueueForward | src/cli/index.ts:158-175 | Every target has its turn with this source and time, and the report counts what came of the turns; no target, nothing written |
| Lock.AtMostOneHolder | src/lock/process-lock.ts:32-70 | In every interleaving of single file operations under the conditions above, at most one process holds the lock and its own file is at the path |
| LockLimits.TwoHoldersExactlyWhenCareless | src/lock/process-lock.ts:32-70 | From any safe state, a start or a death lets some run that keeps the conditions from then on end with two holders exactly when it leaves two processes that can still remove a dead owner's file, or ends a process another is about to probe |
| Lock.OnlyOwnerOrDeathRemoves | src/lock/process-lock.ts:66-77 | Under the same conditions a lock file is removed only by its own process releasing it, or when that process is dead |
| Lock.RaceForDeadFile | src/lock/process-lock.ts:49-67 | Two processes starting on a dead owner's file can both hold the lock |
| Lock.DeathAmongContenders | src/lock/process-lock.ts:49-67 | An owner that dies while two others contend can leave both of them holding the lock |
| Lock.SlowReader | src/lock/process-lock.ts:54-66 | A reader slower than 30 s between reading and ageing the file breaks the lock |
| Lock.SlowWriter | src/lock/process-lock.ts:36-46 | A writer slower than 30 s breaks the lock |
| Lock.ExitUnderProbe | src/lock/process-lock.ts:50-66 | An owner that exits between another's read and probe breaks the lock |
| ProcessLock.ProcessLock.Acquire | src/lock/process-lock.ts:32-70 | The method is a run of the protocol; undisturbed it succeeds exactly on an absent file, a dead owner's file or one unreadable for 30 s, and otherwise names the live owner or the unreadable file |
| ProcessLock.ProcessLock.Release | src/lock/process-lock.ts:72-77 | Gives the lock up and deletes the file only if it carries this pid |
| Connection.OneTimerAndOneListener | src/whatsapp/connection-manager.ts:237-258 | In every interleaving: at most one timer armed, the manager's own, none while stopped; the registered controller listens to exactly the current socket |
| Connection.OldSocketsAreDeaf | src/whatsapp/connection-manager.ts:158-159 | Once a socket's generation has passed, its updates change nothing in any later state |
| Connection.ThreeSocketsAConnect | src/whatsapp/connection-manager.ts:185-207 | One connect call opens at most three sockets |
| ConnectionEnds.OnlyCurrentSocketBlocks | src/whatsapp/connection-manager.ts:161-215 | Of the connection's own writes, only those for the current socket touch the pause reason, and only an opened connection removes it |
| ConnectionEnds.OwnWritesKeepTheBlock | src/whatsapp/connection-manager.ts:170-171 | Without an opened connection the manager itself never removes the reason on any run (the worker may: `Blocking.BlockHoldsExactlyWhenNothingSlipsThrough`) |
| ConnectionEnds.StopIsFinalExactlyWithoutBuild | src/whatsapp/connection-manager.ts:106-149 | After a stop and without another connect, no run gives the manager a socket exactly when no createSocket was waiting at the stop |
| ConnectionEnds.StopWedgesExactlyWhen | src/whatsapp/connection-manager.ts:95-120 | After a stop `connecting` stays true on every run exactly when a connect call was pending that no pending task can end |
| ConnectionEnds.StopDuringBuildWedges | src/whatsapp/connection-manager.ts:97-149 | A stop during the only task that could end the connect, which then succeeds, has that end: every later connect does nothing |
| ConnectionEnds.StopWhileConnecting | src/whatsapp/connection-manager.ts:106-149 | The shortest such run from the start: connect, disconnect, createSocket returns; its socket is current and nobody ever hears it |
| ConnectionEnds.FinalCloseRearmsExactlyWhen | src/whatsapp/connection-manager.ts:161-257 | After a fatal or logged-out close of the current socket, with no connect and no news, the reconnect timer can come to be armed exactly when it is armed, or the manager is not stopped and a rejected timer callback is left, or one waits for a connect that this close or a pending task can fail |
| ConnectionEnds.RearmsExactlyWhen | src/whatsapp/connection-manager.ts:237-257 | The same condition for any manager left undisturbed |
| ConnectionEnds.ReachedManagersAreOk | src/whatsapp/connection-manager.ts:95-257 | Every reached manager meets the well-formedness these results ask for |
| ConnectionEnds.ReattemptIsRetried | src/whatsapp/connection-manager.ts:250-257 | A reconnect attempt whose socket closes for good before it is ready meets the condition |
| ConnectionEnds.ReattemptingHappens | src/whatsapp/connection-manager.ts:216-257 | Such a reconnect attempt is reached from the start |
| ConnectionManager.ConnectionManager.Open | src/whatsapp/connection-manager.ts:95-104 | Nothing when connected or already connecting; otherwise not stopped any more, connecting, and one socket in the making under a new generation |
| ConnectionManager.ConnectionManager.Stop | src/whatsapp/connection-manager.ts:106-120 | Stopped, no socket, no timer left armed, a new generation; promises and pending tasks as they were |
| ConnectionManager.ConnectionManager.OnConnectionUpdate | src/whatsapp/connection-manager.ts:158-225 | Field by field: an old socket's update changes nothing; an opened connection removes the reason, forgets the attempts and settles its promises; a closed one restarts the protocol at most twice, blocks for good, or arms the timer unless armed or stopped, and rejects an open promise |
| ConnectionManager.ConnectionManager.OnCredentials | src/whatsapp/connection-manager.ts:140-149 | After the await the new socket is the current one, or the promises that hang on it are rejected |
| ConnectionManager.ConnectionManager.OnRestart | src/whatsapp/connection-manager.ts:192-205 | A protocol restart makes a socket one level up, or rejects when stopped meanwhile |
| ConnectionManager.ConnectionManager.OnTimer | src/whatsapp/connection-manager.ts:250-257 | The reconnect timer's callback connects, or waits for the pending connect, unless connected |
| ConnectionManager.ConnectionManager.SettlePromise | src/whatsapp/connection-manager.ts:200-204 | The loop answers exactly the sockets on the path through the restarts, and settles the connect call's promise at its end |
| ConnectionManager.ConnectionManager.SetSocketTo | src/whatsapp/connection-manager.ts:90-93 | The controller follows every change of the current socket |
| ConnectionManager.ConnectionManager.OnSocketChange | src/whatsapp/connection-manager.ts:82-88 | The listener is told the current socket at once |
| Controller.ExecutedAtMostOnce | src/db/repositories/controller-repository.ts:15-24 | Over replays, concurrent handlers and restarts, no message id is answered twice |
| Controller.OnlyAuthorisedCommands | src/whatsapp/self-controller.ts:118-128 | Whatever is executed is a fresh, unforwarded command sent by the account, in its own user chat, with no participant but the account |
| Controller.ForwardCommandsAreWords | src/whatsapp/self-controller.ts:138-145 | A forward command is a message whose first word, up to ECMAScript white space and in any case, is one of four |
| Controller.StoredNeverExecuted | src/whatsapp/self-controller.ts:160-172 | On every run on which all deliveries of one chat and id agree on being forwarded, none is both stored as a forward source and executed |
| Controller.TwoFormsDoBoth | src/whatsapp/self-controller.ts:130-172 | Delivered in both forms, one chat and id is stored and executed |
| Controller.ForwardsNeedALiveSource | src/whatsapp/self-controller.ts:138-145 | A forward is executed only with a source from the same chat that had not expired; media live 24 h, text for ever |
| Controller.SourcesFrozen | src/db/repositories/forward-source-repository.ts:16-22 | A stored source never changes, so replays do not extend its life |
| Controller.SourceVisibleInBatch | src/whatsapp/self-controller.ts:108-116 | A source delivered in a batch is there for a reply before or after it in that batch and later |
| Controller.ControllerRepository.MarkProcessed | src/db/repositories/controller-repository.ts:15-24 | True exactly for the first caller with an id |
| Controller.ForwardSourceRepository.SaveSource | src/db/repositories/forward-source-repository.ts:16-22 | The first write of a key wins |
| Controller.ForwardSourceRepository.Get | src/db/repositories/forward-source-repository.ts:24-38 | The stored source, none exactly when there is none |
| Controller.ForwardSourceRepository.ResolveId | src/db/repositories/forward-source-repository.ts:56-66 | The only source with that message id; refused exactly when two chats have one |
| Controller.SelfChatController.AttachTo | src/whatsapp/self-controller.ts:66-75 | The listener is on this socket and no other |
| Controller.SelfChatController.DetachFrom | src/whatsapp/self-controller.ts:77-81 | The listener is on no socket |
| Controller.SelfChatController.HandleMessage | src/whatsapp/self-controller.ts:130-158 | Accepted exactly when every check of the sender, chat, age and text passes, attached and new; the answer is the execution, or the missing or expired source of a forward |
| Controller.SelfChatController.StoreForwardSource | src/whatsapp/self-controller.ts:160-179 | Stores exactly the account's own forwarded messages with content, the first of a key, text for ever and media for 24 h |
| Controller.SelfChatController.HandleUpsert | src/whatsapp/self-controller.ts:83-116 | All sources of a live batch are stored before its commands run, other upserts change nothing; undisturbed, the new sources are exactly the kept messages, the new ids exactly those of the obeyed ones, and the result counts them |
| IsoTime.TextOrderIsInstantOrder | src/db/repositories/job-repository.ts:188 | Comparing two stored UTC texts is comparing the instants, for the years 0000 to 9999 |
| IsoTime.EpochIsZero | src/messaging/queue-worker.ts:158 | Instant 0 is the beginning of 1970, by a closed form for the days before a year |
| IsoTime.EveryInstantHasAText | src/messaging/queue-worker.ts:158 | Every instant of those years has such a text |

## Left out

- Audit rows, `updated_at`, `created_at` and error message texts: written beside the modelled columns and never read by the modelled code.
- SQLite internals: a transaction is one atomic step that either commits or changes nothing, and storage writes do not fail.
- Ids and uuids: a row is its position, a reference is the row it resolves to, and fresh ids and nonces are parameters.
- The idempotency hash, JSON form and Unicode normalisation: the key is the record of the fields it covers, and message text is already normalised.
- Text lengths count Dafny characters where the program counts UTF-16 units.
- Alias comparison folds ASCII letters, as the database does; JIDs are canonical values and the text forms that fail to parse are one case.
- Media staging, hashing and clean-up: a request's media is absent, unreadable or staged, and at delivery the staged file exists or not.
- Baileys payloads, the text of replies and the commands the controller executes: an execution is an event with its source.
- `ConnectionManager.logout`, pairing and own-JID bookkeeping: command-line use only; logout does not clear an armed timer.
- The daemon's connection and the queue are separate models: an opened connection is the step ConnectionOpened of `System`; a logged-out or fatal close, a start without credentials and a local logout are ConnectionEnded.
- The daemon's exclusion is an assumption of `System` (one worker 0 at a time), justified by `Lock.AtMostOneHolder` under its conditions; pids are never reused there.
- The writes of one `handleError` (the transition, the pause keys, the destination's flag) are one step: no await lies between them, and only another process's statement could.
- A helper's start is a step of its own after its job's creation; that its process created the job is not recorded.
- Worker.QueueWorker.RunLoop: takes the finite list of rounds the environment lets it run, because the program's loop ends only when asked to stop.
- Group sets, schedule parsing, configuration loading, auth-key storage, health reports, logging and command-line plumbing: they would add only easy members.
- `BatchRepository.create`: the batch row's type and target count are not stored; the target count is the bulk result's.
