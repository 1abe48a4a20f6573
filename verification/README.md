# Verified model of the job queue, the failure handling and the fan-out

A Dafny 4.11 model of the parts of the web boilerplate that are hard to get right by reading, with proofs
of what they promise. `dafny verify dfyconfig.toml` checks everything.

**Job queue.** `JobStore` holds the tables and the SQL statements on them as atomic updates. `JobProtocol`
is the concurrent protocol: any number of workers, the serial database writer with its reply channels, the
stale-job checker, the startup rescue, admin requests, enqueues and process restarts, one statement or
channel operation at a time, in any order. Every statement may be done, done but reported failed, or not
done. `JobSafety` is the invariant and its preservation, `JobTheorems` the safety results over all runs,
`JobLetters` which finished rows were buried as well, `JobSweeps` which rows the stale checker and the
rescue take, `JobOutcomes` what a handler's return leaves in the tables. `Processor` is the code as it is
written, loops and branches, with the others acting between any two statements; it takes only steps of the
protocol, so the theorems are about it. `JobQueue` and `DbWriter` are the enqueueing side and the serial
writer on the tables alone. `Scheduler`, `DeadLetters`, `HourlyMetrics` and `JobBackoff` are the picking
order, the requeueing of dead letters under failing statements, the incremental average and the 64-bit
delay.

**Outbound calls.** `HttpBreaker` is the circuit breaker against the log of what was recorded on it,
`HttpTraffic` the same breaker with many callers whose calls are admitted in one state and recorded in
another, `HttpClient` the retry loop around it, `Retry` the generic retry loop and its waits over the reals.
`WorkerBreaker` is the worker's own breaker, one circuit per job type.

**Fan-out.** `Hub` is the websocket hub with its write pumps, `Broker` the broker of server-sent events with
its readers. Both are event loops whose visits to single channels interleave with the consumers.

**Webhooks.** `WebhookIntake` stores an event and enqueues its job while the whole job protocol goes on
beside it; `Webhooks` processes events behind the table of processed ones; `WebhookPath` joins the two and
the workers into one system, from the delivery to the tables of payments. `Json` writes and reads the
strings and numbers of a job payload.

**Two smaller targets.** `Sanitize`, over the string functions in `Strings`, is the form parser and printer;
`FeatureFlags` the flag table and the cache of weak pointers in front of it. `Prelude` is shared vocabulary.

## What the code does, where its comments say otherwise

The model follows the code. These points decide which statements are true.

- The retry branch writes `failed` and picking needs `pending`, so a failed row is never tried again
  (`FailedRowIsNeverRetried`); no statement in use counts attempts.
- A row refused by breaker or throttler stays `processing`; the comments announce a requeue
  (`RefusedRowNeverRuns`). The same holds for every row a worker held across a restart.
- The configuration is loaded anew by every process, so a row completed because its type was disabled stays
  completed when the type is enabled later (`CompletedMeansDone`).
- A row can be timed out and buried while its worker still runs and then completes it, so a requeue repeats
  finished work (`CompletedRowHasALetterIff`).
- The backoff is only ever asked for attempt 1, since no statement counts attempts; a configured base or
  maximum that is not positive makes it panic (`FirstAttemptPanicsIff`).
- `CompleteJob`, `FailJob` and `TimeoutJob` have no status guard.
- `retryDLQJob` lists one row, so only the newest dead letter can be retried by its id.
- The worker breaker admits any number of calls while half-open, though a comment says otherwise.
- The HTTP breaker can stay half-open and refuse for ever (`CanWedgeIff`).
- `Retry` with a negative MaxRetries returns nil without calling the function.
- The broker never closes the channel of a client that unregistered, so the drain loop of the event handler
  does not end (`ClosedExactlyByShutdown`).
- Event ids join their parts with colons, so two events can share one (`SharesItsIDIff`,
  `ColonsMakeEventsCollide`).
- An event is answered 200 when its job could not be enqueued (`AnsweredWithoutAJobIff`).
- `job_metrics_hourly` has a primary key on the hour alone, which the upsert's conflict target does not
  match, and `webhooks` has a partial unique index and no `updated_at`: the migrated schema refuses both
  upserts. `asaas_payments` and `asaas_subscriptions` allow the status `CANCELLED` but neither `CANCELED` nor
  `DELETED`, so it also refuses the updates of PAYMENT_CANCELED, SUBSCRIPTION_CANCELED and
  SUBSCRIPTION_DELETED (`SchemaRefusesIff`, `NothingIsEverCanceled`). The model follows the statements; a refused one is a failed one.
- `feature_flags.name` is unique alone, and the seeded rows are global with a NULL metadata column that the
  getters cannot scan. A global flag is cached under the key of every tenant that asked for it, and a change
  forgets one key only (`OperationKeepsCoherenceIff`, `GlobalFlagGoesStale`).
- Toggling a flag id that does not exist dereferences a nil flag.

## Model

| member | source | states |
|---|---|---|
| JobStore.Database.CreateJob | internal/db/core.sql.go:233-277 | the new row has an id no row had, every other row is as before, and the new one can be picked from its run_at on |
| JobQueue.EnqueuedRowIsReady | internal/features/jobs/repository.go:36-52 | an enqueued row is ready from the moment of its enqueueing on, and no other row becomes ready |
| JobQueue.SecondEnqueueAddsNothingIff | internal/features/jobs/repository.go:54-70 | a second enqueueing under a key adds nothing if and only if the key is not empty |
| JobQueue.JobQueue.Enqueue | internal/features/jobs/repository.go:36-52 | one fresh row, and the workers are notified exactly when the insert is reported done |
| JobQueue.JobQueue.EnqueueWithIdempotency | internal/features/jobs/repository.go:54-70 | one row per key, and the workers are notified exactly when the insert is reported done |
| DbWriter.TheLastWriteDecides | internal/db/core.sql.go:15-24 | CompleteJob and FailJob look at no status: the last request about a row decides its status and error, completed after failed as well as failed after completed, and other rows stay as they are |
| DbWriter.RecordsAddUp | internal/db/core.sql.go:1455-1463 | the processed rows are those of before and those whose record took effect; no row comes or goes |
| DbWriter.DbWriter.ProcessWrite | internal/features/jobs/worker/db_writer.go:82-138 | the statement of the request, and an answer that says what was reported |
| DbWriter.DbWriter.Run | internal/features/jobs/worker/db_writer.go:67-79 | the requests take effect one after the other in their order, each answered once |
| JobStore.Database.CreateJobWithIdempotency | internal/db/core.sql.go:279-325 | a row that already has the key is kept and nothing is added; otherwise one pending row is added; the returned row has the key |
| JobStore.Database.PickNextJobWithWorker | internal/db/core.sql.go:1417-1453 | nothing is picked exactly when no pending row is due; the picked row is due, has the smallest priority among the due ones and among those the earliest run_at, and is the only row that changes |
| JobStore.Database.GetStaleProcessingJobs | internal/db/core.sql.go:892-898 | every row that is processing and was started more than `age` seconds before, once, oldest start first |
| JobStore.Database.RetryDeadLetterJob | internal/db/core.sql.go:1476-1521 | one fresh pending row with the dead letter's tenant, type and payload, without a key, with zero attempts and the default priority, and due since the letter was written; the dead letter stays |
| JobStore.Database.DeleteDeadLetterJob | internal/db/core.sql.go:494-501 | the dead letter with the id is gone; nothing else changes |
| JobStore.NextExistsIffEligible | internal/db/core.sql.go:1417-1427 | the picking statement finds a row if and only if some row is pending and due |
| JobSafety.DoKeeps | internal/features/jobs/worker/processor.go:713-968 | every step of every participant, with every statement outcome (done, done but reported failed, not done), keeps the global invariant of tables, workers, writer, sweeps and admin requests |
| JobSafety.ReachableIsSafe | internal/features/jobs/worker/processor.go:571-678 | the invariant holds in every state that some interleaving reaches from an empty database |
| JobTheorems.EachRowIsPickedAndRunAtMostOnce | internal/features/jobs/worker/processor.go:713-927 | over every interleaving of enqueues, workers, writer, stale checker, rescue, admin requests and restarts, no row is picked twice, no handler is called twice for a row, and handlers are called for picked rows only |
| JobTheorems.WorkersHoldDifferentRows | internal/db/core.sql.go:1417-1427 | two workers never work on the same row |
| JobTheorems.NeverPendingAgain | internal/features/jobs/worker/processor.go:571-678 | a row that left pending is never pending again, never picked again, and never run once more |
| JobTheorems.OneKeyRunsAtMostOnce | internal/features/jobs/repository.go:54-70 | of the rows enqueued under one idempotency key, the handler is called at most once |
| JobTheorems.CompletedMeansDone | internal/features/jobs/worker/processor.go:736-741 | a completed row ran and is in processed_jobs, or a worker that held it found no configuration of its type or a disabled one, and it never ran; never both, and every row that ran was held by a worker that found its type configured and enabled |
| JobTheorems.SkipsAreRemembered | internal/features/jobs/worker/processor.go:736-741 | the skipped rows of the invariant are exactly those that some step of the run found disabled |
| JobTheorems.OnlyEnabledTypesGoOn | internal/features/jobs/worker/processor.go:736-741 | the configuration check sends a worker on exactly if the type of its row is configured and enabled, and otherwise to completing the row unrun |
| JobLetters.CompletedRowHasALetterIff | internal/features/jobs/worker/processor.go:571-602 | a completed row was ever given a dead letter if and only if the stale checker buried it |
| JobLetters.DoKeepsLetters | internal/features/jobs/worker/processor.go:989-1008 | every step keeps that a row with a dead letter was buried by the stale checker or is never completed |
| JobTheorems.ProbeFindsNothing | internal/features/jobs/worker/processor.go:769-785 | the look-up in processed_jobs never finds the row the worker holds: picking once already excludes duplicates |
| JobTheorems.WorkerBuriesOnlySingleAttempts | internal/features/jobs/worker/processor.go:799-823 | no row ever counts an attempt, so a worker moves a failed row to the dead letters only if its type allows one attempt |
| JobTheorems.WritesAreAppliedInOrderAtMostOnce | internal/features/jobs/worker/db_writer.go:67-138 | the writer applies requests in the order they were sent, none twice |
| JobTheorems.NilMeansApplied | internal/features/jobs/worker/db_writer.go:195-213 | a submit that returns nil was applied, and for a processed record the row is in processed_jobs |
| JobTheorems.WriterNeverBlocks | internal/features/jobs/worker/db_writer.go:82-138 | the reply channel has room whenever an answer is ready, a running writer with work can always go on, and one that stopped has answered all it took |
| JobTheorems.NoDeadLetterIsLost | internal/features/admin/handler.go:168-296 | every dead letter ever written is still there, was discarded by an admin, or has a requeued row with its type, payload and tenant |
| JobTheorems.DeadLettersComeFromPickedRows | internal/features/jobs/worker/processor.go:989-1008 | every dead letter has the type, payload and tenant of a row that was picked |
| JobTheorems.CallIsReached | internal/features/jobs/worker/processor.go:713-800 | from every point before the call a worker that nothing stops reaches its handler |
| JobTheorems.PickedRowRunsLaterIffStillHeld | internal/features/jobs/worker/processor.go:736-800 | a picked row whose handler was not called is called in some continuation if and only if a worker is still on its way with it |
| JobTheorems.RefusedRowNeverRuns | internal/features/jobs/worker/processor.go:744-767 | a row refused by breaker or throttler is never run in any continuation, although the comments announce a requeue |
| JobTheorems.RestartAbandonsHeldRows | internal/features/jobs/worker/processor.go:637-678 | after a restart no continuation runs the rows that workers held, rescue or not |
| JobTheorems.FailedRowIsNeverRetried | internal/features/jobs/worker/processor.go:842-884 | once a handler was called for a row, no later step calls it again, whatever it returned |
| JobLetters.RequeuedRowIsReadyAtOnce | internal/features/admin/handler.go:270-277 | in every reachable state a requeued letter becomes a fresh row with its type, payload and tenant, which a worker may pick at once |
| JobSweeps.CheckerListsExactly | internal/features/jobs/worker/processor.go:571-580 | in every run, the rows a listing of the stale checker holds are, once each, exactly the rows still processing that were picked more than 600 seconds before, with the picks and the seconds read off the steps of the run |
| JobSweeps.RescueListsExactly | internal/features/jobs/worker/processor.go:637-650 | the same for the rescue at the start, with 300 seconds |
| JobSweeps.ListedOldestFirst | internal/db/core.sql.go:892-898 | of two listed rows the one picked longer ago comes first |
| JobSweeps.CheckerBuries | internal/features/jobs/worker/processor.go:582-592 | the first statement for a stale row writes one dead letter with its work and changes no row |
| JobSweeps.CheckerFails | internal/features/jobs/worker/processor.go:593-601 | the second one fails that row and changes no other and no letter |
| JobSweeps.RescuePostpones | internal/features/jobs/worker/processor.go:651-662 | the first statement of the rescue gives the row a time for the next attempt, which is now |
| JobSweeps.RescueFails | internal/features/jobs/worker/processor.go:663-676 | the second one fails the row |
| JobOutcomes.TheNextRowCanBeDone | internal/features/jobs/worker/processor.go:713-927 | from every reachable state with an idle worker and an idle writer, the next row, if its type is enabled, can be carried to its completion: the row is completed and recorded as processed, and nothing else changes |
| JobOutcomes.AnEnqueuedRowCanBeDone | internal/features/jobs/worker/processor.go:713-927 | so can a job enqueued on an empty database; the tables it leaves, field by field |
| JobOutcomes.ADoneRowIsCompleted | internal/features/jobs/worker/processor.go:886-927 | undisturbed, a handler that returns without an error leaves its row completed and recorded as processed, and nothing else changed |
| JobOutcomes.ASpentRowIsBuried | internal/features/jobs/worker/processor.go:799-832 | undisturbed, an error with the attempts used up leaves one dead letter with the work of the row and a failed row, and nothing else changed |
| JobOutcomes.AnUnspentRowIsPostponedAndFails | internal/features/jobs/worker/processor.go:833-884 | undisturbed, an error with attempts left leaves the row failed, with a time for a next attempt that no pick looks at, and nothing else changed |
| JobOutcomes.ARefusedRowIsPostponed | internal/features/jobs/worker/processor.go:743-767 | a refusal by breaker or throttler leaves the row processing, with a time for a next attempt, and nothing else changed |
| JobOutcomes.ALetterIsMoved | internal/features/admin/handler.go:268-289 | undisturbed, a requeue leaves a fresh row with the work of the letter and takes the letter away, and nothing else changed |
| JobOutcomes.WorkGoesOnAfterARestart | internal/features/jobs/worker/processor.go:330-380 | in every reachable state a restart leaves nobody in the middle of anything, and the next row of a type that is enabled in the configuration loaded then can be carried to its completion |
| JobOutcomes.NothingIsAppliedAfterTheStop | internal/features/jobs/worker/db_writer.go:67-79 | in every run after the writer stopped, nothing more is applied before the process starts again |
| Processor.OthersTouchNothing | internal/features/jobs/worker/processor.go:713-968 | a step of anybody else leaves a participant's own variables alone and takes nothing back from processed_jobs |
| Processor.Processor.ProcessNext | internal/features/jobs/worker/processor.go:713-968 | the sequential code, with the others interleaved between any two statements: its own steps are exactly those of one pass, from the pick, made unless there is nothing to pick, over the checks and the handler to its end, with the outcomes and decisions the surroundings give; it goes on after the configuration check exactly if the type of the picked row is configured and enabled; it ends idle, and reports success only for a row that ran and is recorded |
| Processor.Processor.Handle | internal/features/jobs/worker/processor.go:787-968 | the part after the duplicate check: its own steps are the return of the handler and then those of the error or of the success branch; attempts are used up exactly when attempts + 1 reaches the maximum |
| Processor.Processor.HandleError | internal/features/jobs/worker/processor.go:799-884 | its own steps are exactly a dead letter and a failed row when the attempts are used up, otherwise a postponed row and one submit, which asks the writer to fail that row |
| Processor.Processor.HandleSuccess | internal/features/jobs/worker/processor.go:886-927 | its own steps are exactly the submit of the record and, only if that was answered yes, the submit of the completion of that row; finished exactly when both were |
| Processor.Processor.SubmitWrite | internal/features/jobs/worker/db_writer.go:195-213 | its own steps are a send and a wait, or as far as they come: it waits for room while the context lives; nil only if the writer applied the request |
| Processor.Processor.PickRow | internal/features/jobs/worker/processor.go:713-718 | the worker holds a row afterwards, or is idle when no pending row is due or the answer is lost; the row it holds comes first in (priority, run_at) among the due ones |
| Processor.Processor.ProbeRow | internal/features/jobs/worker/processor.go:769-785 | only an answer that arrives and says yes counts as a duplicate |
| Processor.Processor.CheckStaleJobs | internal/features/jobs/worker/processor.go:571-602 | the checker's own steps in the run are exactly the listing and then, row by row, a burial and a time-out, whatever was reported and whatever the others do; the listed rows are exactly those still processing that were picked more than 600 seconds before |
| Processor.Processor.RescueZombies | internal/features/jobs/worker/processor.go:637-678 | its own steps are exactly the listing and then, row by row, the postponement and, if that was reported done, the failing; rescued counts the rows with both reported done; the listed rows are exactly those still processing that were picked more than 300 seconds before |
| Processor.Processor.RetryAllDLQ | internal/features/admin/handler.go:254-296 | under interleaving: its own steps are exactly the listing and then, entry by entry, the insert and, if that was reported done, the delete; retried counts the reported inserts, and retried plus failed is the number listed |
| Scheduler.DrainingIsOrderedAndComplete | internal/db/core.sql.go:1417-1427 | picking with no arrivals at a fixed time returns every due pending row exactly once and no other row; of two rows the first has the smaller priority, or the same priority and a run_at that is no later |
| Scheduler.Drain | internal/features/jobs/worker/processor.go:713-718 | a worker alone with the queue picks rows as the specification says and stops when none is eligible |
| DeadLetters.RequeueOneConserves | internal/features/admin/handler.go:268-289 | one entry changes the number of copies of a task only when it inserts a row and does not delete the entry |
| DeadLetters.RequeueConserves | internal/features/admin/handler.go:254-296 | for every pattern of failures the copies of every task, in dead letters and fresh rows, are those before plus the doubled ones: no work is lost |
| DeadLetters.RequeueTouchesListedOnly | internal/features/admin/handler.go:254-296 | dead letters that were not listed stay as they are |
| DeadLetters.ConservedIff | internal/features/admin/handler.go:268-289 | dead letters and fresh rows hold every task as often as the dead letters did before if and only if every insert that took effect was reported and followed by a delete that took effect |
| DeadLetters.AdminHandler.GetDeadLetterJobs | internal/db/core.sql.go:691-735 | at most `limit` letters, newest first, none twice, none older than one left out, and all of them if there are fewer |
| DeadLetters.ListedIfAmongTheNewest | internal/db/core.sql.go:691-693 | in any such answer a letter is listed if fewer than `limit` others are as new as it is, and is not listed if `limit` others are newer |
| DeadLetters.AdminHandler.RetryAllDLQ | internal/features/admin/handler.go:254-296 | the listed entries are the newest thousand; the loop leaves the tables the specification says; retried plus failed is the number listed, retried the reported inserts |
| DeadLetters.AdminHandler.RetryDLQJob | internal/features/admin/handler.go:168-228 | not found, and nothing changed, unless the id is that of the one listed entry; otherwise that entry is requeued; success only if both statements were reported |
| DeadLetters.OnlyTheNewestCanBeRetried | internal/features/admin/handler.go:181-203 | the listing holds one row, so an entry older than another is never found by its id |
| HourlyMetrics.Metrics.UpsertJobMetricsHourly | internal/db/core.sql.go:1834-1872 | afterwards the row of the key holds the count, mean, minimum and maximum of all durations recorded under it, this one included |
| HourlyMetrics.MergingKeepsSummary | internal/db/core.sql.go:1834-1846 | the incremental average, minimum and maximum of n durations become those of n+1 |
| HourlyMetrics.RowSummarizesItsDurations | internal/features/jobs/worker/processor.go:929-940 | after any successes of any hours and types the row of a key holds the count, no failures, and the true mean, minimum and maximum of exactly its durations |
| JobBackoff.CalculateBackoffWithJitter | internal/features/jobs/worker/processor.go:971-986 | panics exactly for attempts below one or a delay under five nanoseconds, with every operation wrapping at 64 bits; otherwise the jitter adds less than a fifth of the delay, and a sum beyond 64 bits comes out negative |
| JobBackoff.DelayIsIdealIff | internal/features/jobs/worker/processor.go:971-980 | the code computes min(base * 2^(attempt-1), max) if and only if the product is below 2^63 or leaves a remainder modulo 2^64 between the maximum and 2^63 |
| JobBackoff.DelayIsMonotoneAndSticky | internal/features/jobs/worker/processor.go:971-980 | the delay is monotone in the attempt and stays at the maximum once there |
| JobBackoff.FirstAttemptPanicsIff | internal/features/jobs/worker/processor.go:807-813 | the first attempt, the only one ever made, panics if and only if base or maximum is not positive |
| JobBackoff.TheThirtiethAttemptOverflows | internal/features/jobs/worker/processor.go:971-986 | with a base of 30 seconds, which is 30 000 000 000 nanoseconds, a thirtieth attempt, which no caller makes, would get a negative delay |
| HttpBreaker.CircuitBreaker.Allow | internal/platform/httpclient/circuitbreaker.go:77-105 | admission and new state in each of the three states |
| HttpBreaker.CircuitBreaker.RecordSuccess | internal/platform/httpclient/circuitbreaker.go:108-126 | the new state after a recorded success |
| HttpBreaker.CircuitBreaker.RecordFailure | internal/platform/httpclient/circuitbreaker.go:129-148 | the new state after a recorded failure |
| HttpBreaker.CircuitBreaker.Execute | internal/platform/httpclient/circuitbreaker.go:177-191 | the function is called exactly when admitted; the log of the breaker grows by the admission and then by exactly one record of the outcome, and by a refusal alone otherwise |
| HttpBreaker.CountersFollowTheLog | internal/platform/httpclient/circuitbreaker.go:77-148 | while closed, failures is the length of the trailing failure run and below the maximum; the last failure time is that of the log |
| HttpBreaker.OpensExactlyOn | internal/platform/httpclient/circuitbreaker.go:129-148 | the breaker opens exactly on the failure that completes a run of MaxFailures, or on a failure while half-open |
| HttpBreaker.OpenWaitsForTheTimeout | internal/platform/httpclient/circuitbreaker.go:77-105 | an open breaker admits exactly when more than the timeout passed since the latest recorded failure, and nothing else takes it out of open |
| HttpBreaker.ClosesExactlyOn | internal/platform/httpclient/circuitbreaker.go:108-126 | it closes exactly on the success that completes SuccessThreshold of them since it became half-open |
| HttpTraffic.EpisodeAdmitsFewCalls | internal/platform/httpclient/circuitbreaker.go:77-105 | one half-open episode admits at least one and at most HalfOpenMaxRequests + 1 calls, with any late records of earlier episodes |
| HttpTraffic.RefusingMeansWaiting | internal/platform/httpclient/circuitbreaker.go:77-148 | with SuccessThreshold <= HalfOpenMaxRequests + 1, a half-open breaker that refuses has a call of this episode in flight |
| HttpTraffic.WedgedForever | internal/platform/httpclient/circuitbreaker.go:77-105 | a half-open breaker that refuses with nothing in flight refuses for all time |
| HttpTraffic.CanWedgeIff | internal/platform/httpclient/circuitbreaker.go:77-148 | such a state is reachable if and only if SuccessThreshold > HalfOpenMaxRequests + 1 |
| HttpClient.Client.DoWithContext | internal/platform/httpclient/client.go:67-127 | the breaker ends as an interleaving of this call's and the others' events makes it; the others' are all there in order, this call's are one record for each admitted attempt: a success exactly for a status below 500 other than 429, else a failure at the time the attempt ended; an answer has such a status, and the call ends otherwise only by a refusal, a cancelled wait or the last retry |
| HttpClient.Client.Try | internal/platform/httpclient/client.go:78-113 | one admitted attempt ends the call with the status if that is below 500 and not 429, and records a success; a status of 500 or more, 429 or a network error records a failure and ends the call only by a cancelled wait |
| HttpClient.EveryAttemptIsRecordedOnce | internal/platform/httpclient/client.go:67-127 | what the call does to the breaker is one admission and one record for each request sent, a success exactly for the final answer with a status below 500 other than 429, and a refused admission at most at the end |
| HttpClient.FailingAlone | internal/platform/httpclient/client.go:67-127 | alone from closed with f failures, all attempts failing: exactly min(MaxRetries + 1, MaxFailures - f) requests, ending open if and only if MaxRetries + 1 >= MaxFailures - f |
| Retry.CalculateBackoff | internal/platform/httpclient/retry.go:96-114 | the capped exponential backoff with its jitter |
| Retry.RetryWithResult | internal/platform/httpclient/retry.go:117-151 | fn is called until the first success, the first error that is not retryable, a cancelled wait, or call MaxRetries + 1, and that outcome is returned; one wait between two calls, each before its jitter the last one times the multiplier, cut off at the maximum, and all waits together within both bounds |
| Retry.TheEndIsUnique | internal/platform/httpclient/retry.go:57-93 | how the loop ends is determined by what fn returns and when the context ends |
| Retry.WaitStaysWithinJitter | internal/platform/httpclient/retry.go:96-114 | a wait stays within the jitter on both sides of the capped backoff |
| Retry.GeometricSum | internal/platform/httpclient/retry.go:96-114 | the bound's sum times (m - 1) is m^n - 1 |
| Retry.TotalWaitIsBounded | internal/platform/httpclient/retry.go:57-114 | all waits together last at most (1 + jitter) times the smaller of n * MaxBackoff and the geometric series |
| Retry.TotalWaitIsAtLeast | internal/platform/httpclient/retry.go:57-114 | as long as no wait is cut off, all waits together last at least (1 - jitter) times the geometric series |
| Retry.WaitsMultiply | internal/platform/httpclient/retry.go:96-114 | before the jitter the first wait is the initial one and each next one the last times the multiplier, cut off at the maximum |
| WorkerBreaker.CircuitBreaker.Allow | internal/features/jobs/worker/circuit_breaker.go:95-128 | admission of a job type and its new circuit; a refusal exactly while open within the timeout |
| WorkerBreaker.CircuitBreaker.RecordSuccess | internal/features/jobs/worker/circuit_breaker.go:131-153 | the circuit after a success of its type |
| WorkerBreaker.CircuitBreaker.RecordFailure | internal/features/jobs/worker/circuit_breaker.go:156-178 | the circuit after a failure of its type |
| WorkerBreaker.CountersAreTrailingRuns | internal/features/jobs/worker/circuit_breaker.go:95-178 | per type, failures and successes are the trailing runs of the log |
| WorkerBreaker.OpensExactlyOn | internal/features/jobs/worker/circuit_breaker.go:156-178 | a circuit opens exactly on the failure that completes its run of FailureThreshold |
| WorkerBreaker.ClosesExactlyOn | internal/features/jobs/worker/circuit_breaker.go:131-153 | it closes exactly on the success of a half-open circuit that completes its run of SuccessThreshold |
| WorkerBreaker.RefusesExactlyWhileOpen | internal/features/jobs/worker/circuit_breaker.go:95-128 | a type is refused exactly while open and within the timeout of its last trip; the zero state admits |
| WorkerBreaker.TypesAreIndependent | internal/features/jobs/worker/circuit_breaker.go:95-178 | the circuit of a type is what the events of that type alone make of it |
| Hub.StepKeepsInv | internal/platform/websocket/hub.go:28-57 | every step of the loop and of every pump, in any order, keeps the invariant, for clients that register once |
| Hub.InMapIffOpen | internal/platform/websocket/hub.go:28-57 | a registered client is in the map exactly while its channel is open; no channel is closed twice or sent to after closing |
| Hub.NoGaps | internal/platform/websocket/hub.go:28-57 | a present client received or has queued all broadcasts since it registered, a removed one a prefix of them |
| Hub.OfferRemovesIff | internal/platform/websocket/hub.go:42-53 | an offer removes a client exactly when 256 messages wait for it, and queues the message for it otherwise |
| Hub.FramesRegroup | internal/platform/websocket/hub.go:125-164 | the frames sent, with the one in progress, are exactly what the pump received, in order |
| Hub.InnerReceiveFindsAMessage | internal/platform/websocket/hub.go:143-148 | the receives inside a frame never block and never meet a closed empty channel |
| Hub.CloseComesLast | internal/platform/websocket/hub.go:125-136 | a pump that meets the close has sent out all that was ever queued for its client |
| Hub.ComingBackPanicsIff | internal/platform/websocket/hub.go:28-57 | registering a client once more makes the next unregistration or broadcast panic if and only if the client was removed before |
| Hub.Hub.Broadcast | internal/platform/websocket/hub.go:42-54 | the loop offers the message to each client of the map exactly once, in some order, with the pumps in between |
| Hub.Hub.WriteFrame | internal/platform/websocket/hub.go:125-164 | one pass sends one frame that holds at least everything queued at its start, and ends the pump only on a failing connection or a closed empty channel |
| Hub.Hub.Drain | internal/platform/websocket/hub.go:143-148 | exactly as many messages as were counted, in order, whatever is queued meanwhile |
| Broker.StepKeepsInv | internal/features/sse/broker.go:51-120 | every step of the loop and of the readers keeps the invariant, for channels that register once |
| Broker.ListsAreExact | internal/features/sse/broker.go:68-85 | no user has an empty list; a channel stands once, in its own user's list, exactly from registration to unregistration |
| Broker.DeliveredIsThinned | internal/features/sse/broker.go:87-117 | what a client received and has queued is what was addressed to it while registered, in order, less one message for each time its buffer of ten was full |
| Broker.RoomMeansEverything | internal/features/sse/broker.go:87-117 | a client missed nothing if and only if its buffer was never full when a message came |
| Broker.ClosedExactlyByShutdown | internal/features/sse/broker.go:57-66 | no channel is closed twice or sent to after closing; the shutdown closes exactly the channels still registered, so one that unregistered is never closed |
| Broker.OnlyClosingIsLeft | internal/features/sse/broker.go:57-66 | once stopping, the loop does nothing but close open channels |
| Broker.RegisteringAgainPanicsIff | internal/features/sse/broker.go:57-66 | after one more registration of a channel, a shutdown run to its end panics if and only if the channel was registered and not unregistered |
| Broker.ShutdownPanicsIff | internal/features/sse/broker.go:57-66 | a shutdown over open channels panics if and only if one of them is listed twice |
| Broker.Broker.Unregister | internal/features/sse/broker.go:73-85 | the search loop removes the first match and drops an empty user |
| Broker.Broker.Message | internal/features/sse/broker.go:87-117 | the nested loops make every addressed channel handle exactly one more message, the event, a line break, "data: ", the data and two line breaks, and no other channel, with readers in between |
| Broker.Broker.Shutdown | internal/features/sse/broker.go:57-66 | exactly the registered channels are closed afterwards, and no users are left |
| WebhookIntake.EventIDsAreUnique | internal/features/billing/async_webhook.go:120-128 | the special case of resource ids without a colon: there two events share an event id if and only if kind, resource id and event name agree |
| WebhookIntake.SharesItsIDIff | internal/features/billing/async_webhook.go:120-128 | a payload shares its event id with one about another subject if and only if there is a colon in its resource id after the first character or in its event name |
| WebhookIntake.QueueKeepsKeys | internal/db/core.sql.go:279-285 | no step of the job queue changes what a webhook job is about or adds one |
| WebhookIntake.StepKeeps | internal/features/billing/async_webhook.go:82-117 | every statement of every delivery, done, half reported or failed, and every step of the job queue keep rows and jobs consistent |
| WebhookIntake.OneWebhookRowPerEvent | internal/db/core.sql.go:457-465 | any number of interleaved deliveries leave one webhook row for an event, with the body stored last, exactly if one of them was stored |
| WebhookIntake.OneJobPerEvent | internal/features/billing/async_webhook.go:98-117 | they leave one job row, which names the event and whose webhook_id, read as a decimal number, is the number of the webhook row of the event, exactly if an enqueueing took effect; no two handler calls of the queue are for it, so only a requeued dead letter processes the event once more |
| WebhookIntake.ReceiptNamesTheRow | internal/features/billing/async_webhook.go:82-106 | the webhook id a delivery carries to its job is that of the event's row |
| WebhookIntake.AnsweredWithoutAJobIff | internal/features/billing/async_webhook.go:82-117 | of a delivery answered 200 in any run: it enqueued nothing itself if and only if storing it met a conflict or its enqueueing failed, and its event has no job if and only if the enqueueing took effect for none of the event's deliveries |
| WebhookIntake.ATakenKeyLosesTheEvent | internal/features/billing/async_webhook.go:98-117 | if another receiver already holds the key of an event, its delivery is answered 200 and its own job is never added |
| WebhookIntake.AsyncWebhookHandler.CreateWebhookWithIdempotency | internal/db/core.sql.go:457-492 | the row of the event gets the new payload, or is added at the end |
| WebhookIntake.AsyncWebhookHandler.Receive | internal/features/billing/async_webhook.go:67-117 | answer, webhook rows and job tables for every payload and every outcome of the two statements; the new job, read back, names the event and the number of its webhook row, which holds the body just stored |
| WebhookIntake.StepsDeliver | internal/features/billing/async_webhook.go:67-117 | the two steps that a delivery takes among the others give the answer, the webhook rows and the job tables that the handler gives, for every payload and every outcome |
| Json.StringsAreReadBack | internal/features/billing/async_webhook.go:98-104 | a reader of JSON strings gets back every string from its escaped form and stops at the quote that ends it |
| Json.NumbersAreReadBack | internal/features/billing/async_webhook.go:98-104 | a reader of decimal digits gets back every number |
| WebhookIntake.PayloadIsReadBack | internal/features/billing/async_webhook.go:98-104 | the event id, the source and the webhook number of a job payload are read back from its text as they were written, for every event and number |
| WebhookIntake.PayloadIsThisObject | internal/features/billing/async_webhook.go:98-102 | the payload is the JSON object with the members event_id, source and webhook_id in that order |
| WebhookPath.OnlyARequeueProcessesAgain | internal/features/jobs/worker/processor.go:1074-1104 | deliveries, job queue and handlers at once, in any interleaving and with any failures and restarts: of two calls of ProcessWebhookEvent for the same event one is for a row requeued from a dead letter, so without a requeue an event updates its payment at most once |
| WebhookPath.BodiesAreOfTheirEvents | internal/features/jobs/worker/processor.go:1074-1104 | in the same runs, what a call processes for an event is a payload of that very event: the number in the job payload leads to the webhook row of the event |
| WebhookPath.AStoredEventCanBeProcessed | internal/features/jobs/worker/processor.go:1074-1104 | in the same runs, a worker that is about to call the handler for the job of a stored event may process that event then, with what the body stored last decodes to |
| WebhookPath.TablesFollowTheCalls | internal/features/billing/webhook.go:47-106 | payments, subscriptions and processed events are what those calls make of them and nothing else |
| WebhookPath.HarmlessRequeuesAddNothing | internal/features/billing/webhook.go:47-60 | if every call for an event with a requeued row is harmless, the tables are those of the calls without repeats |
| Webhooks.WebhookHandler.ProcessWebhookEvent | internal/features/billing/webhook.go:47-106 | tables and return value for every outcome of lookup, read, update and mark |
| Webhooks.WebhookHandler.UpdatePayment | internal/features/billing/webhook.go:216-331 | status and date of the payment with the id, if it is there; nothing for a payload without payment |
| Webhooks.WebhookHandler.UpdateSubscription | internal/features/billing/webhook.go:333-404 | status and next billing date of the subscription with the id, its stored answer cleared |
| Webhooks.RepeatsAreHarmless | internal/features/billing/webhook.go:47-106 | a sequence of calls leaves the same tables as the sequence without every repeat after the first nil return, if each of those repeats is harmless, which is the exact condition on a single one |
| Webhooks.NoRepeatsAreLeft | internal/features/billing/webhook.go:47-60 | that shorter sequence has no repeats left |
| Webhooks.TheLastEventDecides | internal/features/billing/webhook.go:216-331 | after any calls, failing as they may, the status of a payment is the rest of the name, after PAYMENT_, of the last event that set it, and its date the time of that call if that event was RECEIVED or CONFIRMED, else none; without such an event the payment is as before |
| Webhooks.TheLastEventDecidesSubscriptions | internal/features/billing/webhook.go:333-404 | the same for subscriptions: status and date of the last update, or the name of the last cancellation or deletion |
| Webhooks.MarksFollowTheCalls | internal/features/billing/webhook.go:47-106 | an event is marked as processed exactly if it was before, or a call for it could read its body and its mark was applied |
| Webhooks.RepeatIsHarmlessIff | internal/features/billing/webhook.go:47-106 | a single repeat is harmless on all tables if and only if its lookup is answered, its body is unreadable, its update fails or its event updates nothing |
| Webhooks.UnansweredLookupRevivesAPayment | internal/features/billing/webhook.go:49-60 | received, refunded, and received again with a failing lookup: the refunded payment is received once more |
| Webhooks.DatesFollowTheStatus | internal/features/billing/webhook.go:216-331 | through every sequence of calls a payment has a date exactly while it is received or confirmed; rows neither appear nor disappear |
| Webhooks.SchemaRefusesIff | migrations/20260226121100_billing_asaas.sql:23-43 | the status constraints refuse an update if and only if it is that of PAYMENT_CANCELED, SUBSCRIPTION_CANCELED or SUBSCRIPTION_DELETED, or sets a subscription to a status they do not know |
| Webhooks.NothingIsEverCanceled | migrations/20260226121100_billing_asaas.sql:23-43 | on the migrated schema no sequence of calls ever makes a payment or a subscription canceled or deleted |
| Sanitize.DecodeValue | internal/platform/http/middleware/sanitize.go:174-184 | the nine replacements in their order are the replacement table applied from front to back |
| Sanitize.ParseQuery | internal/platform/http/middleware/sanitize.go:161-189 | each key holds exactly the decoded values of its segments, in order; keys without a segment are absent |
| Sanitize.EncodeFormValues | internal/platform/http/middleware/sanitize.go:192-200 | the pairs of all keys in some iteration order of the map, joined by ampersands |
| Sanitize.DecodeUndoesEncodingIff | internal/platform/http/middleware/sanitize.go:174-184 | the decoder undoes percent-encoding (section 2.1 of RFC 3986: a percent sign and the two hexadecimal digits of the character) of its eight characters if and only if the value has no plus sign |
| Sanitize.ReplacementPeelsTheTable | internal/platform/http/middleware/sanitize.go:174-184 | one replacement takes the encoding over a table of codes to the encoding over the rest of it |
| Sanitize.DecodeKeepsIff | internal/platform/http/middleware/sanitize.go:174-184 | the decoder leaves a value alone if and only if it has no plus sign and none of the eight codes |
| Sanitize.ParseUndoesPrintIff | internal/platform/http/middleware/sanitize.go:161-200 | parsing undoes printing, under any iteration order, if and only if keys are free of = and &, every key has a value, and values are free of &, + and the eight codes |
| Sanitize.AmpersandIsLost | internal/platform/http/middleware/sanitize.go:192-200 | a value with an ampersand is printed bare and does not come back |
| FeatureFlags.Repository.GetByName | internal/platform/featureflags/repository.go:72-92 | nothing exactly when no row matches name and tenant or global; otherwise such a row |
| FeatureFlags.Repository.GetAll | internal/platform/featureflags/repository.go:42-69 | every row of the tenant and every global one, once, and no other |
| FeatureFlags.Repository.Create | internal/platform/featureflags/repository.go:107-134 | one fresh row unless the statement fails or the name is taken |
| FeatureFlags.Repository.Update | internal/platform/featureflags/repository.go:137-151 | all columns but the tenant; no error only if the row can be read back |
| FeatureFlags.Repository.Toggle | internal/platform/featureflags/repository.go:154-174 | the flag is flipped unless reading or writing fails; an id that is not there panics |
| FeatureFlags.Repository.Delete | internal/platform/featureflags/repository.go:177-181 | the row is gone unless the statement fails |
| FeatureFlags.Manager.IsEnabled | internal/platform/featureflags/manager.go:30-50 | the cached flag if it is alive, else the table's answer, which is then cached; false when the query fails |
| FeatureFlags.Manager.SetEnabled | internal/platform/featureflags/manager.go:86-140 | creates a missing flag without touching the cache, toggles one that differs and forgets its key |
| FeatureFlags.Manager.Create | internal/platform/featureflags/manager.go:146-152 | row and forgotten key, for every outcome |
| FeatureFlags.Manager.Update | internal/platform/featureflags/manager.go:154-160 | the key of the input is forgotten only when no error is reported |
| FeatureFlags.Manager.Delete | internal/platform/featureflags/manager.go:162-171 | the key is forgotten before the row is deleted |
| FeatureFlags.Manager.Toggle | internal/platform/featureflags/manager.go:263-277 | panics exactly for an id that is not there; otherwise toggles and forgets the flag's own key |
| FeatureFlags.Manager.Refresh | internal/platform/featureflags/manager.go:224-241 | the entry becomes the table's answer |
| FeatureFlags.Manager.RefreshAll | internal/platform/featureflags/manager.go:243-261 | the cache becomes the listed rows under their own keys |
| FeatureFlags.IsEnabledAgrees | internal/platform/featureflags/manager.go:30-50 | with a coherent cache and unique names the cached flag is the row the table would answer with |
| FeatureFlags.OperationKeepsCoherenceIff | internal/platform/featureflags/manager.go:30-277 | an operation leaves a coherent cache coherent if and only if every live entry for the row it changes stands under a key it forgets and what it caches has no colon in its name; for lookups, Enable, Disable, Create, Update, Delete, Toggle and Refresh, with every outcome of their statements |
| FeatureFlags.ProperRunsAreCovered | internal/platform/featureflags/manager.go:86-277 | on tables without global flags every sequence of operations that keeps names and tenants and reports its changes truly is of that kind |
| FeatureFlags.ManagerAgreesWithRepository | internal/platform/featureflags/manager.go:30-50 | after any sequence of covered operations and any collections, global flags or not, IsEnabled says what the table says |
| FeatureFlags.SetEnabledTakesEffectIff | internal/platform/featureflags/manager.go:86-140 | after Enable or Disable with every statement done, the table answers as asked if and only if it had the flag or no row of any tenant had its name |
| FeatureFlags.ChangeKeepsCoherenceIff | internal/platform/featureflags/manager.go:188-194 | a changed or deleted row leaves the cache coherent if and only if every live entry for it is among the forgotten keys |
| FeatureFlags.GlobalFlagGoesStale | internal/platform/featureflags/manager.go:188-194 | a global flag that a tenant looked up keeps its old answer after it is toggled |

## Left out

- Processor.Processor.ProcessNext: breaker and throttler are one nondeterministic answer, handlers return, fail or panic nondeterministically, and times are whole seconds.
- JobStore.Database.PickNextJobWithWorker: ties in (priority, run_at) go to any row, run_at is never NULL, and the columns updated_at, completed_at and timeout_seconds are not kept.
- DeadLetters.AdminHandler.GetDeadLetterJobs: with offset 0, as both callers ask for it.
- DeadLetters.AdminHandler.RetryAllDLQ: alone with the database; the interleaved form is `Processor.Processor.RetryAllDLQ`.
- Retry.RetryWithResult: stands for `Retry` too, which is the same loop without a value; floating-point rounding is not modelled.
- Retry.TotalWaitIsBounded: for non-negative settings; the waits are real numbers, not truncated to nanoseconds.
- HourlyMetrics.RowSummarizesItsDurations: over the reals; the failure upsert has no caller with a duration and is not modelled.
- WorkerBreaker.CircuitBreaker.Allow: `loadStates` and `persistState` are left out; the breaker starts without stored circuits.
- Hub.Hub.Broadcast: messages reach the loop in the order it takes them; the buffer in front of it is not modelled.
- Hub.Hub.WriteFrame: frames are sequences of messages, without the newline between two of them; pings are left out, a failing one is the same as a failing frame.
- Broker.Broker.Message: the channels have the capacity of ten that the event handler gives them.
- WebhookIntake.OneJobPerEvent: other receivers are assumed to use another source than `asaas` and other keys (`ATakenKeyLosesTheEvent` says what is lost otherwise).
- WebhookPath.OnlyARequeueProcessesAgain: nobody else enqueues jobs about payment events; decoding a stored body is a parameter, and reading the webhook row may fail.
- Webhooks.RepeatsAreHarmless: calls do not overlap; what reading the stored webhook gives is part of each call.
- Sanitize.ParseQuery: strings are sequences of characters; the HTML policies between parsing and printing are left out.
- FeatureFlags.ManagerAgreesWithRepository: whole operations, not interleaved ones; times of rows are not kept.
- FeatureFlags.OperationKeepsCoherenceIff: of RefreshAll only that flags without a colon in their names are cached coherently; under colliding keys a later flag can hide a wrong one.
- The part of `ServeHTTP` before the payload is read, `validateHMACSignature` and `byteReader.Read`: request handling and cryptography.
- `WebhookHandler.ServeHTTP` and internal/features/webhook/handler.go: they skip the processed-event check or carry no event id.
- `Client.Send` of the websocket client and `ReadPump`: outside the event loop, with different behaviour.
- The SQL statement `RescueZombies` and the batch processor: no caller.
- The auto-scaler, notifications between workers, Prometheus metrics, logging, tracing: they change none of the tables above.
- Routing, templates, mail, OAuth, rate limiting libraries, configuration loading.
