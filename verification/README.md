# jobsys: a verified model

jobsys runs jobs on a pool of workers. Postgres rows are the source of truth,
Kafka only carries the news that a run is ready, and workers may crash, stall or
come back as zombies. This project models that system in Dafny and proves what
its documentation promises, or exactly when it does so.

## What is modelled

- **The run table** (`Rows`, `Picking`, `Store`, `Occurrences`). Every SQL statement of
  `internal/store` that writes `job_runs` is a method of the class `RunTable`,
  proved against one specification of what the statement does to a row
  (`Rows.After`) and of which rows it may pick (`Picking.Picks`).
- **The protocol** (`History`, `Protocol`, `Safety`, `Ledger`, `Fairness`, `Recovery`,
  `Heartbeats`, `SlowHeartbeats`, `Witnesses`). A state machine over the run table, the messages in
  flight, the claims each process believes it holds, and the clock. A step is one
  statement, one message sent, lost, duplicated or dropped, one process
  forgetting its claim, or the clock moving on. Theorems are about every sequence
  of enabled steps, so about every interleaving of any number of processes. Each
  run carries the history of the statements that changed it; the invariant
  `History.Faithful` relates that history to the row, and `Ledger` reads every
  column of the row off it.
- **The programs** (`Backoff`, `Queue`, `Upkeep`, `Processes`). A worker's message
  handling, its heartbeat, the end of an attempt, its maintenance pass,
  `retryDelay`, and the API's manual run, as methods over the `RunTable` and a
  `Broker`. Each is shown to be a run of the protocol, and its contract says what
  it leaves in the rows and in the topic.
- **Logs** (`RunLog`, `SharedLog`, `Reordering`, `LogPages`, `PrintedLog`, `Stream`,
  `StreamProofs`, `Completeness`, `Following`, `FollowedRun`, `LateBatch`, `Events`,
  `EventFields`).
  The buffered logger with its two flushers, many of them on one table, the log
  table and its pages, the streaming handler reading a database that changes
  between any two of its reads, and the event-stream printer and parser.
  `Following` runs the protocol and the log table together, so that what a stream
  can see is derived and not assumed; `FollowedRun` adds every claimant's logger,
  from the job's messages to what a client is sent.
- **Cron firing** (`Firing`, `Schedule`, `Draining`, `SkewedResume`). `FireDueJobs`
  as the database sees it, with any number of schedulers inside their
  transactions; one committed call of it as a method; and `Tick`, the loop that
  drains the due jobs.
- **The job** (`GenerateText`, `Outcome`). `generate_text`, one attempt and
  through its retries.

## Assumptions

- One SQL statement is one atomic step that reads one clock. `FireDueJobs` is the
  exception: it is split into begin, lock, one step per job, and commit or abort.
- The database clock never goes back. Times and intervals are whole numbers of
  one unit; a duration is an int64 only in `retryDelay`.
- Ids are numbers compared for equality, and a new id is unused.
- All workers run with the same configuration, and it passes the check in
  `cmd/worker/main.go`.
- A database call may take effect and be known to, take effect and end in an
  error, or not take effect (`Basics.Call`).
- `NextRun` is any function of the job that gives a time or an error.
- Event data has no line breaks, which holds of JSON; event names are trimmed and
  not empty.

## Where the code is weaker than it reads

- `ReleaseRun` does not look at the retry limit, so a run can go past
  `max_retries + 1` attempts. `Safety.PastTheLimit` says when, and
  `Witnesses.ReleaseExceedsRetries` shows it.
- `FailQueuedRun` looks only at the status, not whether a worker ever claimed the
  run. `Safety.FailQueuedOfUnclaimed` says when its comment holds, and
  `Witnesses.FailQueuedHitsRetry` shows a claimed run it fails, with a
  `next_attempt_at` left on the FAILED row.
- `RETRY_MAX_DELAY` has no upper bound. Above 2^62 nanoseconds doubling can
  overflow and the delay goes negative (`Backoff.CappedIsDelay`,
  `Backoff.LargeCapOverflows`).
- `STALE_AFTER` of three heartbeat intervals does not cover the time a worker
  spends loading the job before its first tick. Over all runs of the system, no
  worker that loses at most two heartbeats in a row is reaped exactly if
  `STALE_AFTER` covers three intervals and the loading
  (`SlowHeartbeats.BeatingIsSafeIff`); where it falls short,
  `SlowHeartbeats.BeatingRunIsReaped` is a run in which one is.
- The log stream's comment says that no line is missed. That is so for every
  stream exactly if every batch that adds lines is appended while its worker still
  owns the attempt and after the lines already there
  (`Completeness.ExactIffTimely`, `Following.StreamsExactIffWritesTimely`). A
  reaped worker breaks the first condition (`LateBatch.LateBatchIsMissed`); the
  second breaks when the ticker is slow and the job fills a whole buffer
  (`Reordering.SlowTicker`). `generate_text` logs too little for that
  (`GenerateText.LogIsShort`), and an attempt that logs less than a batch appends
  in order (`RunLog.RunLogger.Play`): a `generate_text` run that is not reaped and
  loses no write of its log is followed exactly, to the last line its jobs logged
  (`FollowedRun.FollowGenerateText`).
- `Tick` stops when a pass fires less than a batch, not when it finds less than a
  batch due. An occurrence that already has a run makes it stop with jobs still
  due: `Draining.Tick` says when, and `SkewedResume.TickLeavesJobDue` shows it for
  every batch size, after a resume by a replica whose clock lags.
- A commit of `FireDueJobs` can take effect and end in an error. Its runs are then
  not dispatched by the scheduler but wait for the workers' sweeper
  (`Firing.EachOccurrenceFiresOnce`, `Draining.Tick`); if no reply is lost every
  scheduled run is returned for dispatch (`Firing.RepliesReturnEveryRun`).
- `jobctl logs` does not name the attempt in its requests, so a retry between two
  pages sends it on into another attempt's log. It prints the current attempt's
  log, whatever that is, exactly if all its requests find the run on one attempt
  (`PrintedLog.PrintsLogIffSameAttempt`). A log shorter than a page of 1000 is
  always printed whole (`PrintedLog.ShortLogPrints`), so `generate_text`, with at
  most 41 lines (`GenerateText.LogIsShort`), never gets there.

## Model

| member | source | states |
|---|---|---|
| Picking.PickOldest | internal/store/worker.go:112-114 | ORDER BY ... LIMIT ... SKIP LOCKED: unlocked candidates only, as many as the limit allows, none of them newer than one left behind |
| Picking.PicksExist | internal/store/worker.go:112-114 | whatever is locked, such a query has an answer |
| Store.TouchKeepsKeys | migrations/001_init.sql:52 | no statement breaks the unique key (job_id, scheduled_time) or detaches a run from its job |
| Store.RunTable.constructor | migrations/001_init.sql:31-53 | the empty table satisfies its constraints |
| Store.RunTable.CreateManualRun | internal/store/runs.go:60-71 | a QUEUED run at attempt 1 is added, or the missing job or the taken key is reported and nothing changes |
| Store.RunTable.ClaimRun | internal/store/worker.go:16-32 | it succeeds exactly on a QUEUED run whose backoff is over, changes that row alone, and returns the row as it now is |
| Store.RunTable.Heartbeat | internal/store/worker.go:37-46 | true exactly if the worker still owns the attempt; only then is the sign of life recorded |
| Store.RunTable.FinishRun | internal/store/worker.go:51-60 | the result is recorded exactly if the worker still owns the attempt |
| Store.RunTable.ReleaseRun | internal/store/worker.go:64-75 | the attempt goes back to the queue exactly if the worker still owns it |
| Store.RunTable.FailOrRetry | internal/store/retry.go:16-43 | takes effect exactly if the worker still owns the attempt; FAILED if it was past max_retries, else QUEUED, and the status returned is the row's |
| Store.RunTable.FailQueuedRun | internal/store/runs.go:75-80 | a QUEUED run fails, any other is left alone |
| Store.RunTable.UpdateReturning | internal/store/worker.go:116-127 | the UPDATE changes exactly the picked rows, all at one clock reading, and returns each as it now is, in order |
| Store.RunTable.ReapStale | internal/store/worker.go:105-129 | exactly the oldest stale unlocked runs are requeued or failed, each returned once as it now is |
| Store.RunTable.DueRetries | internal/store/retry.go:49-63 | exactly the longest overdue unlocked retries lose their next_attempt_at and are returned, each once |
| Store.RunTable.SweepQueued | internal/store/worker.go:136-153 | exactly the longest waiting unlocked runs whose backoff is over get a fresh queued_at and are returned, each once |
| History.ShapeKept | internal/store/worker.go:16-129 | every statement keeps the shape of a row: which columns are set in which status, and the order of its times |
| History.OneAtATimeKept | internal/store/worker.go:16-129 | every statement keeps ownership one at a time: claims numbered 1, 2, ..., each tenure over before the next |
| History.AccountedKept | internal/store/worker.go:64-126 | every statement keeps the attempt number equal to one plus the requeues and releases behind it, with requeues within max_retries |
| History.EndsOnceKept | internal/store/worker.go:37-126 | every statement keeps one ending per attempt |
| History.WaitsHeldKept | internal/store/retry.go:25-62 | every statement keeps a retry's wait: it is over, or the row still holds the run back |
| History.StartsLateKept | internal/store/retry.go:16-43 | every statement keeps the total wait behind a run that was only retried |
| History.FaithfulKept | internal/store/worker.go:16-153 | all parts of a run's invariant survive every statement together |
| Protocol.StepsAreTruthful | internal/store/worker.go:16-153 | a step changes only rows its statement admits, and an owner's write only a row that owner holds |
| Protocol.InvKept | internal/worker/worker.go:134-396 | every step of the system keeps the invariant of every run, the unique key, and that every claim believed in was made |
| Protocol.Always | internal/worker/worker.go:134-396 | the invariant holds in every reachable state, for every interleaving |
| Safety.OneAttemptAtATime | internal/store/worker.go:11-32 | in every reachable state the claims of a run are attempts 1 to n, each once, with disjoint tenures, the last open exactly while RUNNING |
| Safety.StepRefinesOwnership | internal/store/worker.go:11-75 | every step is, for every run, a step of the simple machine: waiting, owned by one worker, over |
| Safety.AttemptAloneFences | internal/store/worker.go:37-75 | for a process that made the claim, the attempt number alone decides the fence, even if two workers share an ID |
| Safety.OneClaimantPerAttempt | internal/store/worker.go:11-15 | two processes never believe they own the same attempt |
| Safety.NotOwnedIsLost | internal/store/worker.go:34-36 | a claimant that fails the fence has been overtaken: the run is past its attempt or over |
| Safety.LostForGood | internal/store/worker.go:48-50 | a claimant that no longer owns its attempt never owns it again, so no later write of it takes effect |
| Safety.TerminalForGood | internal/store/worker.go:51-60 | a terminal row never changes again |
| Safety.OneEndingPerAttempt | internal/store/worker.go:48-50 | of the owner and the reaper, at most one ends an attempt |
| Safety.RowsAreWellShaped | migrations/001_init.sql:31-53 | every reachable row has the columns its status calls for, and its times are in order |
| Safety.AttemptsAreAccountedFor | internal/store/retry.go:18-36 | attempt = 1 + requeues + releases, requeues at most max_retries, and status changes at most twice max_retries + 1 + releases |
| Safety.PastTheLimit | internal/store/worker.go:62-75 | a run goes past max_retries + 1 attempts exactly when a release hands back an attempt that had no retries left |
| Safety.ClaimsWaitOut | internal/store/retry.go:25-43 | no claim starts, and no message for one is sent by the sweeper or as a due retry, before the backoff of any earlier failed attempt is over |
| Safety.AttemptStartsAfterAllWaits | internal/worker/worker.go:297-305 | in a run never reaped or released, attempt n starts no earlier than its creation plus all the waits before it, which are the documented ones if doubling does not overflow |
| Safety.RetryReturnedOnce | internal/store/retry.go:45-63 | DueRetries returns each requeued attempt at most once |
| Safety.FailQueuedOfUnclaimed | internal/store/runs.go:73-80 | a run FailQueuedRun fails was never claimed exactly if it is still on its first attempt |
| Safety.FailedWithoutWorker | internal/store/runs.go:73-80 | a FAILED run without a worker is one whose last change was FailQueuedRun's |
| Ledger.RowsTellHistory | internal/store/worker.go:16-153 | every reachable row is what its history says: status, queued_at, started_at, finished_at, next_attempt_at, worker, output and error are those of the last entry that set them |
| Ledger.SweepsAreFarApart | internal/store/worker.go:131-153 | a run is swept only after more than SweepAfter in the queue, since its creation and since any sweep, retry, release or requeue put it there |
| Witnesses.ReleaseExceedsRetries | internal/store/worker.go:64-70 | a run of the system in which a release takes a run past max_retries + 1 attempts |
| Witnesses.FailQueuedHitsRetry | internal/store/runs.go:76-78 | a run of the system in which FailQueuedRun fails a claimed run waiting out its backoff |
| Occurrences.KeysAgree | migrations/001_init.sql:50-52 | the workers' and the scheduler's view of job_runs have the same taken keys |
| Occurrences.StepsKeepOccurrences | migrations/001_init.sql:33-36 | nothing the workers do changes which occurrence a run fulfils |
| Occurrences.InsertsAreCreates | internal/store/schedule.go:69-74 | a run a scheduler's transaction is about to commit is one the workers' protocol can create |
| Fairness.ReapShrinks | internal/store/worker.go:110-114 | an unblocked pass that spares a stale run uses up a whole batch of runs at least as silent |
| Fairness.ReaperReachesEveryRun | internal/store/worker.go:105-129 | a stale run is spared by fewer than m / batch unblocked passes, m counting the runs at least as silent |
| Fairness.SweeperReachesEveryRun | internal/store/worker.go:136-153 | the same bound for a queued run over the runs queued at least as long |
| Fairness.RetriesReachEveryRun | internal/store/retry.go:49-63 | from every reachable state the same bound for a retry that is due, over the retries due at least as long, if the policy cannot overflow |
| Recovery.ReapPasses | internal/store/worker.go:105-129 | finitely many unblocked passes reap a stale run |
| Recovery.RunAttempt | internal/worker/worker.go:134-237 | a queued run whose backoff is over has a continuation in which one worker runs an attempt to its end |
| Recovery.EveryRunRecovers | internal/worker/worker.go:134-396 | from every reachable state, every run has a continuation of routine steps of one live worker that ends it |
| Heartbeats.LiveRunsAreNotReaped | internal/store/worker.go:110-111 | an attempt is reaped only after more than StaleAfter since its claim or last effective heartbeat |
| Heartbeats.MissesTolerated | cmd/worker/main.go:97-100 | every pattern of two lost heartbeats in a row is survived exactly if StaleAfter covers three intervals and the loading time |
| Heartbeats.BeatingRunIsSafe | internal/store/worker.go:110-111 | one step of that: a reaper running before the next tick does not select the run, its last sign of life being on record |
| Heartbeats.BeatingRunIsNeverReaped | internal/worker/worker.go:239-260 | in every run of the system, an attempt whose heartbeats fail at most twice in a row is not reaped while it beats |
| SlowHeartbeats.BeatingRunIsReaped | cmd/worker/main.go:97-100 | whenever StaleAfter falls short of three intervals and the loading time, a run of the system in which an attempt with two lost heartbeats in a row, and no more, is reaped |
| SlowHeartbeats.BeatingIsSafeIff | cmd/worker/main.go:97-100 | over all runs of the system: no attempt that loses at most two heartbeats in a row is reaped, exactly if StaleAfter covers three intervals and the loading time |
| Backoff.RetryDelay | internal/worker/worker.go:297-305 | without overflow, the base doubled for each earlier attempt and capped, in [base, max], after no more doublings than it takes to reach the cap |
| Backoff.CappedIsDelay | internal/worker/worker.go:297-305 | int64 arithmetic keeps that promise at every attempt exactly if doubling from the base reaches the cap without overflow |
| Backoff.OverflowTurnsNegative | internal/worker/worker.go:301-303 | where doubling overflows, some attempt's delay is negative |
| Backoff.SmallCapIsSafe | cmd/worker/main.go:94-96 | a cap of at most 2^62 never overflows |
| Backoff.LargeCapOverflows | cmd/worker/main.go:94-96 | a configuration the check allows whose second delay is negative |
| Backoff.DelayMonotone | internal/worker/worker.go:297-305 | later attempts never wait less |
| Backoff.TotalWaitIsDelay | internal/worker/worker.go:297-305 | without overflow the waits in int64 add up to the documented ones |
| Processes.Consume | internal/worker/worker.go:154-192 | one message is a run of the protocol, database errors included: a QUEUED run whose backoff is over becomes the worker's if the call arrives, a claim is reported exactly if the reply arrived too, and the message goes exactly if committed |
| Processes.BeatOnce | internal/worker/worker.go:241-260 | a heartbeat that arrives while the attempt is owned sets the row's sign of life and nothing else; the attempt is given up exactly if the database says it is lost |
| Processes.Succeed | internal/worker/worker.go:262-275 | a success that arrives while the attempt is owned leaves the run SUCCEEDED with the output, and changes nothing otherwise |
| Processes.Fail | internal/worker/worker.go:277-295 | a failure that arrives while the attempt is owned leaves the run FAILED past max_retries and else QUEUED at the next attempt until its delay is over, with the message given |
| Processes.Release | internal/worker/worker.go:307-325 | a release that arrives while the attempt is owned leaves the run QUEUED at the next attempt, at every attempt; a message goes out exactly if that is known |
| Processes.Record | internal/worker/worker.go:224-236 | with the log closed, exactly the one ending is written: the output of a success whatever the cancellation, a release on shutdown, a failed attempt on a timeout or the job's own error, nothing if the run was lost; it says what each leaves in the row and the topic |
| Processes.Execute | internal/worker/worker.go:195-237 | for every interleaving of the job and the ticker, an attempt logs exactly what its job says, closes its log, and then ends as `Record` does; if no write was lost the table holds all of the log; a job that cannot be loaded fails the attempt |
| Processes.EndingsFollowTheJob | internal/worker/worker.go:217-236 | what a worker writes is what the theorems about the job's outcome assume |
| Processes.DispatchAll | internal/worker/worker.go:359-380 | exactly the rows read that are QUEUED get their message into the topic, but for a failed dispatch; for every other row owed one, it is lost |
| Processes.MaintainOnce | internal/worker/worker.go:357-380 | for any outcome of its calls, a maintenance pass is a run of the protocol; an unhindered reap takes back the silent runs, or a batch of the longest silent, to their next attempt or FAILED; likewise the retries due are let go and the idle runs requeued; and with no call or dispatch failing, all of them that are QUEUED have a message in the topic |
| Upkeep.PassReaps | internal/store/worker.go:105-129 | of the runs silent for more than StaleAfter before the pass, those taken back after it are the oldest batch, or all |
| Upkeep.PassReturns | internal/store/retry.go:49-63 | the same for the retries due, whatever the reap before it did |
| Upkeep.PassSweeps | internal/store/worker.go:136-153 | an idle run that a pass leaves in its place in the queue stands behind a whole batch, idle for at least as long, that it did not |
| Upkeep.AllInOneBatch | internal/store/worker.go:114 | with no more than a batch of them, that is all |
| Processes.RunJob | internal/api/handlers.go:185-215 | the response says what became of the run: QUEUED with a message in flight, FAILED when the dispatch reported an error and the database could be told, or not created; after a lost reply it is left QUEUED for the sweeper; other rows stay |
| RunLog.RunLogger.constructor | internal/worker/runlog.go:40-47 | a new logger has logged nothing, on any table, and knows whether its (run, attempt) had lines |
| RunLog.RunLogger.Log | internal/worker/runlog.go:50-62 | a line gets the next seq and joins the end of the log |
| RunLog.RunLogger.JobTakes | internal/worker/runlog.go:85-92 | the job's flush swaps the buffer out without losing or reordering a line |
| RunLog.RunLogger.TickerTakes | internal/worker/runlog.go:85-92 | nor does the ticker's |
| RunLog.RunLogger.JobWrites | internal/worker/runlog.go:94-99 | existing rows stay, the batch goes under this attempt alone, and none of its lines is dropped as a duplicate; they come after the attempt's others if it logged less than a batch |
| RunLog.RunLogger.TickerWrites | internal/worker/runlog.go:94-99 | the same for the ticker's batch |
| RunLog.RunLogger.Close | internal/worker/runlog.go:64-69 | whatever the two flushers still do after close(stop), it returns with everything logged flushed, both flushers done and other rows as they were |
| RunLog.RunLogger.Play | internal/worker/runlog.go:50-100 | in every interleaving of the two flushers, each move has its effect exactly if its goroutine is at that point (`Moved`); the log is the job's messages so far, in order, and all of them once Close is under way; existing rows stay; an attempt that logs less than a batch only ever adds later lines; a closed logger writes nothing |
| RunLog.RunLogger.Turn | internal/worker/runlog.go:50-100 | one move: the buffer, batches, phase and table after it, which are as before unless its goroutine is at that point |
| RunLog.TickStores | internal/worker/runlog.go:72-83 | one tick, in any phase: every line logged is a row, unless the job is just writing it |
| RunLog.FullBufferStores | internal/worker/runlog.go:56-62 | a full buffer: the job does not go on before every line logged is a row, unless the ticker is just writing it |
| RunLog.LogMoves | internal/worker/runlog.go:50-62 | from wherever the job waits for its next message there are moves that log all of them |
| RunLog.CloseMoves | internal/worker/runlog.go:65-69 | once everything is logged there are moves that bring Close to its return, the ticker done and everything written |
| RunLog.LoggedIsStored | internal/worker/runlog.go:85-100 | with the buffer empty and no write lost, a line is a row or in a batch a goroutine holds |
| RunLog.RunLogger.Finish | internal/worker/runlog.go:64-100 | from wherever the two are, the rest is logged and flushed and Close returns |
| RunLog.BatchIsNew | internal/store/worker.go:77-98 | no line of a batch yet to be stored conflicts with a stored one |
| RunLog.SameNumberSameBatch | internal/worker/runlog.go:50-58 | a seq number is used for one line, in one batch |
| RunLog.ClosedLogIsFlushed | internal/worker/runlog.go:64-100 | at Close the batches are consecutive pieces of 1..seq, of at most maxBatch lines, each written |
| RunLog.ClosedLogIsPersisted | internal/worker/runlog.go:64-100 | if no write was lost and no other wrote before it, the attempt's rows are exactly the lines 1..seq |
| SharedLog.PlayTogether | internal/store/worker.go:77-98 | the loggers of any claims that coexist in a reachable state, in any interleaving: existing rows stay and the conflict rule never drops a line |
| SharedLog.StartLogger | internal/worker/worker.go:217 | the logger of a new claim begins with a log nobody has written |
| SharedLog.TurnOf | internal/worker/runlog.go:85-96 | what one attempt's logger writes leaves every other logger's log as it was |
| Following.NewClaimHasNoLines | migrations/001_init.sql:65-66 | a claim finds no line of the attempt it starts |
| SharedLog.ClaimsApart | internal/store/worker.go:11-15 | two claims in one reachable state are of different runs or attempts |
| LogPages.LogTable.constructor | migrations/001_init.sql:68-76 | the empty log table |
| LogPages.AppendedIs | internal/store/worker.go:91-97 | ON CONFLICT DO NOTHING keeps every row, adds only the batch's, and leaves none of its keys without a row |
| LogPages.LogTable.AppendLogs | internal/store/worker.go:77-99 | existing lines stay as they are, every new line of the batch is stored, and nothing else |
| LogPages.LogTable.ListLogs | internal/store/runs.go:90-110 | the page is the first lines from fromSeq on, in order, short only at the end of the log |
| LogPages.ReadPage | internal/store/runs.go:92-95 | ORDER BY seq LIMIT n picks the smallest seq numbers from the start on |
| LogPages.PageIsUnique | internal/store/runs.go:92-95 | such a query has one answer |
| LogPages.PageExtends | internal/api/handlers.go:300-303 | following next_seq neither skips nor repeats a line |
| LogPages.PageLeavesFewer | cmd/jobctl/main.go:317-320 | each full page leaves fewer lines to come, so paging ends |
| LogPages.PrintLog | cmd/jobctl/main.go:302-321 | for every sequence of attempts its requests find, it ends and prints exactly the rows of the pages it is answered, page by page (`Printed`) |
| PrintedLog.PrintsLogIffSameAttempt | cmd/jobctl/main.go:302-321 | what is printed is the log of the attempt the run was on, whatever was logged, if and only if every request finds the run on that attempt |
| PrintedLog.ShortLogPrints | cmd/jobctl/main.go:307-320 | a log shorter than a page is printed whole whatever happens to the run |
| Stream.StreamLogs | internal/api/stream.go:67-137 | what the handler sends is what its reads of the changing database call for, and it ends exactly if they reach a final status |
| StreamProofs.PollsChained | internal/api/stream.go:85-136 | pages of an attempt adjoin, attempts are taken in turn, and nothing follows the end |
| StreamProofs.StreamIsOrderly | internal/api/stream.go:29-38 | for every interleaving: each attempt announced in turn, its lines after it in increasing order, the end last |
| StreamProofs.OrderlyLinesIncrease | internal/api/stream.go:99-104 | the (attempt, seq) pairs sent strictly increase |
| StreamProofs.ExactIffNothingBehind | internal/api/stream.go:85-136 | a step towards that: a finished stream is exact if and only if no page passed over a line that is persisted in the end |
| StreamProofs.OrderedStreamIsExact | internal/api/stream.go:86-88 | that is so if each attempt's batches commit in order and before the step that ends it |
| Completeness.ExactIffTimely | internal/api/stream.go:86-88 | for every life of a run: all streams of it, however interleaved, are exact if and only if each attempt's lines are committed in seq order and before the run is past the attempt |
| Completeness.BehindIsMissed | internal/api/stream.go:93-108 | any line committed behind a later one of its attempt, or after the attempt, is missed by some stream that completes |
| Completeness.StaleReadsComplete | internal/api/stream.go:85-136 | a stream whose run is over comes to its end, whatever it read first |
| Completeness.EndsOnLast | internal/api/stream.go:110-122 | a stream that comes to its end does so at the run's last attempt |
| Following.StreamsExactIffWritesTimely | internal/api/stream.go:86-88 | in every run of the system the streams of a run are all exact if and only if each batch that added a line came while its claimant owned the attempt and after the lines there |
| Following.RulesMakeStreamsExact | internal/worker/worker.go:217-236 | a run that is not reaped, whose workers append in order and close an attempt's log before ending it, is followed exactly by every stream |
| FollowedRun.RunFollowed | internal/worker/worker.go:217-236 | workers, their loggers and the protocol in any interleaving: a run that is not reaped, whose attempts log less than a batch each and are ended with their log closed, is followed exactly by every stream; if no write of its log is lost, the log is its jobs' messages, attempt by attempt |
| FollowedRun.FollowGenerateText | internal/api/stream.go:29-38 | for generate_text: each stream opened at the first line of such a run, whatever its page size, sends exactly the lines its attempts logged, with their text |
| FollowedRun.ClaimIsNew | internal/store/worker.go:16-32 | a claim starts an attempt numbered above every claim so far |
| FollowedRun.AttendedKept | internal/worker/worker.go:224-236 | every attempt of an unreaped run that is over was ended by the worker that claimed it |
| Following.EndedRunsLive | internal/api/stream.go:85-92 | what a stream can read of an ended run in any run of the system: logs grow, attempts advance, a final row stays |
| StreamProofs.PollsStopLast | internal/api/stream.go:110-122 | the end names the last attempt announced, and the status with which the run was read as ended at it |
| StreamProofs.FollowedLogIsComplete | internal/api/stream.go:29-38 | under those conditions a line was sent, with its text, exactly if it was persisted from the cursor on, in an attempt up to the last |
| Reordering.SlowTicker | internal/worker/runlog.go:85-96 | for every buffer size, the logger's own moves commit a later batch first; the run ends with every line persisted and some stream is missing one |
| LateBatch.LateBatchIsMissed | internal/store/worker.go:80-98 | for every configuration and page size, a run of the system in which a reaped worker's batch arrives after its attempt: the run succeeds with the line persisted, and a stream that followed the attempt from its first line ends without it |
| Events.ReadEvents | cmd/jobctl/main.go:383-405 | the loop delivers the events of the text, line by line |
| Events.RoundTrip | internal/api/stream.go:68-76 | reading back what was sent, pings between, gives exactly the events sent, in order |
| Events.TruncationDeliversPrefix | cmd/jobctl/main.go:388-405 | a text cut short delivers a prefix of its events, unless the cut is right after a carriage return alone at the start of a line |
| Events.CutAfterReturnDelivers | cmd/jobctl/main.go:391-397 | such a cut, which delivers an event the whole text does not |
| Events.CutOffAnywhere | cmd/jobctl/main.go:383-405 | a client cut off anywhere has received the first events sent, each whole |
| EventFields.StreamIsRead | cmd/jobctl/main.go:379-405 | any event stream, with several data lines to an event, unknown fields and comments anywhere, reads as what its events mean |
| Firing.InvKept | internal/store/schedule.go:34-98 | every step of every scheduler, pause, resume and manual run keeps keys unique, locks disjoint and paused jobs without a next run |
| Firing.CommitKept | internal/store/schedule.go:95 | a commit takes nothing from the other transactions in progress |
| Firing.EachOccurrenceFiresOnce | internal/store/schedule.go:26-30 | for N schedulers and any answers of next: an occurrence a commit advanced past has exactly one run, no job is held twice, paused jobs have no next run, and every scheduled run was returned for dispatch or its commit ended in an error |
| Firing.CommitReturnsNewRuns | internal/store/schedule.go:21-24 | the runs of a commit were never returned before, nor those of a commit whose reply was lost |
| Firing.RepliesReturnEveryRun | internal/store/schedule.go:95-98 | if no commit that takes effect ends in an error, every scheduled run is returned for dispatch |
| Firing.NeverEarly | internal/store/schedule.go:41-45 | no occurrence is fired or passed over before its time |
| Schedule.Tables.constructor | migrations/001_init.sql:8-22 | a table of jobs with no runs |
| Schedule.Tables.SetEnabled | internal/api/handlers.go:152-182 | whatever changed since the handler read the job, a resumed cron job gets next's answer and any other change leaves no next run, or the error is reported and nothing changes |
| Schedule.Tables.SetJobEnabled | internal/store/jobs.go:36-44 | one row is overwritten with what it is given, or none if there is no such job; no paused or manual-only job then has a next run exactly if it was given none for such a job |
| Schedule.Tables.SelectDue | internal/store/schedule.go:41-63 | the oldest due unlocked jobs, each once, in order |
| Schedule.Tables.FireDueJobs | internal/store/schedule.go:34-98 | every selected job is advanced, every selected occurrence then has a run, exactly the new runs are returned, and there are as many as jobs exactly if no occurrence was taken |
| Draining.Tick | internal/scheduler/scheduler.go:55-75 | it ends whatever next answers and whatever fails, and dispatches exactly what it fired, except the runs of a last commit that took effect and ended in an error; if nothing fails and the answers lie in the future, it leaves no active cron job with a next run that has come exactly if no occurrence before the last pass's was already taken, and then every due job is advanced and has its run |
| Draining.PassTakes | internal/scheduler/scheduler.go:71-73 | a pass that fires anything leaves strictly fewer occurrences a tick can fire |
| Draining.PassHandles | internal/scheduler/scheduler.go:56-75 | passes take the due jobs oldest first and never one twice |
| Draining.TickOrder | internal/scheduler/scheduler.go:71 | a tick handles every due job exactly if no occurrence before the last pass's was taken |
| Draining.ClearIsNoneTaken | internal/scheduler/scheduler.go:71 | with no two due times the same, that condition in terms of the tables alone |
| SkewedResume.TickLeavesJobDue | internal/scheduler/scheduler.go:71 | for every batch size, a tick that stops with a job still due although nothing fails and next answers in the future |
| SkewedResume.LastStaysDue | internal/scheduler/scheduler.go:71 | whatever drains those tables by the rule of `Draining.Tick` leaves the last of batch + 1 jobs due |
| SkewedResume.Reachable0 | internal/api/handlers.go:168-176 | schedulers, a pause, a resume with a lagging clock and new jobs lead there, for every batch size |
| GenerateText.Generate | internal/job/job.go:102-137 | an attempt's result and log, for every payload and every moment of cancellation |
| GenerateText.SucceedsWhen | internal/job/job.go:102-137 | success exactly if not cancelled, fail_at zero and past fail_attempts, and then the output is the numbered lines, under the payload's prefix or "line" |
| GenerateText.OutputIsNumberedLines | internal/job/job.go:111-116 | split at its line breaks, the output is n lines, line i the prefix, a space and the numeral of i |
| Basics.DigitsAreNumeral | internal/job/job.go:116 | a number is printed as the digits whose value it is, without leading zeros |
| Basics.NumeralIsDigits | internal/job/job.go:116 | and there is no other way to write it, so two numbers never print alike |
| GenerateText.NumberedIsListing | internal/job/job.go:111-116 | whatever the prefix, the output is those lines, each ended by a line break |
| GenerateText.ReportsInOrder | internal/job/job.go:120-124 | the progress messages report every multiple of the step, and the last line, in order, out of all lines |
| GenerateText.FailuresSayWhere | internal/job/job.go:117-137 | a deliberate failure names the line or the attempt it struck at, in its error and in the last line of the log |
| GenerateText.LogSays | internal/job/job.go:105-137 | the log of an attempt nothing cancels: the number of lines to come, the reports in order, and one line for the failure if there is one |
| GenerateText.StopsWhen | internal/job/job.go:111-132 | it is stopped exactly if cancelled by its last check |
| GenerateText.FullPassReports | internal/job/job.go:107-124 | a full pass reports progress ceil(lines / every) times: once per line below 20 lines, else 20 to 39 times |
| GenerateText.LogIsShort | internal/job/job.go:107-124 | an attempt logs at most 41 lines, however large the job |
| Outcome.EndsWhereRetriesReach | internal/store/retry.go:18-36 | with nothing but the job's own failures: SUCCEEDED at fail_attempts + 1 exactly if fail_at is zero and max_retries reaches it, else FAILED at max_retries + 1 |
| Outcome.SucceededMeansEveryLine | internal/worker/worker.go:224-227 | whatever crashes, reaps and releases happened, a SUCCEEDED run has fail_at zero, an attempt past fail_attempts and every line in its output |

## Left out

- Recovery.EveryRunRecovers: gives a continuation, not a promise that a scheduler takes it.
- LogPages.PrintLog: the log is not changing while it prints.
- Fairness.RetriesReachEveryRun: a policy that overflows, whose negative backoffs put requeued runs ahead of older ones.
- FollowedRun.RunFollowed: the run is not reaped and no attempt is ended with its log open; without the first, `LateBatch` shows a stream that misses a line.
- Draining.Tick: one reading of the database clock and no other writer during the tick; other schedulers are part of `Firing`.
- Schedule.Tables.FireDueJobs: one call from lock to commit without others in between; those are part of `Firing`.
- Stream.StreamLogs: the ping, the flush and the pause between polls; a failed write ends the sequence of reads.
- Upkeep.PassSweeps: a pass that takes longer than SweepAfter, so that what it requeued itself is idle when it sweeps.
- Processes.MaintainOnce: a statement that is rolled back after some of its rows were read, whose runs would be dispatched all the same.
- Processes.RunJob: the text of the dispatch error.
- Several workers' loops over channels and slots (`consume`, `heartbeat`, `maintain`, shutdown) beyond one turn of each: the protocol's steps stand for their interleavings.
- The refinement from the interleaved transactions of `Firing` to single calls of `FireDueJobs`.
- Kafka, pgx, HTTP, flags, environment parsing, signals, migrations and health probes.
- Cron parsing and time zones.
- JSON, and the text of log lines and errors the workers write to their own log.
- The scanner's limit on line length in `readEvents`, and errors its callback returns.
- Output files, the web UI and deployment.
- Field checks in `newJob` and `queryInt`, `ListRuns`, `ListJobs` and `GetJob`: single checks and plain reads.
- The CANCELLED status as a transition: no code path writes it.
