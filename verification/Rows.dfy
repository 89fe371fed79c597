// The job_runs row and what each SQL statement of internal/store does to it.
module Rows {
  import opened Basics

  datatype Status = Queued | Running | Succeeded | Failed | Cancelled

  datatype Trigger = Schedule | Manual

  datatype Run = Run(
    jobId: JobId,
    scheduledTime: Time,
    trigger: Trigger,
    status: Status,
    attempt: nat,
    workerId: Option<WorkerId>,
    queuedAt: Time,
    startedAt: Option<Time>,
    finishedAt: Option<Time>,
    lastHeartbeatAt: Option<Time>,
    nextAttemptAt: Option<Time>,
    error: Option<string>,
    output: Option<string>)

  // An inserted row: the columns the INSERT names, and the table's defaults.
  function NewRun(job: JobId, scheduledTime: Time, trigger: Trigger, now: Time): Run {
    Run(job, scheduledTime, trigger, Queued, 1, None, now, None, None, None, None, None, None)
  }

  predicate Terminal(r: Run) {
    r.status.Succeeded? || r.status.Failed? || r.status.Cancelled?
  }

  // The effect of one statement on one row it updates.
  datatype Event =
    | Claimed(worker: WorkerId)
    | Beat
    | Finished(status: Status, output: Option<string>, error: Option<string>)
    | FailedAttempt(msg: string, backoff: Time)
    | Released(reason: string)
    | Reaped
    | DueReturned
    | Swept
    | FailedQueued(reason: string)

  // next_attempt_at IS NULL OR next_attempt_at <= now()
  predicate BackoffOver(r: Run, now: Time) {
    r.nextAttemptAt.None? || r.nextAttemptAt.value <= now
  }

  // The fence every write of a claimed attempt carries.
  predicate Owns(r: Run, worker: WorkerId, attempt: nat) {
    r.workerId == Some(worker) && r.attempt == attempt && r.status.Running?
  }

  predicate Stale(r: Run, now: Time, staleAfter: Time) {
    r.status.Running? && r.lastHeartbeatAt.Some? && r.lastHeartbeatAt.value < now - staleAfter
  }

  predicate RetryDue(r: Run, now: Time) {
    r.status.Queued? && r.nextAttemptAt.Some? && r.nextAttemptAt.value <= now
  }

  predicate Stuck(r: Run, now: Time, olderThan: Time) {
    r.status.Queued? && r.queuedAt < now - olderThan && BackoffOver(r, now)
  }

  predicate Exhausted(r: Run, maxRetries: nat) {
    r.attempt > maxRetries
  }

  // Whether a statement's WHERE clause can select the row. Who asks, and how
  // stale the row is, are the statement's own parameters.
  predicate Admits(r: Run, now: Time, ev: Event) {
    match ev
    case Claimed(_) => r.status.Queued? && BackoffOver(r, now)
    case DueReturned => RetryDue(r, now)
    case Swept => r.status.Queued? && BackoffOver(r, now)
    case FailedQueued(_) => r.status.Queued?
    case _ => r.status.Running?
  }

  function LostWorker(r: Run): string {
    "attempt " + Digits(r.attempt) + " lost worker " + (if r.workerId.Some? then r.workerId.value else "")
  }

  // Back to QUEUED as the next attempt, owned by nobody.
  function Requeued(r: Run, now: Time, error: string, nextAttemptAt: Option<Time>): Run {
    r.(status := Queued, attempt := r.attempt + 1, workerId := None, startedAt := None,
       lastHeartbeatAt := None, queuedAt := now, error := Some(error), nextAttemptAt := nextAttemptAt)
  }

  // The row after the statement's SET list.
  function After(r: Run, maxRetries: nat, now: Time, ev: Event): Run {
    match ev
    case Claimed(w) =>
      r.(status := Running, workerId := Some(w), startedAt := Some(now), lastHeartbeatAt := Some(now),
         finishedAt := None, nextAttemptAt := None)
    case Beat => r.(lastHeartbeatAt := Some(now))
    case Finished(status, output, error) =>
      r.(status := status, output := output, error := error, finishedAt := Some(now))
    case FailedAttempt(msg, backoff) =>
      if Exhausted(r, maxRetries) then
        r.(status := Failed, error := Some(msg), finishedAt := Some(now), nextAttemptAt := None)
      else Requeued(r, now, msg, Some(now + backoff)).(finishedAt := None)
    case Released(reason) => Requeued(r, now, reason, r.nextAttemptAt)
    case Reaped =>
      if Exhausted(r, maxRetries) then
        r.(status := Failed, error := Some(LostWorker(r)), finishedAt := Some(now))
      else Requeued(r, now, LostWorker(r), r.nextAttemptAt).(finishedAt := None)
    case DueReturned => r.(nextAttemptAt := None, queuedAt := now)
    case Swept => r.(queuedAt := now)
    case FailedQueued(reason) => r.(status := Failed, error := Some(reason), finishedAt := Some(now))
  }

  // Every row refers to an existing job (the job_id foreign key).
  predicate JobsKnown(runs: map<RunId, Run>, retries: map<JobId, nat>) {
    forall id | id in runs :: runs[id].jobId in retries
  }

  // One statement applied to the whole table: the rows it selected change, all
  // at the same clock reading, and the others stay.
  function Touch(runs: map<RunId, Run>, retries: map<JobId, nat>, now: Time,
                 touched: map<RunId, Event>): map<RunId, Run>
    requires JobsKnown(runs, retries)
  {
    map id | id in runs ::
      if id in touched then After(runs[id], retries[runs[id].jobId], now, touched[id]) else runs[id]
  }
}
