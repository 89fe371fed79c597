// The job_runs table and the statements of internal/store that change it. Each
// method is one SQL statement: it runs atomically and reads one clock, `now`.
module Store {
  import opened Basics
  import opened Rows
  import opened Picking

  datatype StoreError = NotFound | DuplicateKey

  datatype Result<+T> = Ok(value: T) | Err(error: StoreError)

  // A row a maintenance statement returns for its caller to dispatch.
  datatype Redispatch = Redispatch(runId: RunId, jobId: JobId, status: Status, attempt: nat)

  function AsRedispatch(id: RunId, r: Run): Redispatch {
    Redispatch(id, r.jobId, r.status, r.attempt)
  }

  ghost function Ids(out: seq<Redispatch>): set<RunId> {
    set i | 0 <= i < |out| :: out[i].runId
  }

  // The unique key (job_id, scheduled_time).
  predicate KeyTaken(runs: map<RunId, Run>, job: JobId, scheduledTime: Time) {
    exists id | id in runs :: runs[id].jobId == job && runs[id].scheduledTime == scheduledTime
  }

  predicate UniqueKeys(runs: map<RunId, Run>) {
    forall a, b | a in runs && b in runs && a != b ::
      runs[a].jobId != runs[b].jobId || runs[a].scheduledTime != runs[b].scheduledTime
  }

  // The ORDER BY columns of the three maintenance statements, over the rows
  // their WHERE clauses select.
  function StaleKeys(runs: map<RunId, Run>, now: Time, staleAfter: Time): map<RunId, Time> {
    map id | id in runs && Stale(runs[id], now, staleAfter) :: runs[id].lastHeartbeatAt.value
  }

  function DueKeys(runs: map<RunId, Run>, now: Time): map<RunId, Time> {
    map id | id in runs && RetryDue(runs[id], now) :: runs[id].nextAttemptAt.value
  }

  function StuckKeys(runs: map<RunId, Run>, now: Time, olderThan: Time): map<RunId, Time> {
    map id | id in runs && Stuck(runs[id], now, olderThan) :: runs[id].queuedAt
  }

  function All(ids: set<RunId>, ev: Event): map<RunId, Event> {
    map id | id in ids :: ev
  }

  // What a maintenance statement does: it picks the oldest candidates, applies
  // `ev` to exactly those rows, and returns each of them once, as it now is.
  ghost predicate Maintains(before: map<RunId, Run>, after: map<RunId, Run>, retries: map<JobId, nat>,
                            now: Time, cands: map<RunId, Time>, locked: set<RunId>, limit: nat,
                            ev: Event, out: seq<Redispatch>)
    requires JobsKnown(before, retries)
  {
    && Picks(cands, locked, limit, Ids(out))
    && after == Touch(before, retries, now, All(Ids(out), ev))
    && (forall i, j | 0 <= i < j < |out| :: out[i].runId != out[j].runId)
    && forall i | 0 <= i < |out| ::
         && out[i].runId in after && out[i].jobId == after[out[i].runId].jobId
         && out[i].status == after[out[i].runId].status && out[i].attempt == after[out[i].runId].attempt
  }

  lemma TouchKeepsJobs(runs: map<RunId, Run>, retries: map<JobId, nat>, now: Time, touched: map<RunId, Event>)
    requires JobsKnown(runs, retries)
    ensures var t := Touch(runs, retries, now, touched); t.Keys == runs.Keys && JobsKnown(t, retries)
  {
  }

  // No statement changes the columns of the unique key.
  lemma TouchKeepsKeys(runs: map<RunId, Run>, retries: map<JobId, nat>, now: Time, touched: map<RunId, Event>)
    requires JobsKnown(runs, retries) && UniqueKeys(runs)
    ensures var t := Touch(runs, retries, now, touched); JobsKnown(t, retries) && UniqueKeys(t)
  {
    var t := Touch(runs, retries, now, touched);
    assert forall id | id in t :: t[id].jobId == runs[id].jobId && t[id].scheduledTime == runs[id].scheduledTime;
  }

  lemma TouchOneMore(runs: map<RunId, Run>, retries: map<JobId, nat>, now: Time, ids: set<RunId>, id: RunId, ev: Event)
    requires JobsKnown(runs, retries) && id in runs && id !in ids
    ensures var t := Touch(runs, retries, now, All(ids, ev));
            t[id] == runs[id]
            && t[id := After(runs[id], retries[runs[id].jobId], now, ev)] == Touch(runs, retries, now, All(ids + {id}, ev))
  {
  }

  lemma MaintainsPicked(before: map<RunId, Run>, after: map<RunId, Run>, retries: map<JobId, nat>,
                        now: Time, cands: map<RunId, Time>, locked: set<RunId>, limit: nat,
                        ev: Event, picked: seq<RunId>, out: seq<Redispatch>)
    requires JobsKnown(before, retries)
    requires NoDup(picked) && cands.Keys <= before.Keys
    requires Picks(cands, locked, limit, Elems(picked))
    requires after == Touch(before, retries, now, All(Elems(picked), ev))
    requires |out| == |picked|
    requires forall i | 0 <= i < |out| :: picked[i] in after && out[i] == AsRedispatch(picked[i], after[picked[i]])
    ensures Maintains(before, after, retries, now, cands, locked, limit, ev, out)
  {
    hide Touch, Picks, UniqueKeys, All;
    IdsOfPicked(picked, out);
    assert forall i | 0 <= i < |out| :: out[i].runId == picked[i];
  }

  lemma IdsOfPicked(picked: seq<RunId>, out: seq<Redispatch>)
    requires |out| == |picked| && forall i | 0 <= i < |out| :: out[i].runId == picked[i]
    ensures Ids(out) == Elems(picked)
  {
    forall id | id in Elems(picked) ensures id in Ids(out) {
      var i :| 0 <= i < |picked| && picked[i] == id;
      assert out[i].runId == id;
    }
  }

  class RunTable {
    const retries: map<JobId, nat>
    var runs: map<RunId, Run>

    ghost predicate Valid()
      reads this
    {
      JobsKnown(runs, retries) && UniqueKeys(runs)
    }

    constructor (retries: map<JobId, nat>)
      ensures Valid() && runs == map[] && this.retries == retries
    {
      this.retries := retries;
      runs := map[];
    }

    // CreateManualRun. `id` is the new UUID and `clock` clock_timestamp().
    method CreateManualRun(id: RunId, job: JobId, now: Time, clock: Time) returns (res: Result<Run>)
      requires Valid() && id !in runs
      modifies this`runs
      ensures Valid()
      ensures res == if job !in retries then Err(NotFound)
                     else if KeyTaken(old(runs), job, clock) then Err(DuplicateKey)
                     else Ok(NewRun(job, clock, Manual, now))
      ensures runs == if res.Ok? then old(runs)[id := res.value] else old(runs)
    {
      if job !in retries {
        return Err(NotFound);
      }
      if KeyTaken(runs, job, clock) {
        return Err(DuplicateKey);
      }
      var r := NewRun(job, clock, Manual, now);
      runs := runs[id := r];
      return Ok(r);
    }

    // Rows of one statement that selects a single row by id.
    ghost function Written(id: RunId, now: Time, ev: Event): map<RunId, Run>
      requires Valid()
      reads this
    {
      Touch(runs, retries, now, map[id := ev])
    }

    method ClaimRun(id: RunId, worker: WorkerId, now: Time) returns (r: Option<Run>)
      requires Valid()
      modifies this`runs
      ensures Valid()
      ensures r.Some? <==> id in old(runs) && Admits(old(runs)[id], now, Claimed(worker))
      ensures r.Some? ==> runs == old(Written(id, now, Claimed(worker))) && runs[id] == r.value
      ensures r.None? ==> runs == old(runs)
    {
      if id !in runs || !runs[id].status.Queued? || !BackoffOver(runs[id], now) {
        return None;
      }
      var row := runs[id].(status := Running, workerId := Some(worker), startedAt := Some(now),
                           lastHeartbeatAt := Some(now), finishedAt := None, nextAttemptAt := None);
      runs := runs[id := row];
      return Some(row);
    }

    method Heartbeat(id: RunId, worker: WorkerId, attempt: nat, now: Time) returns (ok: bool)
      requires Valid()
      modifies this`runs
      ensures Valid()
      ensures ok <==> id in old(runs) && Owns(old(runs)[id], worker, attempt)
      ensures runs == if ok then old(Written(id, now, Beat)) else old(runs)
    {
      ok := id in runs && Owns(runs[id], worker, attempt);
      if ok {
        runs := runs[id := runs[id].(lastHeartbeatAt := Some(now))];
      }
    }

    method FinishRun(id: RunId, worker: WorkerId, attempt: nat, status: Status,
                     output: Option<string>, errMsg: Option<string>, now: Time) returns (ok: bool)
      requires Valid()
      modifies this`runs
      ensures Valid()
      ensures ok <==> id in old(runs) && Owns(old(runs)[id], worker, attempt)
      ensures runs == if ok then old(Written(id, now, Finished(status, output, errMsg))) else old(runs)
    {
      ok := id in runs && Owns(runs[id], worker, attempt);
      if ok {
        runs := runs[id := runs[id].(status := status, output := output, error := errMsg,
                                     finishedAt := Some(now))];
      }
    }

    method ReleaseRun(id: RunId, worker: WorkerId, attempt: nat, reason: string, now: Time) returns (ok: bool)
      requires Valid()
      modifies this`runs
      ensures Valid()
      ensures ok <==> id in old(runs) && Owns(old(runs)[id], worker, attempt)
      ensures runs == if ok then old(Written(id, now, Released(reason))) else old(runs)
    {
      ok := id in runs && Owns(runs[id], worker, attempt);
      if ok {
        var r := runs[id];
        runs := runs[id := r.(status := Queued, attempt := r.attempt + 1, workerId := None,
                              startedAt := None, lastHeartbeatAt := None, queuedAt := now,
                              error := Some(reason))];
      }
    }

    // FailOrRetry. None where it returns the empty status: the worker no longer owned the attempt.
    method FailOrRetry(id: RunId, worker: WorkerId, attempt: nat, errMsg: string, backoff: Time, now: Time)
        returns (status: Option<Status>)
      requires Valid()
      modifies this`runs
      ensures Valid()
      ensures status.Some? <==> id in old(runs) && Owns(old(runs)[id], worker, attempt)
      ensures status.Some? ==> runs == old(Written(id, now, FailedAttempt(errMsg, backoff)))
      ensures status.Some? ==> status.value == runs[id].status
      ensures status.Some? ==> status.value == if attempt > retries[old(runs)[id].jobId] then Failed else Queued
      ensures status.None? ==> runs == old(runs)
    {
      if id !in runs || !Owns(runs[id], worker, attempt) {
        return None;
      }
      var r := runs[id];
      var exhausted := r.attempt > retries[r.jobId];
      var row := r.(
        status := if exhausted then Failed else Queued,
        attempt := if exhausted then r.attempt else r.attempt + 1,
        error := Some(errMsg),
        finishedAt := if exhausted then Some(now) else None,
        nextAttemptAt := if exhausted then None else Some(now + backoff),
        queuedAt := if exhausted then r.queuedAt else now,
        workerId := if exhausted then r.workerId else None,
        startedAt := if exhausted then r.startedAt else None,
        lastHeartbeatAt := if exhausted then r.lastHeartbeatAt else None);
      runs := runs[id := row];
      return Some(row.status);
    }

    method FailQueuedRun(id: RunId, reason: string, now: Time)
      requires Valid()
      modifies this`runs
      ensures Valid()
      ensures runs == if id in old(runs) && old(runs)[id].status.Queued?
                      then old(Written(id, now, FailedQueued(reason))) else old(runs)
    {
      if id in runs && runs[id].status.Queued? {
        runs := runs[id := runs[id].(status := Failed, error := Some(reason), finishedAt := Some(now))];
      }
    }

    // UPDATE ... FROM picked ... RETURNING: one row after another, though the
    // statement commits them together.
    method UpdateReturning(picked: seq<RunId>, ev: Event, now: Time) returns (out: seq<Redispatch>)
      requires Valid() && NoDup(picked)
      requires forall k | k in picked :: k in runs
      modifies this`runs
      ensures Valid()
      ensures runs == Touch(old(runs), retries, now, All(Elems(picked), ev))
      ensures |out| == |picked|
      ensures forall i | 0 <= i < |out| :: out[i] == AsRedispatch(picked[i], runs[picked[i]])
    {
      ghost var before := runs;
      out := [];
      var i := 0;
      while i < |picked|
        invariant 0 <= i <= |picked|
        invariant runs == Touch(before, retries, now, All(Elems(picked[..i]), ev))
        invariant |out| == i
        invariant forall j | 0 <= j < i :: out[j] == AsRedispatch(picked[j], runs[picked[j]])
      {
        var id := picked[i];
        assert Elems(picked[..i + 1]) == Elems(picked[..i]) + {id};
        TouchOneMore(before, retries, now, Elems(picked[..i]), id, ev);
        var row := After(runs[id], retries[runs[id].jobId], now, ev);
        runs := runs[id := row];
        out := out + [AsRedispatch(id, row)];
        i := i + 1;
      }
      assert picked[..|picked|] == picked;
      TouchKeepsKeys(before, retries, now, All(Elems(picked), ev));
    }

    // `locked` are the rows other transactions hold, which SKIP LOCKED passes over.
    method ReapStale(staleAfter: Time, limit: nat, locked: set<RunId>, now: Time) returns (out: seq<Redispatch>)
      requires Valid()
      modifies this`runs
      ensures Valid()
      ensures Maintains(old(runs), runs, retries, now, StaleKeys(old(runs), now, staleAfter), locked, limit, Reaped, out)
    {
      var cands := StaleKeys(runs, now, staleAfter);
      var picked := PickOldest(cands, locked, limit);
      out := UpdateReturning(picked, Reaped, now);
      MaintainsPicked(old(runs), runs, retries, now, cands, locked, limit, Reaped, picked, out);
    }

    method DueRetries(limit: nat, locked: set<RunId>, now: Time) returns (out: seq<Redispatch>)
      requires Valid()
      modifies this`runs
      ensures Valid()
      ensures Maintains(old(runs), runs, retries, now, DueKeys(old(runs), now), locked, limit, DueReturned, out)
    {
      var cands := DueKeys(runs, now);
      var picked := PickOldest(cands, locked, limit);
      out := UpdateReturning(picked, DueReturned, now);
      MaintainsPicked(old(runs), runs, retries, now, cands, locked, limit, DueReturned, picked, out);
    }

    method SweepQueued(olderThan: Time, limit: nat, locked: set<RunId>, now: Time) returns (out: seq<Redispatch>)
      requires Valid()
      modifies this`runs
      ensures Valid()
      ensures Maintains(old(runs), runs, retries, now, StuckKeys(old(runs), now, olderThan), locked, limit, Swept, out)
    {
      var cands := StuckKeys(runs, now, olderThan);
      var picked := PickOldest(cands, locked, limit);
      out := UpdateReturning(picked, Swept, now);
      MaintainsPicked(old(runs), runs, retries, now, cands, locked, limit, Swept, picked, out);
    }
  }
}
