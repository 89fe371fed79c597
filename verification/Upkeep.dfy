// What a worker's maintenance pass owes the runs, in terms of their rows before and
// after: the oldest stale, overdue and idle runs, as many as a batch takes.
module Upkeep {
  import opened Basics
  import opened Rows
  import opened Picking
  import opened Store

  // RUNNING without a sign of life since `before`, by their last one.
  function SilentRuns(runs: map<RunId, Run>, before: Time): map<RunId, Time> {
    map id | id in runs && runs[id].status.Running? && runs[id].lastHeartbeatAt.Some? && runs[id].lastHeartbeatAt.value < before ::
      runs[id].lastHeartbeatAt.value
  }

  // QUEUED retries whose time has come.
  function OwedRetries(runs: map<RunId, Run>, now: Time): map<RunId, Time> {
    map id | id in runs && runs[id].status.Queued? && runs[id].nextAttemptAt.Some? && runs[id].nextAttemptAt.value <= now ::
      runs[id].nextAttemptAt.value
  }

  // QUEUED since before `before`, with no backoff left.
  function IdleRuns(runs: map<RunId, Run>, before: Time, now: Time): map<RunId, Time> {
    map id | id in runs && runs[id].status.Queued? && runs[id].queuedAt < before
             && (runs[id].nextAttemptAt.Some? ==> runs[id].nextAttemptAt.value <= now) ::
      runs[id].queuedAt
  }

  // All of them, or a batch of the oldest.
  ghost predicate OldestBatch(all: map<RunId, Time>, done: set<RunId>, batch: nat) {
    && done <= all.Keys
    && |done| == (if |all| < batch then |all| else batch)
    && forall a, b | a in done && b in all && b !in done :: all[a] <= all[b]
  }

  function NotYounger(all: map<RunId, Time>, done: set<RunId>, b: RunId): set<RunId>
    requires b in all && done <= all.Keys
  {
    set a | a in done && all[a] <= all[b]
  }

  // Any that is left stands behind a whole batch at least as old.
  ghost predicate InTurn(all: map<RunId, Time>, done: set<RunId>, batch: nat) {
    && done <= all.Keys
    && forall b | b in all && b !in done :: |NotYounger(all, done, b)| >= batch
  }

  // With no more than a batch of them, that is all.
  lemma AllInOneBatch(all: map<RunId, Time>, done: set<RunId>, batch: nat)
    requires |all| <= batch
    ensures OldestBatch(all, done, batch) ==> done == all.Keys
    ensures InTurn(all, done, batch) ==> done == all.Keys
  {
    if done <= all.Keys && done != all.Keys {
      SubsetSize(done, all.Keys);
      assert all.Keys <= (all.Keys - done) + done;
      var b :| b in all.Keys - done;
      SubsetSize(NotYounger(all, done, b), done);
    }
  }

  lemma PicksAreOldest(all: map<RunId, Time>, batch: nat, picked: set<RunId>)
    requires Picks(all, {}, batch, picked)
    ensures OldestBatch(all, picked, batch)
  {
    assert all.Keys - {} == all.Keys;
    SubsetSize(picked, all.Keys);
  }

  // ---- One pass ----

  // One statement of the pass: whether it took effect, and the rows it picked.
  datatype Statement = Statement(now: Time, locked: set<RunId>, reached: bool, picked: set<RunId>)

  ghost predicate Upholds(runs: map<RunId, Run>, runs': map<RunId, Run>, retries: map<JobId, nat>,
                          cands: map<RunId, Time>, batch: nat, st: Statement, ev: Event) {
    && JobsKnown(runs, retries)
    && (if st.reached then Picks(cands, st.locked, batch, st.picked) else st.picked == {})
    && runs' == Touch(runs, retries, st.now, All(st.picked, ev))
  }

  // Reap, return due retries, sweep: the three tables in between.
  ghost predicate IsPass(runs: map<RunId, Run>, reaped: map<RunId, Run>, returned: map<RunId, Run>, swept: map<RunId, Run>,
                         retries: map<JobId, nat>, staleAfter: Time, sweepAfter: Time, batch: nat,
                         reap: Statement, due: Statement, sweep: Statement) {
    && Upholds(runs, reaped, retries, StaleKeys(runs, reap.now, staleAfter), batch, reap, Reaped)
    && Upholds(reaped, returned, retries, DueKeys(reaped, due.now), batch, due, DueReturned)
    && Upholds(returned, swept, retries, StuckKeys(returned, sweep.now, sweepAfter), batch, sweep, Swept)
  }

  // What holds of reachable rows: an owned run waits for nothing, and none was
  // queued in the future.
  ghost predicate Settled(runs: map<RunId, Run>, now: Time) {
    forall id | id in runs ::
      runs[id].queuedAt <= now && (runs[id].status.Running? ==> runs[id].nextAttemptAt.None?)
  }

  // Row by row.
  ghost predicate Changes(runs: map<RunId, Run>, runs': map<RunId, Run>, retries: map<JobId, nat>, st: Statement, ev: Event) {
    && runs'.Keys == runs.Keys && JobsKnown(runs, retries)
    && forall id | id in runs ::
         runs'[id] == if id in st.picked then After(runs[id], retries[runs[id].jobId], st.now, ev) else runs[id]
  }

  lemma UpholdsByRow(runs: map<RunId, Run>, runs': map<RunId, Run>, retries: map<JobId, nat>,
                     cands: map<RunId, Time>, batch: nat, st: Statement, ev: Event)
    requires Upholds(runs, runs', retries, cands, batch, st, ev)
    ensures Changes(runs, runs', retries, st, ev) && st.picked <= cands.Keys
    ensures st.reached && st.locked == {} ==> OldestBatch(cands, st.picked, batch)
  {
    hide After;
    if st.reached && st.locked == {} {
      PicksAreOldest(cands, batch, st.picked);
    }
  }

  lemma PassByRow(runs: map<RunId, Run>, reaped: map<RunId, Run>, returned: map<RunId, Run>, swept: map<RunId, Run>,
                  retries: map<JobId, nat>, staleAfter: Time, sweepAfter: Time, batch: nat,
                  reap: Statement, due: Statement, sweep: Statement)
    requires IsPass(runs, reaped, returned, swept, retries, staleAfter, sweepAfter, batch, reap, due, sweep)
    ensures Changes(runs, reaped, retries, reap, Reaped) && reap.picked <= StaleKeys(runs, reap.now, staleAfter).Keys
    ensures Changes(reaped, returned, retries, due, DueReturned) && due.picked <= DueKeys(reaped, due.now).Keys
    ensures Changes(returned, swept, retries, sweep, Swept) && sweep.picked <= StuckKeys(returned, sweep.now, sweepAfter).Keys
    ensures reap.reached && reap.locked == {} ==> OldestBatch(StaleKeys(runs, reap.now, staleAfter), reap.picked, batch)
    ensures due.reached && due.locked == {} ==> OldestBatch(DueKeys(reaped, due.now), due.picked, batch)
    ensures sweep.reached && sweep.locked == {} ==> OldestBatch(StuckKeys(returned, sweep.now, sweepAfter), sweep.picked, batch)
  {
    hide Upholds, Changes, OldestBatch, StaleKeys, DueKeys, StuckKeys;
    UpholdsByRow(runs, reaped, retries, StaleKeys(runs, reap.now, staleAfter), batch, reap, Reaped);
    UpholdsByRow(reaped, returned, retries, DueKeys(reaped, due.now), batch, due, DueReturned);
    UpholdsByRow(returned, swept, retries, StuckKeys(returned, sweep.now, sweepAfter), batch, sweep, Swept);
  }

  lemma RowReaped(r: Run, maxRetries: nat, now: Time)
    ensures var r' := After(r, maxRetries, now, Reaped);
            && r'.jobId == r.jobId
            && (if r.attempt > maxRetries then r'.status.Failed? && r'.attempt == r.attempt && r'.queuedAt == r.queuedAt
                else r'.status.Queued? && r'.attempt == r.attempt + 1 && r'.workerId.None? && r'.queuedAt == now)
            && r'.nextAttemptAt == r.nextAttemptAt
  {
  }

  lemma RowReturned(r: Run, maxRetries: nat, now: Time)
    ensures After(r, maxRetries, now, DueReturned) == r.(nextAttemptAt := None, queuedAt := now)
    ensures After(r, maxRetries, now, Swept) == r.(queuedAt := now)
  {
  }

  // What becomes of one row in a pass.
  ghost predicate RowPasses(r: Run, reaped: Run, returned: Run, swept: Run, maxRetries: nat,
                            id: RunId, reap: Statement, due: Statement, sweep: Statement) {
    && (if id in reap.picked then
          && reaped.nextAttemptAt == r.nextAttemptAt
          && (if r.attempt > maxRetries then reaped.status.Failed? && reaped.attempt == r.attempt && reaped.queuedAt == r.queuedAt
              else reaped.status.Queued? && reaped.attempt == r.attempt + 1 && reaped.workerId.None? && reaped.queuedAt == reap.now)
        else reaped == r)
    && returned == (if id in due.picked then reaped.(nextAttemptAt := None, queuedAt := due.now) else reaped)
    && swept == (if id in sweep.picked then returned.(queuedAt := sweep.now) else returned)
  }

  lemma RowPass(runs: map<RunId, Run>, reaped: map<RunId, Run>, returned: map<RunId, Run>, swept: map<RunId, Run>,
                retries: map<JobId, nat>, reap: Statement, due: Statement, sweep: Statement, id: RunId)
    requires Changes(runs, reaped, retries, reap, Reaped)
    requires Changes(reaped, returned, retries, due, DueReturned) && Changes(returned, swept, retries, sweep, Swept)
    requires id in runs
    ensures id in reaped && id in returned && id in swept && runs[id].jobId in retries
    ensures RowPasses(runs[id], reaped[id], returned[id], swept[id], retries[runs[id].jobId], id, reap, due, sweep)
  {
    hide After;
    var maxRetries := retries[runs[id].jobId];
    RowReaped(runs[id], maxRetries, reap.now);
    RowReturned(reaped[id], maxRetries, due.now);
    RowReturned(returned[id], maxRetries, sweep.now);
  }

  ghost predicate RowsPass(runs: map<RunId, Run>, reaped: map<RunId, Run>, returned: map<RunId, Run>, swept: map<RunId, Run>,
                           retries: map<JobId, nat>, reap: Statement, due: Statement, sweep: Statement) {
    && runs.Keys == reaped.Keys == returned.Keys == swept.Keys && JobsKnown(runs, retries)
    && forall id | id in runs ::
         RowPasses(runs[id], reaped[id], returned[id], swept[id], retries[runs[id].jobId], id, reap, due, sweep)
  }

  lemma AllRowsPass(runs: map<RunId, Run>, reaped: map<RunId, Run>, returned: map<RunId, Run>, swept: map<RunId, Run>,
                    retries: map<JobId, nat>, reap: Statement, due: Statement, sweep: Statement)
    requires Changes(runs, reaped, retries, reap, Reaped)
    requires Changes(reaped, returned, retries, due, DueReturned) && Changes(returned, swept, retries, sweep, Swept)
    ensures RowsPass(runs, reaped, returned, swept, retries, reap, due, sweep)
  {
    hide After, RowPasses;
    forall id | id in runs
      ensures RowPasses(runs[id], reaped[id], returned[id], swept[id], retries[runs[id].jobId], id, reap, due, sweep)
    {
      RowPass(runs, reaped, returned, swept, retries, reap, due, sweep, id);
    }
  }

  // The runs a pass took from the workers that had them.
  function TakenBack(all: map<RunId, Time>, runs: map<RunId, Run>, runs': map<RunId, Run>): set<RunId> {
    set id | id in all && id in runs && id in runs' && !(runs'[id].status.Running? && runs'[id].attempt == runs[id].attempt)
  }

  // Runs silent since `before` and taken back go to their next attempt, or fail for
  // good; a statement that is not hindered takes the oldest.
  ghost predicate Reaps(runs: map<RunId, Run>, runs': map<RunId, Run>, retries: map<JobId, nat>, before: Time, batch: Option<nat>) {
    && runs.Keys == runs'.Keys && JobsKnown(runs, retries)
    && var stale := SilentRuns(runs, before);
    var taken := TakenBack(stale, runs, runs');
    && (batch.Some? ==> OldestBatch(stale, taken, batch.value))
    && forall id | id in taken ::
         var r, r' := runs[id], runs'[id];
         if r.attempt > retries[r.jobId] then r'.status.Failed? && r'.attempt == r.attempt
         else r'.status.Queued? && r'.attempt == r.attempt + 1 && r'.workerId.None?
  }

  lemma SilentIsTaken(r: Run, reaped: Run, returned: Run, swept: Run, maxRetries: nat,
                      id: RunId, reap: Statement, due: Statement, sweep: Statement)
    requires RowPasses(r, reaped, returned, swept, maxRetries, id, reap, due, sweep) && r.status.Running?
    ensures if id !in reap.picked then swept.status.Running? && swept.attempt == r.attempt && (reaped == r)
            else if r.attempt > maxRetries then swept.status.Failed? && swept.attempt == r.attempt && reaped.status.Failed?
            else swept.status.Queued? && swept.attempt == r.attempt + 1 && swept.workerId.None? && reaped.status.Queued?
  {
  }

  lemma SilentAreTaken(runs: map<RunId, Run>, reaped: map<RunId, Run>, returned: map<RunId, Run>, swept: map<RunId, Run>,
                       retries: map<JobId, nat>, staleAfter: Time, reap: Statement, due: Statement, sweep: Statement)
    requires RowsPass(runs, reaped, returned, swept, retries, reap, due, sweep)
    requires reap.picked <= StaleKeys(runs, reap.now, staleAfter).Keys
    ensures var stale := SilentRuns(runs, reap.now - staleAfter);
            && stale == StaleKeys(runs, reap.now, staleAfter) && TakenBack(stale, runs, swept) == reap.picked
    ensures Reaps(runs, swept, retries, reap.now - staleAfter, None)
    ensures forall id | id in reap.picked && id in swept && swept[id].status.Queued? :: id in reaped && reaped[id].status.Queued?
  {
    hide RowPasses;
    forall id | id in runs && runs[id].status.Running?
      ensures var r, maxRetries := runs[id], retries[runs[id].jobId];
              if id !in reap.picked then swept[id].status.Running? && swept[id].attempt == r.attempt
              else if r.attempt > maxRetries then swept[id].status.Failed? && swept[id].attempt == r.attempt
              else swept[id].status.Queued? && swept[id].attempt == r.attempt + 1 && swept[id].workerId.None? && reaped[id].status.Queued?
    {
      SilentIsTaken(runs[id], reaped[id], returned[id], swept[id], retries[runs[id].jobId], id, reap, due, sweep);
    }
    var stale := SilentRuns(runs, reap.now - staleAfter);
    assert stale == StaleKeys(runs, reap.now, staleAfter);
    assert TakenBack(stale, runs, swept) == reap.picked;
  }

  lemma ReturnedAreQueued(runs: map<RunId, Run>, reaped: map<RunId, Run>, returned: map<RunId, Run>, swept: map<RunId, Run>,
                          retries: map<JobId, nat>, reap: Statement, due: Statement, sweep: Statement)
    requires RowsPass(runs, reaped, returned, swept, retries, reap, due, sweep) && due.picked <= DueKeys(reaped, due.now).Keys
    ensures forall id | id in due.picked :: id in returned && returned[id].status.Queued?
  {
  }

  lemma PassReaps(runs: map<RunId, Run>, reaped: map<RunId, Run>, returned: map<RunId, Run>, swept: map<RunId, Run>,
                  retries: map<JobId, nat>, staleAfter: Time, sweepAfter: Time, batch: nat,
                  reap: Statement, due: Statement, sweep: Statement)
    requires IsPass(runs, reaped, returned, swept, retries, staleAfter, sweepAfter, batch, reap, due, sweep)
    ensures Reaps(runs, swept, retries, reap.now - staleAfter, if reap.reached && reap.locked == {} then Some(batch) else None)
    ensures TakenBack(SilentRuns(runs, reap.now - staleAfter), runs, swept) == reap.picked
    ensures forall id | id in reap.picked && id in swept && swept[id].status.Queued? :: id in reaped && reaped[id].status.Queued?
    ensures forall id | id in due.picked :: id in returned && returned[id].status.Queued?
  {
    hide Changes, OldestBatch, IsPass, RowsPass, StaleKeys, DueKeys, StuckKeys, SilentRuns;
    PassByRow(runs, reaped, returned, swept, retries, staleAfter, sweepAfter, batch, reap, due, sweep);
    AllRowsPass(runs, reaped, returned, swept, retries, reap, due, sweep);
    SilentAreTaken(runs, reaped, returned, swept, retries, staleAfter, reap, due, sweep);
    ReturnedAreQueued(runs, reaped, returned, swept, retries, reap, due, sweep);
  }

  // The retries a pass stopped holding back.
  function LetGo(all: map<RunId, Time>, runs': map<RunId, Run>): set<RunId> {
    set id | id in all && id in runs' && runs'[id].nextAttemptAt.None?
  }

  // Retries due at `now` and let go are in the queue anew; a statement that is not
  // hindered lets the longest overdue go.
  ghost predicate Returns(runs: map<RunId, Run>, runs': map<RunId, Run>, now: Time, later: Time, batch: Option<nat>) {
    && runs.Keys == runs'.Keys
    && var owed := OwedRetries(runs, now);
    var gone := LetGo(owed, runs');
    && (batch.Some? ==> OldestBatch(owed, gone, batch.value))
    && forall id | id in gone ::
         && runs'[id].status.Queued? && runs'[id].attempt == runs[id].attempt
         && (runs'[id].queuedAt == now || runs'[id].queuedAt == later)
  }

  lemma OwedIsDue(r: Run, reaped: Run, returned: Run, swept: Run, maxRetries: nat,
                  id: RunId, reap: Statement, due: Statement, sweep: Statement)
    requires RowPasses(r, reaped, returned, swept, maxRetries, id, reap, due, sweep)
    requires id in reap.picked ==> r.nextAttemptAt.None? && r.status.Running?
    ensures r.status.Queued? && r.nextAttemptAt.Some? ==> reaped == r
    ensures reaped.status.Queued? && reaped.nextAttemptAt.Some? ==> reaped == r
    ensures reaped == r && r.status.Queued? ==>
              && swept.status.Queued? && swept.attempt == r.attempt
              && swept.nextAttemptAt == (if id in due.picked then None else r.nextAttemptAt)
              && (id in due.picked ==> swept.queuedAt == due.now || swept.queuedAt == sweep.now)
  {
  }

  lemma OwedAreDue(runs: map<RunId, Run>, reaped: map<RunId, Run>, returned: map<RunId, Run>, swept: map<RunId, Run>,
                   retries: map<JobId, nat>, staleAfter: Time, reap: Statement, due: Statement, sweep: Statement)
    requires RowsPass(runs, reaped, returned, swept, retries, reap, due, sweep) && Settled(runs, reap.now)
    requires reap.picked <= StaleKeys(runs, reap.now, staleAfter).Keys
    ensures runs.Keys == swept.Keys && OwedRetries(runs, due.now) == DueKeys(reaped, due.now)
    ensures forall id | id in OwedRetries(runs, due.now) ::
              && swept[id].status.Queued? && swept[id].attempt == runs[id].attempt
              && (swept[id].nextAttemptAt.None? <==> id in due.picked)
              && (id in due.picked ==> swept[id].queuedAt == due.now || swept[id].queuedAt == sweep.now)
  {
    hide RowPasses;
    forall id | id in runs
      ensures runs[id].status.Queued? && runs[id].nextAttemptAt.Some? ==> reaped[id] == runs[id]
      ensures reaped[id].status.Queued? && reaped[id].nextAttemptAt.Some? ==> reaped[id] == runs[id]
      ensures reaped[id] == runs[id] && runs[id].status.Queued? ==>
                && swept[id].status.Queued? && swept[id].attempt == runs[id].attempt
                && swept[id].nextAttemptAt == (if id in due.picked then None else runs[id].nextAttemptAt)
                && (id in due.picked ==> swept[id].queuedAt == due.now || swept[id].queuedAt == sweep.now)
    {
      OwedIsDue(runs[id], reaped[id], returned[id], swept[id], retries[runs[id].jobId], id, reap, due, sweep);
    }
  }

  lemma PassReturns(runs: map<RunId, Run>, reaped: map<RunId, Run>, returned: map<RunId, Run>, swept: map<RunId, Run>,
                    retries: map<JobId, nat>, staleAfter: Time, sweepAfter: Time, batch: nat,
                    reap: Statement, due: Statement, sweep: Statement)
    requires IsPass(runs, reaped, returned, swept, retries, staleAfter, sweepAfter, batch, reap, due, sweep)
    requires Settled(runs, reap.now)
    ensures Returns(runs, swept, due.now, sweep.now, if due.reached && due.locked == {} then Some(batch) else None)
    ensures LetGo(OwedRetries(runs, due.now), swept) == due.picked
  {
    hide Changes, OldestBatch, IsPass, RowPasses;
    PassByRow(runs, reaped, returned, swept, retries, staleAfter, sweepAfter, batch, reap, due, sweep);
    AllRowsPass(runs, reaped, returned, swept, retries, reap, due, sweep);
    OwedAreDue(runs, reaped, returned, swept, retries, staleAfter, reap, due, sweep);
    hide RowsPass, DueKeys, StaleKeys, StuckKeys, Settled;
    assert LetGo(OwedRetries(runs, due.now), swept) == due.picked;
  }

  // The idle runs a pass gave a new place in the queue.
  function Refreshed(all: map<RunId, Time>, runs': map<RunId, Run>): set<RunId> {
    set id | id in all && id in runs' && runs'[id].queuedAt > all[id]
  }

  // Runs idle for longer than sweepAfter keep their attempt and get a new place in
  // the queue; a statement that is not hindered passes none over but for older ones.
  ghost predicate Sweeps(runs: map<RunId, Run>, runs': map<RunId, Run>, returned: Time, now: Time, sweepAfter: Time, batch: Option<nat>) {
    && runs.Keys == runs'.Keys
    && var idle := IdleRuns(runs, now - sweepAfter, now);
    var renewed := Refreshed(idle, runs');
    && (batch.Some? ==> InTurn(idle, renewed, batch.value))
    && forall id | id in renewed ::
         && runs'[id].status.Queued? && runs'[id].attempt == runs[id].attempt
         && (runs'[id].queuedAt == returned || runs'[id].queuedAt == now)
  }

  // A row the sweep may pick is one the pass had not touched before.
  lemma StuckIsUntouched(r: Run, reaped: Run, returned: Run, swept: Run, maxRetries: nat,
                         id: RunId, reap: Statement, due: Statement, sweep: Statement, before: Time)
    requires RowPasses(r, reaped, returned, swept, maxRetries, id, reap, due, sweep)
    requires (id in reap.picked ==> r.status.Running?) && (id in due.picked ==> reaped.status.Queued?)
    requires before <= reap.now <= due.now <= sweep.now
    ensures returned.status.Queued? && returned.queuedAt < before ==> r == returned
    ensures r.status.Queued? && r.queuedAt < before ==>
              && swept.status.Queued? && swept.attempt == r.attempt
              && (if id in sweep.picked then swept.queuedAt == sweep.now
                  else if id in due.picked then swept.queuedAt == due.now else swept == r)
  {
  }

  // The rows the sweep may pick are idle runs the pass had not touched; of the
  // others, those it returned have a new place in the queue already.
  lemma StuckAreIdle(runs: map<RunId, Run>, reaped: map<RunId, Run>, returned: map<RunId, Run>, swept: map<RunId, Run>,
                     retries: map<JobId, nat>, staleAfter: Time, sweepAfter: Time, reap: Statement, due: Statement, sweep: Statement)
    requires RowsPass(runs, reaped, returned, swept, retries, reap, due, sweep)
    requires reap.picked <= StaleKeys(runs, reap.now, staleAfter).Keys && due.picked <= DueKeys(reaped, due.now).Keys
    requires reap.now <= due.now <= sweep.now && sweep.now - sweepAfter <= reap.now
    ensures var idle, stuck := IdleRuns(runs, sweep.now - sweepAfter, sweep.now), StuckKeys(returned, sweep.now, sweepAfter);
            && idle.Keys <= runs.Keys == swept.Keys
            && (forall id | id in stuck :: id in idle && idle[id] == stuck[id])
            && (forall id | id in idle && id !in due.picked :: id in stuck)
            && forall id | id in idle ::
                 && swept[id].status.Queued? && swept[id].attempt == runs[id].attempt && idle[id] == runs[id].queuedAt < reap.now
                 && (if id in sweep.picked then swept[id].queuedAt == sweep.now
                     else if id in due.picked then swept[id].queuedAt == due.now else swept[id] == runs[id])
  {
    hide RowPasses;
    var before := sweep.now - sweepAfter;
    forall id | id in runs
      ensures returned[id].status.Queued? && returned[id].queuedAt < before ==> runs[id] == returned[id]
      ensures runs[id].status.Queued? && runs[id].queuedAt < before ==>
                && swept[id].status.Queued? && swept[id].attempt == runs[id].attempt
                && (if id in sweep.picked then swept[id].queuedAt == sweep.now
                    else if id in due.picked then swept[id].queuedAt == due.now else swept[id] == runs[id])
      ensures id in reap.picked ==> !runs[id].status.Queued?
      ensures id !in reap.picked && id !in due.picked ==> returned[id] == runs[id]
    {
      StuckIsUntouched(runs[id], reaped[id], returned[id], swept[id], retries[runs[id].jobId], id, reap, due, sweep, before);
      Untouched(runs[id], reaped[id], returned[id], swept[id], retries[runs[id].jobId], id, reap, due, sweep);
    }
  }

  lemma Untouched(r: Run, reaped: Run, returned: Run, swept: Run, maxRetries: nat,
                  id: RunId, reap: Statement, due: Statement, sweep: Statement)
    requires RowPasses(r, reaped, returned, swept, maxRetries, id, reap, due, sweep)
    ensures id !in reap.picked && id !in due.picked ==> returned == r
  {
  }

  lemma NonePassedOver(all: map<RunId, Time>, some: map<RunId, Time>, done: set<RunId>, picked: set<RunId>, batch: nat)
    requires OldestBatch(some, picked, batch) && picked <= done <= all.Keys
    requires forall id | id in some :: id in all && all[id] == some[id]
    requires forall id | id in all && id !in done :: id in some
    ensures InTurn(all, done, batch)
  {
    forall b | b in all && b !in done ensures |NotYounger(all, done, b)| >= batch {
      SubsetSize(picked, some.Keys - {b});
      SubsetSize(picked, NotYounger(all, done, b));
    }
  }

  // Nothing the pass itself queues is idle by the time it sweeps.
  lemma PassSweeps(runs: map<RunId, Run>, reaped: map<RunId, Run>, returned: map<RunId, Run>, swept: map<RunId, Run>,
                   retries: map<JobId, nat>, staleAfter: Time, sweepAfter: Time, batch: nat,
                   reap: Statement, due: Statement, sweep: Statement)
    requires IsPass(runs, reaped, returned, swept, retries, staleAfter, sweepAfter, batch, reap, due, sweep)
    requires reap.now <= due.now <= sweep.now && sweep.now - sweepAfter <= reap.now && sweepAfter >= 0
    ensures Sweeps(runs, swept, due.now, sweep.now, sweepAfter, if sweep.reached && sweep.locked == {} then Some(batch) else None)
    ensures Refreshed(IdleRuns(runs, sweep.now - sweepAfter, sweep.now), swept) <= due.picked + sweep.picked
  {
    hide Changes, IsPass, StuckKeys, IdleRuns, RowsPass, StaleKeys, DueKeys;
    PassByRow(runs, reaped, returned, swept, retries, staleAfter, sweepAfter, batch, reap, due, sweep);
    AllRowsPass(runs, reaped, returned, swept, retries, reap, due, sweep);
    StuckAreIdle(runs, reaped, returned, swept, retries, staleAfter, sweepAfter, reap, due, sweep);
    var stuck := StuckKeys(returned, sweep.now, sweepAfter);
    var idle := IdleRuns(runs, sweep.now - sweepAfter, sweep.now);
    var renewed := Refreshed(idle, swept);
    assert sweep.picked <= renewed;
    hide Refreshed, OldestBatch, InTurn;
    if sweep.reached && sweep.locked == {} {
      NonePassedOver(idle, stuck, renewed, sweep.picked, batch);
    }
  }
}
