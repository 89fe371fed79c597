// What holds of every run of the system: ownership, fencing, accounting, backoff.
module Safety {
  import opened Basics
  import opened Rows
  import opened History
  import opened Backoff
  import opened Protocol

  // ---- One attempt at a time ----

  // The attempt numbers of the claims a history records.
  ghost function Claims(h: seq<Entry>): seq<nat> {
    if h == [] then []
    else Claims(h[..|h| - 1]) + if h[|h| - 1].ev.Claimed? then [h[|h| - 1].attempt] else []
  }

  lemma {:induction false} ClaimsAreTenures(h: seq<Entry>)
    ensures |Claims(h)| == |Tenures(h)|
    ensures forall i | 0 <= i < |Claims(h)| :: Claims(h)[i] == Tenures(h)[i].attempt
  {
    if h != [] {
      ClaimsAreTenures(h[..|h| - 1]);
    }
  }

  lemma {:induction false} SerialIsDisjoint(ts: seq<Tenure>, now: Time, i: nat, j: nat)
    requires Serial(ts, now) && i < j < |ts|
    ensures ts[i].until.Some? && ts[i].until.value <= ts[j].from
    decreases j - i
  {
    if i + 1 < j {
      SerialIsDisjoint(ts, now, i + 1, j);
    }
  }

  // The claims are attempts 1..n, each once; no two ownership intervals overlap;
  // the last is still open exactly while the run is RUNNING.
  ghost predicate ClaimsInOrder(r: Run, h: seq<Entry>, n: int) {
    var ts := Tenures(h);
    && |Claims(h)| == |ts| == n
    && (forall i | 0 <= i < n :: Claims(h)[i] == i + 1 && ts[i].attempt == i + 1)
    && (forall i, j | 0 <= i < j < n :: ts[i].until.Some? && ts[i].until.value <= ts[j].from)
    && (r.status.Running? <==> n > 0 && ts[n - 1].until.None?)
  }

  lemma InOrderNow(r: Run, h: seq<Entry>, now: Time)
    requires OneAtATime(r, Tenures(h), now)
    ensures ClaimsInOrder(r, h, Started(r))
  {
    ClaimsAreTenures(h);
    var ts := Tenures(h);
    forall i, j | 0 <= i < j < |ts| ensures ts[i].until.Some? && ts[i].until.value <= ts[j].from {
      SerialIsDisjoint(ts, now, i, j);
    }
  }

  // What every reachable state knows about each of its runs.
  lemma Reached(c: Config, s0: System, steps: seq<Step>, id: RunId)
    requires c.Valid() && Initial(s0) && Legal(c, s0, steps)
    requires id in Play(c, s0, steps).runs || id in Play(c, s0, steps).hist
    ensures WellFormed(Play(c, s0, steps)) && id in Play(c, s0, steps).runs && FaithfulAt(c, Play(c, s0, steps), id)
  {
    hide Legal, Play, FaithfulAt, JobsKnown;
    Always(c, s0, steps);
  }

  // In every reachable state, n being the current attempt, less one if it was
  // never started.
  lemma OneAttemptAtATime(c: Config, s0: System, steps: seq<Step>, id: RunId)
    requires c.Valid() && Initial(s0) && Legal(c, s0, steps) && id in Play(c, s0, steps).runs
    ensures var s := Play(c, s0, steps);
            && id in s.hist
            && var r := s.runs[id];
            ClaimsInOrder(r, s.hist[id].entries, if r.status.Queued? || FailedUnstarted(r) then r.attempt - 1 else r.attempt)
  {
    hide Legal, Play, FaithfulAt, ClaimsInOrder, OneAtATime;
    Reached(c, s0, steps, id);
    var s := Play(c, s0, steps);
    KnownAt(c, s, id);
    InOrderNow(s.runs[id], s.hist[id].entries, s.now);
  }

  // What a reader of the row can tell apart: waiting, owned, or over, after n claims.
  datatype Ownership = Waiting(n: nat) | Owned(n: nat, owner: WorkerId) | Over(n: nat)

  function Seen(r: Run): Ownership {
    if r.status.Queued? then Waiting(Started(r))
    else if r.status.Running? && r.workerId.Some? then Owned(Started(r), r.workerId.value)
    else Over(Started(r))
  }

  // The simple machine the documentation describes: claim, then end or hand back.
  ghost predicate OwnershipStep(a: Ownership, b: Ownership) {
    || a == b
    || (a.Waiting? && b.Owned? && b.n == a.n + 1)
    || (a.Owned? && b.Waiting? && b.n == a.n)
    || (!a.Over? && b.Over? && b.n == a.n)
  }

  // Every step of the system is, for every run, a step of that machine.
  lemma StepRefinesOwnership(c: Config, s: System, step: Step, id: RunId)
    requires c.Valid() && Inv(c, s) && Enabled(c, s, step) && id in s.runs
    ensures id in Next(s, step).runs && OwnershipStep(Seen(s.runs[id]), Seen(Next(s, step).runs[id]))
  {
    hide Enabled, Next, Touched, FaithfulAt, OneAtATime, Accounted;
    StepOnRow(c, s, step, id);
    assert FaithfulAt(c, s, id);
    KnownAt(c, s, id);
  }

  lemma AppliedOnRow(s: System, who: Process, touched: map<RunId, Event>, id: RunId)
    requires WellFormed(s) && id in s.runs
    ensures var t := Applied(s, who, touched);
            && id in t.runs && id in t.hist
            && (id !in touched ==> t.runs[id] == s.runs[id] && t.hist[id] == s.hist[id])
            && (id in touched ==>
                 && t.runs[id] == After(s.runs[id], s.retries[s.runs[id].jobId], s.now, touched[id])
                 && t.hist[id] == s.hist[id].(entries := s.hist[id].entries + [EntryOf(s, id, who, touched[id])]))
  {
    hide After, EntryOf;
  }

  // A step's effect on the rows there are is that of its statement.
  lemma NextOnRow(c: Config, s: System, step: Step, id: RunId)
    requires WellFormed(s) && Enabled(c, s, step) && id in s.runs
    ensures var t, t' := Applied(s, Issuer(step), Touched(s, step)), Next(s, step);
            id in t.runs && id in t.hist && id in t'.runs && id in t'.hist && t'.runs[id] == t.runs[id] && t'.hist[id] == t.hist[id]
  {
    AppliedOnRow(s, Issuer(step), Touched(s, step), id);
    hide Applied, ToDispatch, Earned, After, EntryOf, WellFormed;
  }

  lemma TouchedIsAdmitted(c: Config, s: System, step: Step, id: RunId)
    requires WellFormed(s) && Enabled(c, s, step) && id in s.runs && id in Touched(s, step)
    ensures var ev := Touched(s, step)[id];
            Admits(s.runs[id], s.now, ev) && (ev.Finished? ==> ev.status.Succeeded?)
  {
    StepsAreTruthful(c, s, step);
    hide After, Touched, Enabled, Admits;
  }

  // A step leaves a row alone, or applies one admitted event to it.
  lemma StepOnRow(c: Config, s: System, step: Step, id: RunId)
    requires WellFormed(s) && Enabled(c, s, step) && id in s.runs
    ensures var s' := Next(s, step);
            && id in s'.runs && id in s'.hist
            && (id !in Touched(s, step) ==> s'.runs[id] == s.runs[id] && s'.hist[id] == s.hist[id])
            && (id in Touched(s, step) ==>
                 && var ev := Touched(s, step)[id];
                 && Admits(s.runs[id], s.now, ev)
                 && (ev.Finished? ==> ev.status.Succeeded?)
                 && s'.runs[id] == After(s.runs[id], s.retries[s.runs[id].jobId], s.now, ev)
                 && s'.hist[id] == s.hist[id].(entries := s.hist[id].entries + [EntryOf(s, id, Issuer(step), ev)]))
  {
    hide After, Enabled, Next, Touched, Applied, EntryOf, Admits;
    NextOnRow(c, s, step, id);
    AppliedOnRow(s, Issuer(step), Touched(s, step), id);
    if id in Touched(s, step) {
      TouchedIsAdmitted(c, s, step, id);
    }
  }

  // What no step changes: the jobs, which job a run belongs to, and, but for
  // the clock's own step, the clock.
  lemma StepFrame(c: Config, s: System, step: Step, id: RunId)
    requires WellFormed(s) && Enabled(c, s, step) && id in s.runs
    ensures var s' := Next(s, step);
            && s'.retries == s.retries
            && (!step.Tick? ==> s'.now == s.now)
            && id in s'.runs && s'.runs[id].jobId == s.runs[id].jobId
  {
    StepFields(s, step);
    hide After, Touched, Enabled, EntryOf, Next;
    StepOnRow(c, s, step, id);
    AfterKeepsJob(s.runs[id], s.retries[s.runs[id].jobId], s.now, Touched(s, step));
  }

  lemma StepFields(s: System, step: Step)
    requires WellFormed(s)
    ensures Next(s, step).retries == s.retries && (!step.Tick? ==> Next(s, step).now == s.now)
  {
    hide Touched, Applied, ToDispatch, Earned, WellFormed;
    AppliedFields(s, Issuer(step), Touched(s, step));
  }

  lemma AppliedFields(s: System, who: Process, touched: map<RunId, Event>)
    requires WellFormed(s)
    ensures Applied(s, who, touched).retries == s.retries && Applied(s, who, touched).now == s.now
  {
  }

  lemma AfterKeepsJob(r: Run, maxRetries: nat, now: Time, touched: map<RunId, Event>)
    ensures forall id | id in touched :: After(r, maxRetries, now, touched[id]).jobId == r.jobId
  {
  }

  // ---- Fencing ----

  // For a process holding a ticket, the attempt number alone decides the fence:
  // the worker_id test adds nothing, even if two workers share an ID.
  lemma AttemptAloneFences(c: Config, s: System, t: Ticket)
    requires Inv(c, s) && Backed(t, s.hist)
    ensures t.run in s.runs
    ensures var r := s.runs[t.run];
            && (Owns(r, t.owner.name, t.attempt) <==> r.status.Running? && r.attempt == t.attempt)
            && (Owns(r, t.owner.name, t.attempt) ==>
                 Tenures(s.hist[t.run].entries) != []
                 && Tenures(s.hist[t.run].entries)[|Tenures(s.hist[t.run].entries)| - 1].owner == t.owner)
  {
    hide FaithfulAt, Serial, Accounted, Tenures;
    assert FaithfulAt(c, s, t.run);
    KnownAt(c, s, t.run);
  }

  lemma OneClaimantPerAttempt(c: Config, s0: System, steps: seq<Step>, t: Ticket, u: Ticket)
    requires c.Valid() && Initial(s0) && Legal(c, s0, steps)
    requires t in Play(c, s0, steps).tickets && u in Play(c, s0, steps).tickets
    requires t.run == u.run && t.attempt == u.attempt
    ensures t.owner == u.owner
  {
    hide Legal, Play, FaithfulAt, Tenures;
    Always(c, s0, steps);
    var s := Play(c, s0, steps);
    assert Backed(t, s.hist) && Backed(u, s.hist);
  }

  // The attempt is over: the row has moved past it, or is terminal.
  predicate Lost(s: System, run: RunId, attempt: nat) {
    run in s.runs && (s.runs[run].attempt > attempt || (s.runs[run].attempt == attempt && Terminal(s.runs[run])))
  }

  lemma NotOwnedIsLost(c: Config, s: System, t: Ticket)
    requires Inv(c, s) && Backed(t, s.hist) && !Owns(s.runs[t.run], t.owner.name, t.attempt)
    ensures Lost(s, t.run, t.attempt)
  {
    hide FaithfulAt, Serial, Accounted, Tenures;
    assert FaithfulAt(c, s, t.run);
    KnownAt(c, s, t.run);
    AttemptAloneFences(c, s, t);
  }

  lemma LostStays(c: Config, s: System, step: Step, run: RunId, attempt: nat)
    requires WellFormed(s) && Enabled(c, s, step) && Lost(s, run, attempt)
    ensures Lost(Next(s, step), run, attempt)
  {
    hide Enabled, Next, Touched;
    StepOnRow(c, s, step, run);
  }

  lemma {:induction false} LostThrough(c: Config, s: System, steps: seq<Step>, run: RunId, attempt: nat)
    requires Legal(c, s, steps) && Lost(s, run, attempt)
    ensures Lost(Play(c, s, steps), run, attempt)
    decreases |steps|
  {
    hide Enabled, Next, Lost;
    if steps != [] {
      LostStays(c, s, steps[0], run, attempt);
      LostThrough(c, Next(s, steps[0]), steps[1..], run, attempt);
    }
  }

  // A claimant that no longer owns its attempt never owns it again, so none of
  // its later writes can take effect.
  lemma LostForGood(c: Config, s: System, steps: seq<Step>, t: Ticket)
    requires Inv(c, s) && Backed(t, s.hist) && !Owns(s.runs[t.run], t.owner.name, t.attempt)
    requires Legal(c, s, steps)
    ensures t.run in Play(c, s, steps).runs
    ensures !Owns(Play(c, s, steps).runs[t.run], t.owner.name, t.attempt)
  {
    hide Inv, Enabled, Next, Legal, Play;
    NotOwnedIsLost(c, s, t);
    LostThrough(c, s, steps, t.run, t.attempt);
  }

  // A terminal row never changes again, and nothing is recorded against it.
  lemma {:induction false} TerminalForGood(c: Config, s: System, steps: seq<Step>, id: RunId)
    requires Legal(c, s, steps) && id in s.runs && Terminal(s.runs[id])
    ensures var s' := Play(c, s, steps);
            && id in s'.runs && s'.runs[id] == s.runs[id]
            && id in s'.hist && s'.hist[id] == s.hist[id]
    decreases |steps|
  {
    hide Enabled, Next, After;
    if steps != [] {
      StepOnRow(c, s, steps[0], id);
      TerminalForGood(c, Next(s, steps[0]), steps[1..], id);
    }
  }

  // Of the owner and the reaper, at most one ends an attempt.
  lemma OneEndingPerAttempt(c: Config, s0: System, steps: seq<Step>, id: RunId)
    requires c.Valid() && Initial(s0) && Legal(c, s0, steps) && id in Play(c, s0, steps).hist
    ensures var h := Play(c, s0, steps).hist[id].entries;
            forall i, j | 0 <= i < |h| && 0 <= j < |h| && Ending(h[i].ev) && Ending(h[j].ev) && h[i].attempt == h[j].attempt :: i == j
  {
    hide Legal, Play;
    Reached(c, s0, steps, id);
  }

  // ---- The row ----

  lemma RowsAreWellShaped(c: Config, s0: System, steps: seq<Step>, id: RunId)
    requires c.Valid() && Initial(s0) && Legal(c, s0, steps) && id in Play(c, s0, steps).runs
    ensures var s := Play(c, s0, steps); id in s.hist && Shape(s.runs[id], s.hist[id].born, s.now)
  {
    hide Legal, Play;
    Reached(c, s0, steps, id);
  }

  // ---- Retry accounting ----

  lemma AttemptsAreAccountedFor(c: Config, s0: System, steps: seq<Step>, id: RunId)
    requires c.Valid() && Initial(s0) && Legal(c, s0, steps) && id in Play(c, s0, steps).runs
    ensures var s := Play(c, s0, steps);
            && id in s.hist && s.runs[id].jobId in s.retries
            && var r, h, maxRetries := s.runs[id], s.hist[id].entries, s.retries[s.runs[id].jobId];
            && r.attempt == 1 + Tally(h, Requeue) + Tally(h, Release)
            && Tally(h, Requeue) <= maxRetries
            && r.attempt <= maxRetries + 1 + Tally(h, Release)
            && Tally(h, StatusChange) <= 2 * (maxRetries + 1 + Tally(h, Release))
  {
    hide Legal, Play;
    Reached(c, s0, steps, id);
  }

  // A run gets an attempt past max_retries + 1 exactly when a release hands back
  // an attempt that had no retries left.
  lemma PastTheLimit(c: Config, s: System, step: Step, id: RunId)
    requires c.Valid() && Inv(c, s) && Enabled(c, s, step) && id in s.runs
    requires s.runs[id].attempt <= s.retries[s.runs[id].jobId] + 1
    ensures id in Next(s, step).runs
    ensures Next(s, step).runs[id].attempt > s.retries[s.runs[id].jobId] + 1 <==>
            id in Touched(s, step) && Touched(s, step)[id].Released? && Exhausted(s.runs[id], s.retries[s.runs[id].jobId])
  {
    hide Enabled, Next, Touched, FaithfulAt;
    StepOnRow(c, s, step, id);
  }

  // ---- Backoff ----

  // No claim starts before the wait of any earlier failed attempt is over,
  // whatever messages were in flight; nor is one sent for it by the sweeper or as a
  // due retry.
  lemma ClaimsWaitOut(c: Config, s0: System, steps: seq<Step>, id: RunId, i: nat, j: nat)
    requires c.Valid() && Initial(s0) && Legal(c, s0, steps) && id in Play(c, s0, steps).hist
    requires i < j < |Play(c, s0, steps).hist[id].entries|
    requires var h := Play(c, s0, steps).hist[id].entries;
             h[i].ev.FailedAttempt? && h[i].status.Queued? && (h[j].ev.Claimed? || h[j].ev.DueReturned? || h[j].ev.Swept?)
    ensures var h := Play(c, s0, steps).hist[id].entries; h[i].at + h[i].ev.backoff <= h[j].at
  {
    hide Legal, Play;
    Reached(c, s0, steps, id);
  }

  // In a run nobody reaped or released, attempt n starts no earlier than its
  // creation plus all the waits before it: the documented ones, if doubling does
  // not overflow.
  lemma AttemptStartsAfterAllWaits(c: Config, s0: System, steps: seq<Step>, id: RunId, i: nat)
    requires c.Valid() && Initial(s0) && Legal(c, s0, steps) && id in Play(c, s0, steps).hist
    requires i < |Play(c, s0, steps).hist[id].entries|
    requires Play(c, s0, steps).hist[id].entries[i].ev.Claimed? && OnlyRetried(Play(c, s0, steps).hist[id].entries)
    ensures var hist, base, max := Play(c, s0, steps).hist[id], c.policy.base, c.policy.max;
            && hist.born + TotalWait(base, max, hist.entries[i].attempt) <= hist.entries[i].at
            && (NoOverflow(base as int, max as int) ==>
                  hist.born + TotalDelay(base as int, max as int, hist.entries[i].attempt) <= hist.entries[i].at)
  {
    hide Legal, Play, NoOverflow, TotalWait, TotalDelay;
    Reached(c, s0, steps, id);
    if NoOverflow(c.policy.base as int, c.policy.max as int) {
      TotalWaitIsDelay(c.policy.base, c.policy.max, Play(c, s0, steps).hist[id].entries[i].attempt);
    }
  }

  // DueRetries returns each requeued attempt at most once.
  lemma RetryReturnedOnce(c: Config, s0: System, steps: seq<Step>, id: RunId)
    requires c.Valid() && Initial(s0) && Legal(c, s0, steps) && id in Play(c, s0, steps).hist
    ensures var h := Play(c, s0, steps).hist[id].entries;
            forall i, j | 0 <= i < |h| && 0 <= j < |h| && h[i].ev.DueReturned? && h[j].ev.DueReturned? && h[i].attempt == h[j].attempt :: i == j
  {
    hide Legal, Play;
    Reached(c, s0, steps, id);
  }

  // ---- FailQueuedRun ----

  // Its comment says it spares runs a worker has claimed. It fails a run that no
  // worker ever claimed exactly when the run is still on its first attempt.
  lemma FailQueuedOfUnclaimed(c: Config, s: System, p: Process, id: RunId, reason: string)
    requires c.Valid() && Inv(c, s) && Enabled(c, s, FailQueued(p, id, reason))
    requires s.runs[id].status.Queued?
    ensures Touched(s, FailQueued(p, id, reason)) == map[id := FailedQueued(reason)]
    ensures Claims(s.hist[id].entries) == [] <==> s.runs[id].attempt == 1
  {
    hide FaithfulAt, Serial, Accounted, Tenures, Claims;
    assert FaithfulAt(c, s, id);
    KnownAt(c, s, id);
    ClaimsAreTenures(s.hist[id].entries);
  }

  // A FAILED run without a worker is one whose last change was FailQueuedRun's.
  lemma FailedWithoutWorker(c: Config, s0: System, steps: seq<Step>, id: RunId)
    requires c.Valid() && Initial(s0) && Legal(c, s0, steps) && id in Play(c, s0, steps).runs
    ensures var s := Play(c, s0, steps);
            && id in s.hist
            && var h := s.hist[id].entries;
            FailedUnstarted(s.runs[id]) <==> h != [] && h[|h| - 1].ev.FailedQueued?
  {
    hide Legal, Play;
    Reached(c, s0, steps, id);
  }
}
