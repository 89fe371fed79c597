// Everything that ever happened to one run, and what every statement keeps true
// of the row and its history together.
module History {
  import opened Basics
  import opened Rows
  import opened Backoff

  // A worker process. Two processes may carry the same WORKER_ID.
  datatype Process = Process(pid: nat, name: WorkerId)

  // RETRY_BASE_DELAY and RETRY_MAX_DELAY.
  datatype Policy = Policy(base: Duration, max: Duration) {
    predicate Valid() {
      0 < base <= max
    }

    function Wait(attempt: nat): Time {
      Capped(base, max, attempt) as int
    }
  }

  // One statement that changed the row: when, at which attempt, issued by whom,
  // and the status it left behind.
  datatype Entry = Entry(at: Time, attempt: nat, who: Process, ev: Event, status: Status)

  datatype History = History(born: Time, entries: seq<Entry>)

  // Statements that take a RUNNING row out of RUNNING.
  predicate Ending(ev: Event) {
    ev.Finished? || ev.FailedAttempt? || ev.Released? || ev.Reaped?
  }

  // Statements the claimant of an attempt issues.
  predicate OwnerWrite(ev: Event) {
    ev.Beat? || ev.Finished? || ev.FailedAttempt? || ev.Released?
  }

  // What e may say of a row it changed. Workers only finish an attempt with
  // SUCCEEDED and its output, and only ask for the policy's backoff.
  predicate Records(r: Run, maxRetries: nat, policy: Policy, e: Entry) {
    && e.attempt == r.attempt
    && Admits(r, e.at, e.ev)
    && e.status == After(r, maxRetries, e.at, e.ev).status
    && (e.ev.Claimed? ==> e.ev.worker == e.who.name)
    && (OwnerWrite(e.ev) ==> r.workerId == Some(e.who.name))
    && (e.ev.Finished? ==> e.ev.status.Succeeded? && e.ev.output.Some? && e.ev.error.None?)
    && (e.ev.FailedAttempt? ==> e.ev.backoff == policy.Wait(r.attempt))
  }

  // ---- The shape of a row ----

  ghost predicate Shape(r: Run, born: Time, now: Time) {
    && r.attempt >= 1
    && !r.status.Cancelled?
    && (r.finishedAt.Some? <==> Terminal(r))
    && (r.output.Some? <==> r.status.Succeeded?)
    && (r.error.Some? <==> r.status.Failed? || (r.attempt > 1 && !Terminal(r)))
    && (r.workerId.Some? <==> r.startedAt.Some?)
    && (r.workerId.Some? <==> r.lastHeartbeatAt.Some?)
    && (r.status.Queued? ==> r.workerId.None?)
    && (r.status.Running? || r.status.Succeeded? ==> r.workerId.Some?)
    && (r.nextAttemptAt.Some? ==> r.workerId.None? && r.attempt > 1)
    && born <= r.queuedAt <= now
    && (r.startedAt.Some? ==> r.queuedAt <= r.startedAt.value <= r.lastHeartbeatAt.value <= now)
    && (r.finishedAt.Some? ==> r.queuedAt <= r.finishedAt.value <= now)
    && (r.finishedAt.Some? && r.lastHeartbeatAt.Some? ==> r.lastHeartbeatAt.value <= r.finishedAt.value)
  }

  lemma ShapeKept(r: Run, born: Time, before: Time, maxRetries: nat, policy: Policy, e: Entry)
    requires Shape(r, born, before) && before <= e.at && Records(r, maxRetries, policy, e)
    ensures Shape(After(r, maxRetries, e.at, e.ev), born, e.at)
  {
  }

  // ---- One attempt at a time ----

  // A stretch of time one process owned the run, under one attempt number.
  datatype Tenure = Tenure(attempt: nat, owner: Process, from: Time, until: Option<Time>)

  ghost function Extended(ts: seq<Tenure>, e: Entry): seq<Tenure> {
    if e.ev.Claimed? then ts + [Tenure(e.attempt, e.who, e.at, None)]
    else if Ending(e.ev) && ts != [] then ts[|ts| - 1 := ts[|ts| - 1].(until := Some(e.at))]
    else ts
  }

  // The ownership intervals a history describes.
  ghost function Tenures(h: seq<Entry>): seq<Tenure> {
    if h == [] then [] else Extended(Tenures(h[..|h| - 1]), h[|h| - 1])
  }

  // How many attempts have started: all up to the current one, but not a queued
  // attempt, nor one FailQueuedRun failed before it started.
  function Started(r: Run): nat {
    if r.workerId.Some? || r.attempt == 0 then r.attempt else r.attempt - 1
  }

  // The claims are attempts 1, 2, ... in order, each once, and every tenure
  // ends before the next begins.
  ghost predicate Serial(ts: seq<Tenure>, now: Time) {
    && (forall i | 0 <= i < |ts| :: ts[i].attempt == i + 1 && ts[i].from <= now)
    && (forall i | 0 <= i < |ts| :: ts[i].until.Some? ==> ts[i].from <= ts[i].until.value <= now)
    && (forall i | 0 <= i < |ts| - 1 :: ts[i].until.Some?)
    && (forall i | 0 <= i < |ts| - 1 :: ts[i].until.value <= ts[i + 1].from)
  }

  // The last tenure is open exactly while the row is RUNNING, and the row names
  // its owner.
  ghost predicate LastTenure(r: Run, ts: seq<Tenure>) {
    && |ts| == Started(r)
    && (r.status.Running? <==> ts != [] && ts[|ts| - 1].until.None?)
    && (r.workerId.Some? ==> ts != [] && r.workerId == Some(ts[|ts| - 1].owner.name))
  }

  ghost predicate OneAtATime(r: Run, ts: seq<Tenure>, now: Time) {
    Serial(ts, now) && LastTenure(r, ts)
  }

  lemma SerialGrows(ts: seq<Tenure>, now: Time, t: Tenure)
    requires Serial(ts, now) && t.attempt == |ts| + 1 && t.from == now && t.until.None?
    requires ts != [] ==> ts[|ts| - 1].until.Some?
    ensures Serial(ts + [t], now)
  {
    var more := ts + [t];
    assert forall i | 0 <= i < |more| :: more[i] == if i < |ts| then ts[i] else t;
  }

  lemma SerialEnds(ts: seq<Tenure>, now: Time)
    requires Serial(ts, now) && ts != []
    ensures Serial(ts[|ts| - 1 := ts[|ts| - 1].(until := Some(now))], now)
  {
    var last := ts[|ts| - 1].(until := Some(now));
    var more := ts[|ts| - 1 := last];
    assert forall i | 0 <= i < |more| :: more[i] == if i < |ts| - 1 then ts[i] else last;
  }

  lemma SerialKept(ts: seq<Tenure>, before: Time, e: Entry)
    requires Serial(ts, before) && before <= e.at
    requires e.ev.Claimed? ==> e.attempt == |ts| + 1 && (ts != [] ==> ts[|ts| - 1].until.Some?)
    ensures Serial(Extended(ts, e), e.at)
  {
    SerialLater(ts, before, e.at);
    hide Serial;
    if e.ev.Claimed? {
      SerialGrows(ts, e.at, Tenure(e.attempt, e.who, e.at, None));
    } else if Ending(e.ev) && ts != [] {
      SerialEnds(ts, e.at);
    }
  }

  lemma LastTenureKept(r: Run, ts: seq<Tenure>, born: Time, maxRetries: nat, policy: Policy, e: Entry)
    requires Shape(r, born, e.at) && LastTenure(r, ts) && Records(r, maxRetries, policy, e)
    ensures LastTenure(After(r, maxRetries, e.at, e.ev), Extended(ts, e))
  {
  }

  lemma OneAtATimeKept(r: Run, ts: seq<Tenure>, born: Time, before: Time, maxRetries: nat, policy: Policy, e: Entry)
    requires Shape(r, born, before) && OneAtATime(r, ts, before)
    requires before <= e.at && Records(r, maxRetries, policy, e)
    ensures OneAtATime(After(r, maxRetries, e.at, e.ev), Extended(ts, e), e.at)
  {
    SerialKept(ts, before, e);
    LastTenureKept(r, ts, born, maxRetries, policy, e);
  }

  // ---- Counting ----

  datatype Kind = StatusChange | Requeue | Release

  predicate Counts(e: Entry, k: Kind) {
    match k
    case StatusChange => e.ev.Claimed? || Ending(e.ev) || e.ev.FailedQueued?
    case Requeue => (e.ev.FailedAttempt? || e.ev.Reaped?) && e.status.Queued?
    case Release => e.ev.Released?
  }

  ghost function Tally(h: seq<Entry>, k: Kind): nat {
    if h == [] then 0 else Tally(h[..|h| - 1], k) + if Counts(h[|h| - 1], k) then 1 else 0
  }

  // Status changes a run has been through, read off its row.
  function ChangesSoFar(r: Run): int {
    2 * Started(r) + (if r.status.Running? then -1 else if Terminal(r) && r.workerId.None? then 1 else 0)
  }

  ghost predicate Accounted(r: Run, maxRetries: nat, h: seq<Entry>) {
    && r.attempt == 1 + Tally(h, Requeue) + Tally(h, Release)
    && Tally(h, Requeue) <= maxRetries
    && Tally(h, StatusChange) == ChangesSoFar(r)
  }

  lemma AccountedKept(r: Run, h: seq<Entry>, born: Time, before: Time, maxRetries: nat, policy: Policy, e: Entry)
    requires Shape(r, born, before) && Accounted(r, maxRetries, h) && Records(r, maxRetries, policy, e)
    ensures Accounted(After(r, maxRetries, e.at, e.ev), maxRetries, h + [e])
  {
    assert (h + [e])[..|h|] == h;
    assert forall k :: Tally(h + [e], k) == Tally(h, k) + if Counts(e, k) then 1 else 0;
  }

  // ---- Order of events ----

  // Entries are in clock order, none before the run was created, and their
  // attempt numbers never go back.
  ghost predicate Chronological(r: Run, hist: History, now: Time) {
    var h := hist.entries;
    && hist.born <= now
    && (forall i | 0 <= i < |h| :: hist.born <= h[i].at <= now && 1 <= h[i].attempt <= r.attempt)
    && (forall i, j | 0 <= i < j < |h| :: h[i].at <= h[j].at && h[i].attempt <= h[j].attempt)
  }

  // One ending write per attempt, whoever made it.
  ghost predicate EndsOnce(r: Run, h: seq<Entry>) {
    && (forall i, j | 0 <= i < j < |h| && Ending(h[i].ev) && Ending(h[j].ev) :: h[i].attempt < h[j].attempt)
    && (forall i | 0 <= i < |h| && Ending(h[i].ev) :: h[i].attempt < r.attempt || Terminal(r))
  }

  // Each attempt is returned by DueRetries at most once.
  ghost predicate DueOnce(r: Run, h: seq<Entry>) {
    && (forall i, j | 0 <= i < j < |h| && h[i].ev.DueReturned? && h[j].ev.DueReturned? :: h[i].attempt < h[j].attempt)
    && (forall i | 0 <= i < |h| && h[i].ev.DueReturned? :: h[i].attempt < r.attempt || r.nextAttemptAt.None?)
  }

  lemma ChronologicalKept(r: Run, hist: History, before: Time, maxRetries: nat, policy: Policy, e: Entry)
    requires Shape(r, hist.born, before) && Chronological(r, hist, before)
    requires before <= e.at && Records(r, maxRetries, policy, e)
    ensures Chronological(After(r, maxRetries, e.at, e.ev), hist.(entries := hist.entries + [e]), e.at)
  {
    assert After(r, maxRetries, e.at, e.ev).attempt >= r.attempt;
  }

  lemma EndsOnceKept(r: Run, hist: History, before: Time, maxRetries: nat, policy: Policy, e: Entry)
    requires Shape(r, hist.born, before) && Chronological(r, hist, before) && EndsOnce(r, hist.entries)
    requires before <= e.at && Records(r, maxRetries, policy, e)
    ensures EndsOnce(After(r, maxRetries, e.at, e.ev), hist.entries + [e])
  {
    var r' := After(r, maxRetries, e.at, e.ev);
    assert r'.attempt >= r.attempt && !Terminal(r);
    assert Ending(e.ev) ==> r.attempt < r'.attempt || Terminal(r');
  }

  lemma DueOnceKept(r: Run, hist: History, before: Time, maxRetries: nat, policy: Policy, e: Entry)
    requires Shape(r, hist.born, before) && Chronological(r, hist, before) && DueOnce(r, hist.entries)
    requires before <= e.at && Records(r, maxRetries, policy, e)
    ensures DueOnce(After(r, maxRetries, e.at, e.ev), hist.entries + [e])
  {
    var r' := After(r, maxRetries, e.at, e.ev);
    assert r'.attempt > r.attempt || (r'.attempt == r.attempt && (r.nextAttemptAt.None? ==> r'.nextAttemptAt.None?));
  }

  // ---- Backoff ----

  // A claim, and whatever makes messages for one.
  predicate NeedsBackoffOver(ev: Event) {
    ev.Claimed? || ev.DueReturned? || ev.Swept?
  }

  // A retry's wait has passed, or the row still holds it back.
  ghost predicate WaitsHeld(r: Run, h: seq<Entry>, now: Time) {
    && (forall i | 0 <= i < |h| && h[i].ev.FailedAttempt? && h[i].status.Queued? ::
          var due := h[i].at + h[i].ev.backoff; due <= now || r.nextAttemptAt == Some(due))
    && forall i, j | 0 <= i < j < |h| && h[i].ev.FailedAttempt? && h[i].status.Queued? && NeedsBackoffOver(h[j].ev) ::
          h[i].at + h[i].ev.backoff <= h[j].at
  }

  lemma WaitsHeldKept(r: Run, h: seq<Entry>, born: Time, before: Time, maxRetries: nat, policy: Policy, e: Entry)
    requires Shape(r, born, before) && WaitsHeld(r, h, before)
    requires before <= e.at && Records(r, maxRetries, policy, e)
    ensures WaitsHeld(After(r, maxRetries, e.at, e.ev), h + [e], e.at)
  {
  }

  // Only FailOrRetry has requeued the run so far.
  ghost predicate OnlyRetried(h: seq<Entry>) {
    forall i | 0 <= i < |h| :: !h[i].ev.Released? && !h[i].ev.Reaped?
  }

  // The earliest moment attempt n can start, when every earlier one failed.
  function Earliest(policy: Policy, born: Time, n: nat): Time {
    born + TotalWait(policy.base, policy.max, n)
  }

  ghost predicate StartsLate(r: Run, hist: History, policy: Policy, now: Time) {
    var h := hist.entries;
    OnlyRetried(h) ==>
      && (forall i | 0 <= i < |h| && h[i].ev.Claimed? :: Earliest(policy, hist.born, h[i].attempt) <= h[i].at)
      && (r.nextAttemptAt.None? ==> Earliest(policy, hist.born, r.attempt) <= now)
      && (r.nextAttemptAt.Some? ==> Earliest(policy, hist.born, r.attempt) <= r.nextAttemptAt.value)
  }

  lemma StartsLateKept(r: Run, hist: History, before: Time, maxRetries: nat, policy: Policy, e: Entry)
    requires policy.Valid() && Shape(r, hist.born, before) && StartsLate(r, hist, policy, before)
    requires before <= e.at && Records(r, maxRetries, policy, e)
    ensures StartsLate(After(r, maxRetries, e.at, e.ev), hist.(entries := hist.entries + [e]), policy, e.at)
  {
    var h' := hist.entries + [e];
    if OnlyRetried(h') {
      assert OnlyRetried(hist.entries) by {
        forall i | 0 <= i < |hist.entries| ensures !hist.entries[i].ev.Released? && !hist.entries[i].ev.Reaped? {
          assert h'[i] == hist.entries[i];
        }
      }
      assert h'[|h'| - 1] == e;
      assert TotalWait(policy.base, policy.max, r.attempt + 1)
          == TotalWait(policy.base, policy.max, r.attempt) + policy.Wait(r.attempt);
    }
  }

  // ---- Signs of life ----

  // When the attempt last showed it was alive: its claim, or an effective heartbeat.
  ghost function LastSign(h: seq<Entry>): Time {
    if h == [] then 0
    else if h[|h| - 1].ev.Claimed? || h[|h| - 1].ev.Beat? then h[|h| - 1].at
    else LastSign(h[..|h| - 1])
  }

  ghost predicate SignKept(r: Run, h: seq<Entry>) {
    r.status.Running? ==> r.lastHeartbeatAt == Some(LastSign(h))
  }

  // ---- Failed before it started ----

  // A run FAILED without a worker.
  predicate FailedUnstarted(r: Run) {
    r.status.Failed? && r.workerId.None?
  }

  // It is FailQueuedRun that failed it, and not a worker or the reaper.
  ghost predicate FailedHow(r: Run, h: seq<Entry>) {
    FailedUnstarted(r) <==> h != [] && h[|h| - 1].ev.FailedQueued?
  }

  lemma FailedHowKept(r: Run, h: seq<Entry>, born: Time, before: Time, maxRetries: nat, policy: Policy, e: Entry)
    requires Shape(r, born, before) && Records(r, maxRetries, policy, e)
    ensures FailedHow(After(r, maxRetries, e.at, e.ev), h + [e])
  {
  }

  // ---- Together ----

  ghost predicate Faithful(r: Run, hist: History, maxRetries: nat, policy: Policy, now: Time) {
    && Shape(r, hist.born, now)
    && OneAtATime(r, Tenures(hist.entries), now)
    && Accounted(r, maxRetries, hist.entries)
    && Chronological(r, hist, now)
    && EndsOnce(r, hist.entries)
    && DueOnce(r, hist.entries)
    && WaitsHeld(r, hist.entries, now)
    && StartsLate(r, hist, policy, now)
    && SignKept(r, hist.entries)
    && FailedHow(r, hist.entries)
  }

  lemma NewIsFaithful(r: Run, maxRetries: nat, policy: Policy, now: Time)
    requires r == NewRun(r.jobId, r.scheduledTime, r.trigger, now)
    ensures Faithful(r, History(now, []), maxRetries, policy, now)
  {
  }

  lemma LastSignKept(r: Run, h: seq<Entry>, born: Time, before: Time, maxRetries: nat, policy: Policy, e: Entry)
    requires Shape(r, born, before) && SignKept(r, h) && Records(r, maxRetries, policy, e)
    ensures SignKept(After(r, maxRetries, e.at, e.ev), h + [e])
  {
    assert (h + [e])[..|h|] == h;
  }

  // Every statement of the store keeps every one of these facts.
  lemma FaithfulKept(r: Run, hist: History, before: Time, maxRetries: nat, policy: Policy, e: Entry)
    requires policy.Valid() && Faithful(r, hist, maxRetries, policy, before)
    requires before <= e.at && Records(r, maxRetries, policy, e)
    ensures Faithful(After(r, maxRetries, e.at, e.ev), hist.(entries := hist.entries + [e]), maxRetries, policy, e.at)
  {
    var h := hist.entries;
    assert (h + [e])[..|h|] == h;
    assert Tenures(h + [e]) == Extended(Tenures(h), e);
    LastSignKept(r, h, hist.born, before, maxRetries, policy, e);
    hide Shape, OneAtATime, Accounted, Chronological, EndsOnce, DueOnce, WaitsHeld, StartsLate, SignKept, FailedHow;
    hide After, Records, Tenures, Extended, LastSign;
    ShapeKept(r, hist.born, before, maxRetries, policy, e);
    OneAtATimeKept(r, Tenures(h), hist.born, before, maxRetries, policy, e);
    AccountedKept(r, h, hist.born, before, maxRetries, policy, e);
    ChronologicalKept(r, hist, before, maxRetries, policy, e);
    EndsOnceKept(r, hist, before, maxRetries, policy, e);
    DueOnceKept(r, hist, before, maxRetries, policy, e);
    WaitsHeldKept(r, h, hist.born, before, maxRetries, policy, e);
    StartsLateKept(r, hist, before, maxRetries, policy, e);
    FailedHowKept(r, h, hist.born, before, maxRetries, policy, e);
  }

  lemma WaitsHeldLater(r: Run, h: seq<Entry>, now: Time, later: Time)
    requires WaitsHeld(r, h, now) && now <= later
    ensures WaitsHeld(r, h, later)
  {
  }

  lemma SerialLater(ts: seq<Tenure>, now: Time, later: Time)
    requires Serial(ts, now) && now <= later
    ensures Serial(ts, later)
  {
  }

  lemma ChronologicalLater(r: Run, hist: History, now: Time, later: Time)
    requires Chronological(r, hist, now) && now <= later
    ensures Chronological(r, hist, later)
  {
  }

  // The clock moving on changes none of them.
  lemma FaithfulLater(r: Run, hist: History, maxRetries: nat, policy: Policy, now: Time, later: Time)
    requires Faithful(r, hist, maxRetries, policy, now) && now <= later
    ensures Faithful(r, hist, maxRetries, policy, later)
  {
    WaitsHeldLater(r, hist.entries, now, later);
    SerialLater(Tenures(hist.entries), now, later);
    ChronologicalLater(r, hist, now, later);
  }
}
