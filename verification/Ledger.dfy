// What a row says, in terms of what happened to it: every column of job_runs is
// read off the run's history, and the sweeper's patience with it.
module Ledger {
  import opened Basics
  import opened Rows
  import opened Store
  import opened History
  import opened Protocol
  import opened Safety

  // ---- The entries that set a column ----

  datatype Column = QueuedAt | StartedAt | FinishedAt | NextAttemptAt | Error

  predicate Sets(e: Entry, column: Column) {
    match column
    case QueuedAt => e.status.Queued?
    case StartedAt => e.ev.Claimed?
    case FinishedAt => e.status.Succeeded? || e.status.Failed?
    case NextAttemptAt => e.ev.Claimed? || e.ev.DueReturned? || e.ev.FailedAttempt?
    case Error => Ending(e.ev) || e.ev.FailedQueued?
  }

  // The last entry that did.
  ghost function Last(h: seq<Entry>, column: Column): Option<Entry> {
    if h == [] then None
    else if Sets(h[|h| - 1], column) then Some(h[|h| - 1])
    else Last(h[..|h| - 1], column)
  }

  // When the run, as the history has it, was last put in the queue.
  ghost function LastQueued(hist: History): Time {
    var e := Last(hist.entries, QueuedAt);
    if e.Some? then e.value.at else hist.born
  }

  // The backoff the last failed attempt asked for, until the retry is returned or claimed.
  ghost function Waiting(h: seq<Entry>): Option<Time> {
    var e := Last(h, NextAttemptAt);
    if e.Some? && e.value.ev.FailedAttempt? && e.value.status.Queued? then Some(e.value.at + e.value.ev.backoff) else None
  }

  // "attempt n lost worker w", w the worker that claimed attempt n.
  ghost predicate SaysLost(text: string, ts: seq<Tenure>, attempt: nat) {
    && 1 <= attempt <= |ts|
    && exists n :: IsNumeral(n, attempt) && text == "attempt " + n + " lost worker " + ts[attempt - 1].owner.name
  }

  // What the last attempt to fail, or the caller that failed or released the run, had to say.
  ghost predicate Explains(error: Option<string>, h: seq<Entry>, ts: seq<Tenure>) {
    var e := Last(h, Error);
    if e.None? then error.None?
    else
      match e.value.ev
      case Finished(_, _, text) => error == text
      case FailedAttempt(text, _) => error == Some(text)
      case Released(text) => error == Some(text)
      case FailedQueued(text) => error == Some(text)
      case Reaped => error.Some? && SaysLost(error.value, ts, e.value.attempt)
      case _ => true
  }

  ghost predicate Tells(r: Run, hist: History) {
    var h := hist.entries;
    && r.status == (if h == [] then Queued else h[|h| - 1].status)
    && r.queuedAt == LastQueued(hist)
    && r.nextAttemptAt == Waiting(h)
    && Explains(r.error, h, Tenures(h))
    && TellsWorker(r, h) && TellsEnd(r, h)
  }

  ghost predicate TellsWorker(r: Run, h: seq<Entry>) {
    r.workerId.Some? ==>
      var e := Last(h, StartedAt);
      && e.Some? && r.workerId == Some(e.value.who.name) && r.startedAt == Some(e.value.at)
      && r.lastHeartbeatAt == Some(LastSign(h))
  }

  ghost predicate TellsEnd(r: Run, h: seq<Entry>) {
    Terminal(r) ==>
      var e := Last(h, FinishedAt);
      && e.Some? && r.finishedAt == Some(e.value.at)
      && (r.status.Succeeded? ==> e.value.ev.Finished? && r.output == e.value.ev.output)
  }

  lemma LastMore(h: seq<Entry>, e: Entry)
    ensures forall column :: Last(h + [e], column) == if Sets(e, column) then Some(e) else Last(h, column)
  {
    assert (h + [e])[..|h|] == h;
  }

  lemma LostIsSaid(r: Run, ts: seq<Tenure>)
    requires LastTenure(r, ts) && r.status.Running? && r.workerId.Some?
    ensures SaysLost(LostWorker(r), ts, r.attempt)
  {
    DigitsAreNumeral(r.attempt);
    hide IsNumeral, Digits;
  }

  lemma ErrorKept(r: Run, hist: History, maxRetries: nat, policy: Policy, e: Entry)
    requires LastTenure(r, Tenures(hist.entries)) && Explains(r.error, hist.entries, Tenures(hist.entries))
    requires Records(r, maxRetries, policy, e) && (r.status.Running? ==> r.workerId.Some?)
    ensures Explains(After(r, maxRetries, e.at, e.ev).error, hist.entries + [e], Tenures(hist.entries + [e]))
  {
    var h := hist.entries;
    LastMore(h, e);
    TenuresMore(h, e);
    hide IsNumeral, Tenures, LostWorker;
    assert forall n, text | SaysLost(text, Tenures(h), n) :: SaysLost(text, Extended(Tenures(h), e), n);
    if e.ev.Reaped? {
      LostIsSaid(r, Tenures(h));
    }
  }

  lemma WorkerKept(r: Run, hist: History, before: Time, maxRetries: nat, policy: Policy, e: Entry)
    requires Shape(r, hist.born, before) && TellsWorker(r, hist.entries) && TellsEnd(r, hist.entries)
    requires Records(r, maxRetries, policy, e)
    ensures TellsWorker(After(r, maxRetries, e.at, e.ev), hist.entries + [e])
    ensures TellsEnd(After(r, maxRetries, e.at, e.ev), hist.entries + [e])
  {
    LastMore(hist.entries, e);
    assert (hist.entries + [e])[..|hist.entries|] == hist.entries;
  }

  lemma TellsKept(r: Run, hist: History, before: Time, maxRetries: nat, policy: Policy, e: Entry)
    requires Shape(r, hist.born, before) && LastTenure(r, Tenures(hist.entries)) && Tells(r, hist)
    requires before <= e.at && Records(r, maxRetries, policy, e)
    ensures Tells(After(r, maxRetries, e.at, e.ev), hist.(entries := hist.entries + [e]))
  {
    LastMore(hist.entries, e);
    ErrorKept(r, hist, maxRetries, policy, e);
    WorkerKept(r, hist, before, maxRetries, policy, e);
    hide Explains, Tenures, LastTenure, TellsWorker, TellsEnd;
  }

  // ---- In every reachable state ----

  // The sweeper touched the run only after it had been in the queue for longer
  // than sweepAfter, counted from the last time it was put there.
  ghost predicate SweptLate(hist: History, sweepAfter: Time) {
    var h := hist.entries;
    && (forall i | 0 <= i < |h| && h[i].ev.Swept? :: h[i].at - LastQueued(hist.(entries := h[..i])) > sweepAfter)
    && forall i | 0 <= i < |h| && (h[i].ev.Swept? || h[i].ev.DueReturned?) :: h[i].status.Queued?
  }

  ghost predicate AllTell(c: Config, s: System)
    requires WellFormed(s)
  {
    forall id | id in s.runs :: Tells(s.runs[id], s.hist[id]) && SweptLate(s.hist[id], c.sweepAfter)
  }

  lemma SweepIsOfStuck(c: Config, s: System, step: Step, id: RunId)
    requires Enabled(c, s, step) && id in Touched(s, step) && Touched(s, step)[id].Swept?
    ensures id in s.runs && s.runs[id].queuedAt < s.now - c.sweepAfter
  {
    assert id in StuckKeys(s.runs, s.now, c.sweepAfter);
  }

  lemma StaysQueued(r: Run, maxRetries: nat, policy: Policy, e: Entry)
    requires Records(r, maxRetries, policy, e)
    ensures e.ev.Swept? || e.ev.DueReturned? ==> e.status.Queued?
  {
  }

  lemma SweptLateKept(hist: History, sweepAfter: Time, e: Entry)
    requires SweptLate(hist, sweepAfter) && (e.ev.Swept? ==> e.at - LastQueued(hist) > sweepAfter)
    requires e.ev.Swept? || e.ev.DueReturned? ==> e.status.Queued?
    ensures SweptLate(hist.(entries := hist.entries + [e]), sweepAfter)
  {
    hide LastQueued;
    var h, h' := hist.entries, hist.entries + [e];
    assert forall i | 0 <= i <= |h| :: h'[..i] == h[..i];
    assert hist.(entries := h[..|h|]) == hist;
  }

  lemma AllTellKept(c: Config, s: System, step: Step)
    requires c.Valid() && Inv(c, s) && Enabled(c, s, step) && AllTell(c, s)
    ensures WellFormed(Next(s, step)) && AllTell(c, Next(s, step))
  {
    hide FaithfulAt, Enabled, Touched, Next, Tells, SweptLate, After, Records, Tenures, OneAtATime, Accounted;
    NextWellFormed(c, s, step);
    forall id | id in Next(s, step).runs
      ensures Tells(Next(s, step).runs[id], Next(s, step).hist[id]) && SweptLate(Next(s, step).hist[id], c.sweepAfter)
    {
      if id in s.runs {
        RowTellsNext(c, s, step, id);
      } else {
        NewTells(c, s, step, id);
      }
    }
  }

  lemma NewTells(c: Config, s: System, step: Step, id: RunId)
    requires WellFormed(s) && Enabled(c, s, step) && id !in s.runs && id in Next(s, step).runs
    ensures id in Next(s, step).hist
    ensures Tells(Next(s, step).runs[id], Next(s, step).hist[id]) && SweptLate(Next(s, step).hist[id], c.sweepAfter)
  {
    hide Touched, EntryOf, After, KeyTaken, ToDispatch, Earned;
  }

  lemma RowTellsNext(c: Config, s: System, step: Step, id: RunId)
    requires c.Valid() && Inv(c, s) && Enabled(c, s, step) && id in s.runs
    requires WellFormed(s) && Tells(s.runs[id], s.hist[id]) && SweptLate(s.hist[id], c.sweepAfter)
    ensures id in Next(s, step).runs && id in Next(s, step).hist
    ensures Tells(Next(s, step).runs[id], Next(s, step).hist[id]) && SweptLate(Next(s, step).hist[id], c.sweepAfter)
  {
    hide FaithfulAt, Enabled, Touched, Next, SweptLate, After, Records, Tenures, Serial, Accounted, Explains, Waiting;
    StepOnRow(c, s, step, id);
    if id in Touched(s, step) {
      var ev := Touched(s, step)[id];
      var e := EntryOf(s, id, Issuer(step), ev);
      assert FaithfulAt(c, s, id);
      KnownAt(c, s, id);
      StepsAreTruthful(c, s, step);
      if ev.Swept? {
        SweepIsOfStuck(c, s, step, id);
      }
      StaysQueued(s.runs[id], s.retries[s.runs[id].jobId], c.policy, e);
      SweptLateKept(s.hist[id], c.sweepAfter, e);
      hide Tells;
      TellsKept(s.runs[id], s.hist[id], s.now, s.retries[s.runs[id].jobId], c.policy, e);
    }
  }

  lemma {:induction false} AllTellThrough(c: Config, s: System, steps: seq<Step>)
    requires c.Valid() && Inv(c, s) && Legal(c, s, steps) && AllTell(c, s)
    ensures WellFormed(Play(c, s, steps)) && AllTell(c, Play(c, s, steps))
    decreases |steps|
  {
    hide Enabled, Next, AllTell, FaithfulAt, Backed, UniqueKeys;
    if steps != [] {
      InvKept(c, s, steps[0]);
      AllTellKept(c, s, steps[0]);
      AllTellThrough(c, Next(s, steps[0]), steps[1..]);
    }
  }

  // Every reachable row is what its history says, column by column.
  lemma RowsTellHistory(c: Config, s0: System, steps: seq<Step>, id: RunId)
    requires c.Valid() && Initial(s0) && Legal(c, s0, steps) && id in Play(c, s0, steps).runs
    ensures id in Play(c, s0, steps).hist && Tells(Play(c, s0, steps).runs[id], Play(c, s0, steps).hist[id])
  {
    hide Legal, Play, Tells;
    AllTellThrough(c, s0, steps);
  }

  lemma {:induction false} LastIsLater(h: seq<Entry>, column: Column, j: nat)
    requires j < |h| && Sets(h[j], column) && forall x, y | 0 <= x < y < |h| :: h[x].at <= h[y].at
    ensures Last(h, column).Some? && Last(h, column).value.at >= h[j].at
  {
    if !Sets(h[|h| - 1], column) {
      LastIsLater(h[..|h| - 1], column, j);
    } else if j < |h| - 1 {
      assert h[j].at <= h[|h| - 1].at;
    }
  }

  lemma {:induction false} LastIsOne(h: seq<Entry>, column: Column)
    ensures Last(h, column).Some? ==> Last(h, column).value in h
  {
    if h != [] && !Sets(h[|h| - 1], column) {
      LastIsOne(h[..|h| - 1], column);
    }
  }

  // The sweeper sends a run's message again only after more than sweepAfter in the
  // queue: since it was created, and since anything put it there, an earlier sweep
  // included.
  lemma SweepsAreFarApart(c: Config, s0: System, steps: seq<Step>, id: RunId, i: nat)
    requires c.Valid() && Initial(s0) && Legal(c, s0, steps) && id in Play(c, s0, steps).hist
    requires i < |Play(c, s0, steps).hist[id].entries| && Play(c, s0, steps).hist[id].entries[i].ev.Swept?
    ensures var hist := Play(c, s0, steps).hist[id];
            var h := hist.entries;
            && h[i].at - hist.born > c.sweepAfter
            && forall j | 0 <= j < i && (h[j].ev.Swept? || h[j].ev.DueReturned? || (Ending(h[j].ev) && h[j].status.Queued?)) ::
                 h[i].at - h[j].at > c.sweepAfter
  {
    hide Legal, Play, Tells, LastQueued, FaithfulAt;
    AllTellThrough(c, s0, steps);
    Reached(c, s0, steps, id);
    var s := Play(c, s0, steps);
    var hist := s.hist[id];
    InClockOrder(c, s, id);
    var before := hist.(entries := hist.entries[..i]);
    forall j | 0 <= j < i && hist.entries[j].status.Queued? ensures hist.entries[i].at - hist.entries[j].at > c.sweepAfter {
      assert before.entries[j] == hist.entries[j];
      QueuedLater(before, j);
    }
    QueuedAfterBirth(before);
  }

  lemma InClockOrder(c: Config, s: System, id: RunId)
    requires WellFormed(s) && id in s.runs && FaithfulAt(c, s, id)
    ensures var h := s.hist[id].entries;
            && (forall x, y | 0 <= x < y < |h| :: h[x].at <= h[y].at)
            && forall x | 0 <= x < |h| :: s.hist[id].born <= h[x].at
  {
    hide Shape, OneAtATime, Accounted, EndsOnce, DueOnce, WaitsHeld, StartsLate, SignKept, FailedHow;
  }

  lemma QueuedLater(hist: History, j: nat)
    requires j < |hist.entries| && hist.entries[j].status.Queued?
    requires forall x, y | 0 <= x < y < |hist.entries| :: hist.entries[x].at <= hist.entries[y].at
    ensures LastQueued(hist) >= hist.entries[j].at
  {
    LastIsLater(hist.entries, QueuedAt, j);
  }

  lemma QueuedAfterBirth(hist: History)
    requires forall x | 0 <= x < |hist.entries| :: hist.born <= hist.entries[x].at
    ensures LastQueued(hist) >= hist.born
  {
    LastIsOne(hist.entries, QueuedAt);
  }
}
