// The buffered log of one attempt: internal/worker/runlog.go. The job's
// goroutine and a ticker both flush one buffer. Each method below is one
// critical section, or one write outside the mutex, of one goroutine; a script of
// such moves is any interleaving of the two.
module RunLog {
  import opened Basics
  import opened LogPages

  // Where the job's goroutine is: logging, inside Close waiting for the ticker,
  // past its last flush, or returned.
  datatype Phase = Logging | Stopping | LastFlush | Closed

  datatype Move =
    | LogNext(ts: Time)
    | JobTakes
    | JobWrites(stored: bool)
    | TickerTakes
    | TickerWrites(stored: bool)
    | CloseStop
    | TickerExits
    | CloseReturns

  ghost function Flat(batches: seq<seq<LogLine>>): seq<LogLine> {
    if batches == [] then [] else Flat(batches[..|batches| - 1]) + batches[|batches| - 1]
  }

  // Lines before batch i.
  ghost function Start(batches: seq<seq<LogLine>>, i: nat): nat
    requires i <= |batches|
  {
    |Flat(batches[..i])|
  }

  lemma {:induction false} FlatAt(batches: seq<seq<LogLine>>, i: nat, j: nat)
    requires i < |batches| && j < |batches[i]|
    ensures Start(batches, i) + j < |Flat(batches)|
    ensures Flat(batches)[Start(batches, i) + j] == batches[i][j]
    decreases |batches|
  {
    var init := batches[..|batches| - 1];
    if i < |init| {
      assert batches[..i] == init[..i];
      FlatAt(init, i, j);
    } else {
      assert batches[..i] == init;
    }
  }

  lemma {:induction false} StartsFollow(batches: seq<seq<LogLine>>, i: nat, k: nat)
    requires i < k <= |batches|
    ensures Start(batches, i) + |batches[i]| <= Start(batches, k)
    decreases k
  {
    assert batches[..k][..k - 1] == batches[..k - 1];
    if i < k - 1 {
      StartsFollow(batches, i, k - 1);
    } else {
      assert batches[..i] == batches[..k - 1];
    }
  }

  // Numbered 1, 2, 3, ... in order.
  predicate Numbered(lines: seq<LogLine>, attempt: nat) {
    forall i | 0 <= i < |lines| :: lines[i].seqNo == i + 1 && lines[i].attempt == attempt
  }

  // A line's number tells which batch holds it, and where.
  lemma NumberedBatch(batches: seq<seq<LogLine>>, buf: seq<LogLine>, attempt: nat, i: nat, j: nat)
    requires Numbered(Flat(batches) + buf, attempt) && i < |batches| && j < |batches[i]|
    ensures batches[i][j].seqNo == Start(batches, i) + j + 1 && batches[i][j].attempt == attempt
  {
    FlatAt(batches, i, j);
    assert (Flat(batches) + buf)[Start(batches, i) + j] == batches[i][j];
  }

  lemma SameNumberSameBatch(batches: seq<seq<LogLine>>, buf: seq<LogLine>, attempt: nat, i: nat, j: nat, a: LogLine, b: LogLine)
    requires Numbered(Flat(batches) + buf, attempt) && i < |batches| && j < |batches|
    requires a in batches[i] && b in batches[j] && a.seqNo == b.seqNo
    ensures i == j && a == b && a.attempt == attempt
  {
    hide Flat, Numbered, Start;
    var x :| 0 <= x < |batches[i]| && batches[i][x] == a;
    var y :| 0 <= y < |batches[j]| && batches[j][y] == b;
    NumberedBatch(batches, buf, attempt, i, x);
    NumberedBatch(batches, buf, attempt, j, y);
    if i < j {
      StartsFollow(batches, i, j);
    } else if j < i {
      StartsFollow(batches, j, i);
    }
  }

  // Every line of the stored batches is a row ...
  ghost predicate AllStored(lines: map<LogKey, LogLine>, run: RunId, attempt: nat, batches: seq<seq<LogLine>>, stored: set<nat>) {
    forall i, l | i in stored && i < |batches| && l in batches[i] ::
      LogKey(run, attempt, l.seqNo) in lines && lines[LogKey(run, attempt, l.seqNo)] == l
  }

  // ... and the attempt has no others: only this logger writes under its
  // (run, attempt), since only one process claimed it.
  ghost predicate OnlyStored(lines: map<LogKey, LogLine>, run: RunId, attempt: nat, batches: seq<seq<LogLine>>, stored: set<nat>) {
    forall k | k in lines && k.run == run && k.attempt == attempt ::
      exists i :: i in stored && i < |batches| && lines[k] in batches[i]
  }

  ghost predicate Holds(lines: map<LogKey, LogLine>, run: RunId, attempt: nat, batches: seq<seq<LogLine>>, stored: set<nat>) {
    AllStored(lines, run, attempt, batches, stored) && OnlyStored(lines, run, attempt, batches, stored)
  }

  lemma HoldsTaken(lines: map<LogKey, LogLine>, run: RunId, attempt: nat, batches: seq<seq<LogLine>>, b: seq<LogLine>, stored: set<nat>)
    requires Holds(lines, run, attempt, batches, stored) && forall i | i in stored :: i < |batches|
    ensures Holds(lines, run, attempt, batches + [b], stored)
  {
    var more := batches + [b];
    forall k | k in lines && k.run == run && k.attempt == attempt
      ensures exists i :: i in stored && i < |more| && lines[k] in more[i]
    {
      var i :| i in stored && i < |batches| && lines[k] in batches[i];
      assert lines[k] in more[i];
    }
  }

  // Every line of a batch not yet stored is new, so the conflict rule drops none.
  lemma BatchIsNew(before: map<LogKey, LogLine>, run: RunId, attempt: nat,
                   batches: seq<seq<LogLine>>, buf: seq<LogLine>, stored: set<nat>, n: nat, l: LogLine)
    requires Numbered(Flat(batches) + buf, attempt) && OnlyStored(before, run, attempt, batches, stored)
    requires n < |batches| && n !in stored && l in batches[n]
    requires forall k | k in before :: before[k].seqNo == k.seqNo
    ensures LogKey(run, attempt, l.seqNo) !in before
  {
    var key := LogKey(run, attempt, l.seqNo);
    if key in before {
      var i :| i in stored && i < |batches| && before[key] in batches[i];
      SameNumberSameBatch(batches, buf, attempt, i, n, before[key], l);
    }
  }

  lemma HoldsMore(before: map<LogKey, LogLine>, after: map<LogKey, LogLine>, run: RunId, attempt: nat,
                  batches: seq<seq<LogLine>>, buf: seq<LogLine>, stored: set<nat>, n: nat)
    requires Numbered(Flat(batches) + buf, attempt) && Holds(before, run, attempt, batches, stored)
    requires n < |batches| && n !in stored && Appends(before, after, run, attempt, batches[n])
    requires forall k | k in before :: before[k].seqNo == k.seqNo
    ensures Holds(after, run, attempt, batches, stored + {n})
  {
    hide Numbered, Flat, OnlyStored;
    OnlyStoredMore(before, after, run, attempt, batches, stored, n);
    forall i, l | i in stored + {n} && i < |batches| && l in batches[i]
      ensures LogKey(run, attempt, l.seqNo) in after && after[LogKey(run, attempt, l.seqNo)] == l
    {
      if i == n {
        BatchIsNew(before, run, attempt, batches, buf, stored, n, l);
        SameNumberSameBatch(batches, buf, attempt, n, n, after[LogKey(run, attempt, l.seqNo)], l);
      }
    }
  }

  lemma OnlyStoredMore(before: map<LogKey, LogLine>, after: map<LogKey, LogLine>, run: RunId, attempt: nat,
                       batches: seq<seq<LogLine>>, stored: set<nat>, n: nat)
    requires OnlyStored(before, run, attempt, batches, stored)
    requires n < |batches| && Appends(before, after, run, attempt, batches[n])
    ensures OnlyStored(after, run, attempt, batches, stored + {n})
  {
    forall k | k in after && k.run == run && k.attempt == attempt
      ensures exists i :: i in stored + {n} && i < |batches| && after[k] in batches[i]
    {
      if k in before {
        var i :| i in stored && i < |batches| && before[k] in batches[i];
        assert i in stored + {n} && after[k] in batches[i];
      } else {
        assert n in stored + {n} && after[k] in batches[n];
      }
    }
  }

  lemma BatchIsDistinct(batches: seq<seq<LogLine>>, buf: seq<LogLine>, attempt: nat, n: nat)
    requires Numbered(Flat(batches) + buf, attempt) && n < |batches|
    ensures forall i, j | 0 <= i < j < |batches[n]| :: batches[n][i].seqNo != batches[n][j].seqNo
    ensures forall l | l in batches[n] :: l.attempt == attempt
  {
    forall i | 0 <= i < |batches[n]|
      ensures batches[n][i].seqNo == Start(batches, n) + i + 1 && batches[n][i].attempt == attempt
    {
      NumberedBatch(batches, buf, attempt, n, i);
    }
  }

  // A new last batch holds only lines later than those stored.
  lemma LaterBatch(before: map<LogKey, LogLine>, after: map<LogKey, LogLine>, run: RunId, attempt: nat,
                   batches: seq<seq<LogLine>>, buf: seq<LogLine>, stored: set<nat>, x: LogKey, y: LogKey)
    requires Numbered(Flat(batches) + buf, attempt) && OnlyStored(before, run, attempt, batches, stored)
    requires batches != [] && |batches| - 1 !in stored
    requires Appends(before, after, run, attempt, batches[|batches| - 1])
    requires forall k | k in after :: after[k].seqNo == k.seqNo
    requires x in before && x.run == run && x.attempt == attempt && y in after && y !in before
    ensures x.seqNo < y.seqNo
  {
    hide Flat, Numbered, Start;
    var n := |batches| - 1;
    var i :| i in stored && i < |batches| && before[x] in batches[i];
    var a :| 0 <= a < |batches[i]| && batches[i][a] == before[x];
    var b :| 0 <= b < |batches[n]| && batches[n][b] == after[y];
    assert before[x].seqNo == x.seqNo by {
      assert after[x] == before[x];
    }
    NumberedBatch(batches, buf, attempt, i, a);
    NumberedBatch(batches, buf, attempt, n, b);
    StartsFollow(batches, i, n);
  }

  // Rows stay, and the new ones are of one attempt.
  ghost predicate AddsTo(before: map<LogKey, LogLine>, after: map<LogKey, LogLine>, run: RunId, attempt: nat) {
    && (forall k | k in before :: k in after && after[k] == before[k])
    && forall k | k in after && k !in before :: k.run == run && k.attempt == attempt
  }

  // The attempt's new rows come after its old ones.
  ghost predicate AddsLater(before: map<LogKey, LogLine>, after: map<LogKey, LogLine>, run: RunId, attempt: nat) {
    forall x, y | x in before && x.run == run && x.attempt == attempt && y in after && y !in before :: x.seqNo < y.seqNo
  }

  // Rows added under another attempt leave this one's alone.
  lemma OthersKeepHolds(before: map<LogKey, LogLine>, after: map<LogKey, LogLine>, run: RunId, attempt: nat,
                        batches: seq<seq<LogLine>>, stored: set<nat>, run': RunId, attempt': nat)
    requires Holds(before, run, attempt, batches, stored) && AddsTo(before, after, run', attempt')
    requires run != run' || attempt != attempt'
    ensures Holds(after, run, attempt, batches, stored)
  {
  }

  // The lines are the messages, numbered from 1.
  ghost predicate Logs(lines: seq<LogLine>, attempt: nat, messages: seq<Message>) {
    && |lines| == |messages|
    && forall i | 0 <= i < |lines| ::
         lines[i].attempt == attempt && lines[i].seqNo == i + 1 && lines[i].level == messages[i].level && lines[i].line == messages[i].line
  }

  lemma AddedLater(before: map<LogKey, LogLine>, after: map<LogKey, LogLine>, run: RunId, attempt: nat,
                   batches: seq<seq<LogLine>>, buf: seq<LogLine>, stored: set<nat>, n: nat)
    requires Numbered(Flat(batches) + buf, attempt) && OnlyStored(before, run, attempt, batches, stored)
    requires n < |batches| && n !in stored && Appends(before, after, run, attempt, batches[n])
    requires forall k | k in after :: after[k].seqNo == k.seqNo
    ensures n == |batches| - 1 ==> AddsLater(before, after, run, attempt)
  {
    if n == |batches| - 1 {
      forall x, y | x in before && x.run == run && x.attempt == attempt && y in after && y !in before ensures x.seqNo < y.seqNo {
        LaterBatch(before, after, run, attempt, batches, buf, stored, x, y);
      }
    }
  }

  lemma AddsMore(a: map<LogKey, LogLine>, b: map<LogKey, LogLine>, c: map<LogKey, LogLine>, run: RunId, attempt: nat)
    requires AddsTo(a, b, run, attempt) && AddsTo(b, c, run, attempt)
    ensures AddsTo(a, c, run, attempt)
    ensures AddsLater(a, b, run, attempt) && AddsLater(b, c, run, attempt) ==> AddsLater(a, c, run, attempt)
  {
  }

  lemma AddsNothing(a: map<LogKey, LogLine>, run: RunId, attempt: nat)
    ensures AddsTo(a, a, run, attempt) && AddsLater(a, a, run, attempt)
  {
  }

  // A buffer that is all a logger holds back is part of what it logged.
  lemma BufferIsLogged(batches: seq<seq<LogLine>>, buf: seq<LogLine>)
    ensures |buf| <= |Flat(batches) + buf|
  {
  }

  // Where the two goroutines are, and what they have done.
  datatype Point = Point(
    lastSeq: nat,
    buf: seq<LogLine>,
    phase: Phase,
    full: bool,
    tickerDone: bool,
    batches: seq<seq<LogLine>>,
    job: Option<nat>,
    ticker: Option<nat>,
    settled: set<nat>,
    stored: set<nat>)
  {
    // The batches once the buffer is swapped out, and the one this makes, if any.
    function Swapped(): seq<seq<LogLine>> {
      if buf == [] then batches else batches + [buf]
    }

    function NewBatch(): Option<nat> {
      if buf == [] then None else Some(|batches|)
    }
  }

  // Whether a goroutine is at the point where it makes this move.
  predicate Ready(p: Point, messages: seq<Message>, m: Move) {
    match m
    case LogNext(_) => p.phase.Logging? && !p.full && p.job.None? && p.lastSeq < |messages|
    case JobTakes => (p.phase.Logging? && p.full) || (p.phase.Stopping? && p.tickerDone)
    case JobWrites(_) => p.job.Some?
    case TickerTakes => !p.tickerDone && p.ticker.None?
    case TickerWrites(_) => p.ticker.Some?
    case CloseStop => p.phase.Logging? && !p.full && p.job.None? && p.lastSeq == |messages|
    case TickerExits => p.phase.Stopping? && p.ticker.None?
    case CloseReturns => p.phase.LastFlush? && p.job.None?
  }

  // What a move does, if a goroutine is at that point.
  function Moved(p: Point, attempt: nat, maxBatch: nat, messages: seq<Message>, m: Move): Point {
    if !Ready(p, messages, m) then p
    else
      match m
      case LogNext(ts) =>
        var line := LogLine(attempt, p.lastSeq + 1, ts, messages[p.lastSeq].level, messages[p.lastSeq].line);
        p.(lastSeq := p.lastSeq + 1, buf := p.buf + [line], full := |p.buf| + 1 >= maxBatch)
      case JobTakes =>
        p.(buf := [], batches := p.Swapped(), job := p.NewBatch(), full := false,
           phase := if p.phase.Stopping? then LastFlush else p.phase)
      case JobWrites(stored) =>
        p.(job := None, settled := p.settled + {p.job.value}, stored := p.stored + if stored then {p.job.value} else {})
      case TickerTakes => p.(buf := [], batches := p.Swapped(), ticker := p.NewBatch())
      case TickerWrites(stored) =>
        p.(ticker := None, settled := p.settled + {p.ticker.value}, stored := p.stored + if stored then {p.ticker.value} else {})
      case CloseStop => p.(phase := Stopping)
      case TickerExits => p.(tickerDone := true)
      case CloseReturns => p.(phase := Closed)
  }

  // The batch a move brings to the table, if any.
  function Arriving(p: Point, m: Move): Option<nat> {
    if m.JobWrites? && m.stored then p.job else if m.TickerWrites? && m.stored then p.ticker else None
  }

  function Played(p: Point, attempt: nat, maxBatch: nat, messages: seq<Message>, script: seq<Move>): Point {
    if script == [] then p
    else Moved(Played(p, attempt, maxBatch, messages, script[..|script| - 1]), attempt, maxBatch, messages, script[|script| - 1])
  }

  predicate Reaches(m: Move) {
    (m.JobWrites? ==> m.stored) && (m.TickerWrites? ==> m.stored)
  }

  // No move goes back: lines, phases and, while no write is lost, what is stored.
  lemma MovesOn(p: Point, attempt: nat, maxBatch: nat, messages: seq<Message>, m: Move)
    ensures var p' := Moved(p, attempt, maxBatch, messages, m);
            && p'.lastSeq >= p.lastSeq && (!p.phase.Logging? ==> !p'.phase.Logging?)
            && (p.phase.Closed? && p.job.None? && p.ticker.None? && p.tickerDone ==> p' == p && Arriving(p, m).None?)
            && (p.stored == p.settled && Reaches(m) ==> p'.stored == p'.settled)
  {
  }

  class RunLogger {
    const table: LogTable
    const runId: RunId
    const attempt: nat
    const maxBatch: nat
    ghost const alone: bool  // nobody had written under this (run, attempt) before

    var lastSeq: nat
    var buf: seq<LogLine>
    var phase: Phase
    var full: bool              // Log found the buffer full and must flush
    var tickerDone: bool

    // Buffers swapped out by flush, in order; which of them each goroutine is
    // writing; those whose write has returned, and those that reached the table.
    var batches: seq<seq<LogLine>>
    var job: Option<nat>
    var ticker: Option<nat>
    var settled: set<nat>
    var stored: set<nat>

    ghost function At(): Point
      reads this
    {
      Point(lastSeq, buf, phase, full, tickerDone, batches, job, ticker, settled, stored)
    }

    // Every line logged so far, in order.
    ghost function Logged(): seq<LogLine>
      reads this
    {
      Flat(batches) + buf
    }

    // No line is lost, and no batch is larger than the limit.
    ghost predicate Buffered()
      reads this
    {
      && maxBatch >= 1
      && |Logged()| == lastSeq
      && Numbered(Logged(), attempt)
      && (forall i | 0 <= i < |batches| :: 0 < |batches[i]| <= maxBatch)
      && |buf| <= maxBatch
      && (|buf| == maxBatch ==> full)
    }

    // Each batch is with exactly one goroutine until its write returns.
    ghost predicate Tracked()
      reads this
    {
      && stored <= settled
      && (forall i | i in settled :: i < |batches| && job != Some(i) && ticker != Some(i))
      && (job.Some? ==> job.value < |batches| && job != ticker)
      && (ticker.Some? ==> ticker.value < |batches| && !tickerDone)
      && (forall i | 0 <= i < |batches| :: i in settled || job == Some(i) || ticker == Some(i))
      && (full ==> phase.Logging? && job.None?)
      && (phase.Logging? ==> !tickerDone)
      && (phase.Stopping? ==> job.None?)
      && (phase.LastFlush? || phase.Closed? ==> tickerDone && buf == [])
      && (phase.Closed? ==> job.None?)
    }

    // An attempt that logs less than a batch has one flusher at a time, and it
    // holds the last batch.
    ghost predicate OneFlusher()
      reads this
    {
      lastSeq < maxBatch ==>
        && !full
        && (job.Some? ==> job.value == |batches| - 1 && tickerDone)
        && (ticker.Some? ==> ticker.value == |batches| - 1)
    }

    ghost predicate Valid()
      reads this, table
    {
      && Buffered() && Tracked() && OneFlusher() && table.Valid()
      && (alone ==> Holds(table.lines, runId, attempt, batches, stored))
    }

    constructor (table: LogTable, runId: RunId, attempt: nat, maxBatch: nat)
      requires maxBatch >= 1 && table.Valid()
      ensures Valid() && lastSeq == 0 && phase == Logging && !full && Logged() == [] && buf == []
      ensures batches == [] && job.None? && ticker.None? && settled == stored == {}
      ensures this.table == table && this.runId == runId && this.attempt == attempt && this.maxBatch == maxBatch
      ensures alone <==> forall k | k in table.lines :: k.run != runId || k.attempt != attempt
    {
      this.table := table;
      this.runId := runId;
      this.attempt := attempt;
      this.maxBatch := maxBatch;
      this.alone := forall k | k in table.lines :: k.run != runId || k.attempt != attempt;
      lastSeq, buf, phase, full, tickerDone := 0, [], Logging, false, false;
      batches, job, ticker, settled, stored := [], None, None, {}, {};
    }

    // Log, up to releasing the mutex.
    method Log(ts: Time, level: string, line: string)
      requires Valid() && phase.Logging? && !full && job.None?
      modifies this`lastSeq, this`buf, this`full
      ensures Valid()
      ensures Logged() == old(Logged()) + [LogLine(attempt, lastSeq, ts, level, line)]
      ensures lastSeq == old(lastSeq) + 1
      ensures buf == old(buf) + [LogLine(attempt, lastSeq, ts, level, line)] && (full <==> |buf| >= maxBatch)
    {
      hide Holds;
      lastSeq := lastSeq + 1;
      var l := LogLine(attempt, lastSeq, ts, level, line);
      assert Flat(batches) + (buf + [l]) == (Flat(batches) + buf) + [l];
      buf := buf + [l];
      full := |buf| >= maxBatch;
      BufferIsLogged(batches, buf);
    }

    // flush, up to releasing the mutex: swap the buffer out.
    method Swap() returns (batch: Option<nat>)
      modifies this`buf, this`batches
      ensures buf == [] && Logged() == old(Logged())
      ensures batches == if old(buf) == [] then old(batches) else old(batches) + [old(buf)]
      ensures batch == if old(buf) == [] then None else Some(|old(batches)|)
    {
      if buf == [] {
        return None;
      }
      batch := Some(|batches|);
      assert (batches + [buf])[..|batches|] == batches;
      batches := batches + [buf];
      buf := [];
    }

    // The job's goroutine flushes: a full buffer, or the last one inside Close.
    method JobTakes()
      requires Valid() && ((phase.Logging? && full) || (phase.Stopping? && tickerDone))
      modifies this`buf, this`batches, this`job, this`full, this`phase
      ensures Valid() && Logged() == old(Logged()) && buf == [] && !full
      ensures batches == if old(buf) == [] then old(batches) else old(batches) + [old(buf)]
      ensures job == if old(buf) == [] then None else Some(|old(batches)|)
      ensures phase == if old(phase).Stopping? then LastFlush else old(phase)
    {
      hide Flat, Numbered, AllStored, OnlyStored;
      if alone {
        HoldsTaken(table.lines, runId, attempt, batches, buf, stored);
      }
      hide Holds;
      job := Swap();
      full := false;
      if phase.Stopping? {
        phase := LastFlush;
      }
    }

    method TickerTakes()
      requires Valid() && !tickerDone && ticker.None?
      modifies this`buf, this`batches, this`ticker
      ensures Valid() && Logged() == old(Logged()) && buf == []
      ensures batches == if old(buf) == [] then old(batches) else old(batches) + [old(buf)]
      ensures ticker == if old(buf) == [] then None else Some(|old(batches)|)
    {
      hide Flat, Numbered, AllStored, OnlyStored;
      if alone {
        HoldsTaken(table.lines, runId, attempt, batches, buf, stored);
      }
      hide Holds;
      ticker := Swap();
    }

    // AppendLogs of batch n. It may fail, with or without having stored the
    // batch; the logger drops the lines either way.
    method Append(n: nat, reaches: bool)
      requires Valid() && n < |batches| && n !in settled
      modifies table`lines, this`stored
      ensures table.lines == if reaches then Appended(old(table.lines), runId, attempt, batches[n]) else old(table.lines)
      ensures table.Valid() && AddsTo(old(table.lines), table.lines, runId, attempt)
      ensures alone ==> Holds(table.lines, runId, attempt, batches, stored)
      ensures alone && n == |batches| - 1 ==> AddsLater(old(table.lines), table.lines, runId, attempt)
      ensures stored == if reaches then old(stored) + {n} else old(stored)
    {
      if reaches {
        BatchIsDistinct(batches, buf, attempt, n);
        ghost var before := table.lines;
        ghost var was := stored;
        hide Flat, Numbered, AllStored, OnlyStored;
        table.AppendLogs(runId, attempt, batches[n]);
        assert Appends(before, table.lines, runId, attempt, batches[n]);
        if alone {
          HoldsMore(before, table.lines, runId, attempt, batches, buf, was, n);
          AddedLater(before, table.lines, runId, attempt, batches, buf, was, n);
        }
        stored := stored + {n};
      }
    }

    method JobWrites(reaches: bool)
      requires Valid() && job.Some?
      modifies table`lines, this`job, this`settled, this`stored
      ensures Valid() && job.None? && Logged() == old(Logged()) && settled == old(settled) + {old(job).value}
      ensures stored == if reaches then old(stored) + {old(job).value} else old(stored)
      ensures table.lines == if reaches then Appended(old(table.lines), runId, attempt, batches[old(job).value]) else old(table.lines)
      ensures AddsTo(old(table.lines), table.lines, runId, attempt)
      ensures alone && lastSeq < maxBatch ==> AddsLater(old(table.lines), table.lines, runId, attempt)
    {
      hide Flat, Numbered, Holds, AddsTo, AddsLater;
      Append(job.value, reaches);
      settled := settled + {job.value};
      job := None;
    }

    method TickerWrites(reaches: bool)
      requires Valid() && ticker.Some?
      modifies table`lines, this`ticker, this`settled, this`stored
      ensures Valid() && ticker.None? && Logged() == old(Logged()) && settled == old(settled) + {old(ticker).value}
      ensures stored == if reaches then old(stored) + {old(ticker).value} else old(stored)
      ensures table.lines == if reaches then Appended(old(table.lines), runId, attempt, batches[old(ticker).value]) else old(table.lines)
      ensures AddsTo(old(table.lines), table.lines, runId, attempt)
      ensures alone && lastSeq < maxBatch ==> AddsLater(old(table.lines), table.lines, runId, attempt)
    {
      hide Flat, Numbered, Holds, AddsTo, AddsLater;
      Append(ticker.value, reaches);
      settled := settled + {ticker.value};
      ticker := None;
    }

    // Close: close(stop), ...
    method Stop()
      requires Valid() && phase.Logging? && !full && job.None?
      modifies this`phase
      ensures Valid() && phase.Stopping? && Logged() == old(Logged())
    {
      hide Flat, Numbered, Holds;
      phase := Stopping;
    }

    // ... <-done ...
    method AwaitTicker()
      requires Valid() && phase.Stopping? && ticker.None?
      modifies this`tickerDone
      ensures Valid() && tickerDone && Logged() == old(Logged())
    {
      hide Flat, Numbered, Holds;
      tickerDone := true;
    }

    // ... and, its last flush behind it, the return.
    method Return()
      requires Valid() && phase.LastFlush? && job.None?
      modifies this`phase
      ensures Valid() && phase.Closed? && Logged() == old(Logged())
    {
      hide Flat, Numbered, Holds;
      phase := Closed;
    }

    // The job has logged the first lastSeq of its messages, and stops logging
    // only when that is all of them.
    ghost predicate Speaks(messages: seq<Message>)
      reads this
    {
      && lastSeq <= |messages| && Logs(Logged(), attempt, messages[..lastSeq])
      && (!phase.Logging? ==> lastSeq == |messages|)
    }

    method LogNext(messages: seq<Message>, ts: Time)
      requires Valid() && Speaks(messages) && phase.Logging? && !full && job.None? && lastSeq < |messages|
      modifies this`lastSeq, this`buf, this`full
      ensures Valid() && Speaks(messages) && lastSeq == old(lastSeq) + 1
      ensures buf == old(buf) + [LogLine(attempt, lastSeq, ts, messages[lastSeq - 1].level, messages[lastSeq - 1].line)]
      ensures full <==> |buf| >= maxBatch
    {
      hide Buffered, Tracked, OneFlusher, Holds;
      var m := messages[lastSeq];
      assert messages[..lastSeq + 1] == messages[..lastSeq] + [m];
      Log(ts, m.level, m.line);
    }

    lemma ClosedIsIdle()
      requires Valid()
      ensures phase.Closed? ==> job.None? && ticker.None? && tickerDone
    {
      hide Buffered, OneFlusher, Holds;
    }

    // What a goroutine does next, if it is at that point; else nothing.
    method Turn(messages: seq<Message>, move: Move)
      requires Valid() && Speaks(messages)
      modifies this, table`lines
      ensures Valid() && Speaks(messages)
      ensures At() == Moved(old(At()), attempt, maxBatch, messages, move)
      ensures table.lines == if Arriving(old(At()), move).Some?
                             then Appended(old(table.lines), runId, attempt, batches[Arriving(old(At()), move).value])
                             else old(table.lines)
      ensures AddsTo(old(table.lines), table.lines, runId, attempt)
      ensures alone && lastSeq < maxBatch ==> AddsLater(old(table.lines), table.lines, runId, attempt)
    {
      hide Valid, Logged, Logs, AddsLater, AddsTo, Appended;
      AddsNothing(table.lines, runId, attempt);
      match move {
        case LogNext(ts) =>
          if phase.Logging? && !full && job.None? && lastSeq < |messages| {
            LogNext(messages, ts);
          }
        case JobTakes =>
          if (phase.Logging? && full) || (phase.Stopping? && tickerDone) {
            JobTakes();
          }
        case JobWrites(reaches) =>
          if job.Some? {
            JobWrites(reaches);
          }
        case TickerTakes =>
          if !tickerDone && ticker.None? {
            TickerTakes();
          }
        case TickerWrites(reaches) =>
          if ticker.Some? {
            TickerWrites(reaches);
          }
        case CloseStop =>
          if phase.Logging? && !full && job.None? && lastSeq == |messages| {
            Stop();
          }
        case TickerExits =>
          if phase.Stopping? && ticker.None? {
            AwaitTicker();
          }
        case CloseReturns =>
          if phase.LastFlush? && job.None? {
            Return();
          }
      }
    }

    // Any interleaving of the job's goroutine, logging its messages, and the ticker.
    method Play(messages: seq<Message>, script: seq<Move>)
      requires Valid() && Speaks(messages)
      modifies this, table`lines
      ensures Valid() && Speaks(messages) && lastSeq >= old(lastSeq)
      ensures At() == Played(old(At()), attempt, maxBatch, messages, script)
      ensures AddsTo(old(table.lines), table.lines, runId, attempt)
      ensures alone && lastSeq < maxBatch ==> AddsLater(old(table.lines), table.lines, runId, attempt)
      ensures !old(phase).Logging? ==> !phase.Logging?
      ensures old(phase).Closed? ==> phase.Closed? && table.lines == old(table.lines)
      ensures old(stored) == old(settled) && (forall m | m in script :: Reaches(m)) ==> stored == settled
    {
      for i := 0 to |script|
        invariant Valid() && Speaks(messages) && lastSeq >= old(lastSeq)
        invariant At() == Played(old(At()), attempt, maxBatch, messages, script[..i])
        invariant AddsTo(old(table.lines), table.lines, runId, attempt)
        invariant alone && lastSeq < maxBatch ==> AddsLater(old(table.lines), table.lines, runId, attempt)
        invariant !old(phase).Logging? ==> !phase.Logging?
        invariant old(phase).Closed? ==> phase.Closed? && table.lines == old(table.lines)
        invariant old(stored) == old(settled) && (forall m | m in script :: Reaches(m)) ==> stored == settled
      {
        assert script[..i + 1][..i] == script[..i];
        ClosedIsIdle();
        hide Valid, Speaks, AddsTo, AddsLater, Moved, Appended;
        ghost var before, was := table.lines, At();
        Turn(messages, script[i]);
        MovesOn(was, attempt, maxBatch, messages, script[i]);
        AddsMore(old(table.lines), before, table.lines, runId, attempt);
      }
      assert script[..|script|] == script;
    }

    // flush, once the buffer is swapped out, or the buffer is full.
    method Flush(messages: seq<Message>, reaches: bool)
      requires Valid() && Speaks(messages) && (phase.Logging? || phase.LastFlush?)
      modifies this`buf, this`batches, this`job, this`full, this`phase, this`settled, this`stored, table`lines
      ensures Valid() && Speaks(messages) && phase == old(phase) && !full && job.None?
      ensures AddsTo(old(table.lines), table.lines, runId, attempt)
      ensures alone && lastSeq < maxBatch ==> AddsLater(old(table.lines), table.lines, runId, attempt)
      ensures old(stored) == old(settled) && reaches ==> stored == settled
    {
      hide Buffered, OneFlusher, Holds, Logs;
      if full {
        JobTakes();
      }
      if job.Some? {
        JobWrites(reaches);
      }
    }

    // The job logs the rest of its messages.
    method FinishLogging(messages: seq<Message>, ts: Time, reaches: bool)
      requires Valid() && Speaks(messages) && phase.Logging?
      modifies this, table`lines
      ensures Valid() && Speaks(messages) && phase.Logging? && !full && job.None? && lastSeq == |messages|
      ensures AddsTo(old(table.lines), table.lines, runId, attempt)
      ensures alone && lastSeq < maxBatch ==> AddsLater(old(table.lines), table.lines, runId, attempt)
      ensures old(stored) == old(settled) && reaches ==> stored == settled
    {
      Flush(messages, reaches);
      SpeaksBound(messages);
      while lastSeq < |messages|
        invariant Valid() && Speaks(messages) && phase.Logging? && !full && job.None? && lastSeq <= |messages|
        invariant AddsTo(old(table.lines), table.lines, runId, attempt)
        invariant alone && lastSeq < maxBatch ==> AddsLater(old(table.lines), table.lines, runId, attempt)
        invariant old(stored) == old(settled) && reaches ==> stored == settled
      {
        hide Valid, Speaks, AddsTo, AddsLater;
        ghost var before := table.lines;
        LogNext(messages, ts);
        Flush(messages, reaches);
        AddsMore(old(table.lines), before, table.lines, runId, attempt);
        SpeaksBound(messages);
      }
    }

    lemma SpeaksBound(messages: seq<Message>)
      requires Speaks(messages)
      ensures lastSeq <= |messages| && (!phase.Logging? ==> lastSeq == |messages|)
    {
    }

    // <-done: the ticker writes what it holds, if anything, and exits.
    method EndTicker(messages: seq<Message>, reaches: bool)
      requires Valid() && Speaks(messages) && phase.Stopping?
      modifies this`ticker, this`tickerDone, this`settled, this`stored, table`lines
      ensures Valid() && Speaks(messages) && tickerDone
      ensures AddsTo(old(table.lines), table.lines, runId, attempt)
      ensures alone && lastSeq < maxBatch ==> AddsLater(old(table.lines), table.lines, runId, attempt)
      ensures old(stored) == old(settled) && reaches ==> stored == settled
    {
      hide Buffered, Tracked, OneFlusher, Holds, Logs, AddsTo, AddsLater;
      AddsNothing(table.lines, runId, attempt);
      if ticker.Some? {
        TickerWrites(reaches);
      }
      AwaitTicker();
    }

    // The last flush of the job's goroutine, and the return.
    method FlushLast(messages: seq<Message>, reaches: bool)
      requires Valid() && Speaks(messages) && ((phase.Stopping? && tickerDone) || phase.LastFlush?)
      modifies this`buf, this`batches, this`job, this`full, this`phase, this`settled, this`stored, table`lines
      ensures Valid() && Speaks(messages) && phase.Closed?
      ensures AddsTo(old(table.lines), table.lines, runId, attempt)
      ensures alone && lastSeq < maxBatch ==> AddsLater(old(table.lines), table.lines, runId, attempt)
      ensures old(stored) == old(settled) && reaches ==> stored == settled
    {
      hide Buffered, Tracked, OneFlusher, Holds, Logs, AddsTo, AddsLater;
      if phase.Stopping? {
        JobTakes();
      }
      Flush(messages, reaches);
      Return();
    }

    // Close, past close(stop), on to its return.
    method FinishClosing(messages: seq<Message>, reaches: bool)
      requires Valid() && Speaks(messages) && !phase.Logging?
      modifies this, table`lines
      ensures Valid() && Speaks(messages) && phase.Closed?
      ensures AddsTo(old(table.lines), table.lines, runId, attempt)
      ensures alone && lastSeq < maxBatch ==> AddsLater(old(table.lines), table.lines, runId, attempt)
      ensures old(stored) == old(settled) && reaches ==> stored == settled
    {
      hide Valid, Speaks, AddsTo, AddsLater;
      AddsNothing(table.lines, runId, attempt);
      if phase.Stopping? {
        EndTicker(messages, reaches);
      }
      ghost var before := table.lines;
      if !phase.Closed? {
        FlushLast(messages, reaches);
        AddsMore(old(table.lines), before, table.lines, runId, attempt);
      }
    }

    // Close: `script` is what the two goroutines do after close(stop), as far as
    // it goes; the ticker may still tick.
    method Close(messages: seq<Message>, script: seq<Move>, reaches: bool)
      requires Valid() && Speaks(messages) && phase.Logging? && !full && job.None? && lastSeq == |messages|
      modifies this, table`lines
      ensures Valid() && Speaks(messages) && phase.Closed?
      ensures AddsTo(old(table.lines), table.lines, runId, attempt)
      ensures alone && lastSeq < maxBatch ==> AddsLater(old(table.lines), table.lines, runId, attempt)
      ensures old(stored) == old(settled) && reaches && (forall m | m in script :: Reaches(m)) ==> stored == settled
    {
      StopSpeaking(messages);
      hide Valid, Speaks, AddsTo, AddsLater;
      Play(messages, script);
      ghost var before := table.lines;
      FinishClosing(messages, reaches);
      AddsMore(old(table.lines), before, table.lines, runId, attempt);
    }

    method StopSpeaking(messages: seq<Message>)
      requires Valid() && Speaks(messages) && phase.Logging? && !full && job.None? && lastSeq == |messages|
      modifies this`phase
      ensures Valid() && Speaks(messages) && phase.Stopping?
    {
      hide Buffered, Tracked, OneFlusher, Holds, Logs;
      Stop();
    }

    // From wherever the goroutines are, on to the return of Close.
    method Finish(messages: seq<Message>, ts: Time, reaches: bool)
      requires Valid() && Speaks(messages)
      modifies this, table`lines
      ensures Valid() && Speaks(messages) && phase.Closed?
      ensures AddsTo(old(table.lines), table.lines, runId, attempt)
      ensures alone && lastSeq < maxBatch ==> AddsLater(old(table.lines), table.lines, runId, attempt)
      ensures old(stored) == old(settled) && reaches ==> stored == settled
    {
      hide Valid, Speaks, AddsTo, AddsLater;
      if phase.Logging? {
        FinishLogging(messages, ts, reaches);
        ghost var before := table.lines;
        Close(messages, [], reaches);
        SpeaksBound(messages);
        AddsMore(old(table.lines), before, table.lines, runId, attempt);
      } else {
        FinishClosing(messages, reaches);
      }
    }
  }

  // When Close has returned, the batches are the log cut into consecutive
  // pieces of at most maxBatch lines, each written once.
  lemma ClosedLogIsFlushed(l: RunLogger)
    requires l.Valid() && l.phase.Closed?
    ensures |Flat(l.batches)| == l.lastSeq && Numbered(Flat(l.batches), l.attempt)
    ensures forall i | 0 <= i < |l.batches| :: i in l.settled && 0 < |l.batches[i]| <= l.maxBatch
    ensures forall i, j | 0 <= i < |l.batches| && 0 <= j < |l.batches[i]| :: l.batches[i][j].seqNo == Start(l.batches, i) + j + 1
  {
    assert l.Logged() == Flat(l.batches);
    forall i, j | 0 <= i < |l.batches| && 0 <= j < |l.batches[i]|
      ensures l.batches[i][j].seqNo == Start(l.batches, i) + j + 1
    {
      NumberedBatch(l.batches, l.buf, l.attempt, i, j);
    }
  }

  lemma {:induction false} InSomeBatch(batches: seq<seq<LogLine>>, x: nat) returns (i: nat)
    requires x < |Flat(batches)|
    ensures i < |batches| && Flat(batches)[x] in batches[i]
    decreases |batches|
  {
    var init := batches[..|batches| - 1];
    if x < |Flat(init)| {
      i := InSomeBatch(init, x);
    } else {
      i := |batches| - 1;
      assert Flat(batches)[x] == batches[i][x - |Flat(init)|];
    }
  }

  lemma RowsAreNumbered(l: RunLogger)
    requires l.Valid() && l.alone
    ensures forall k | k in l.table.lines && k.run == l.runId && k.attempt == l.attempt :: k.seqNo >= 1
  {
    forall k | k in l.table.lines && k.run == l.runId && k.attempt == l.attempt ensures k.seqNo >= 1 {
      var i :| i in l.stored && i < |l.batches| && l.table.lines[k] in l.batches[i];
      var j :| 0 <= j < |l.batches[i]| && l.batches[i][j] == l.table.lines[k];
      NumberedBatch(l.batches, l.buf, l.attempt, i, j);
    }
  }

  // Line x + 1 of the log is a row ...
  ghost predicate IsRow(l: RunLogger, x: nat)
    reads l, l.table
  {
    var k := LogKey(l.runId, l.attempt, x + 1);
    x < |l.Logged()| && k in l.table.lines && l.table.lines[k] == l.Logged()[x]
  }

  // ... or in the batch a goroutine is about to write.
  ghost predicate IsWith(l: RunLogger, batch: Option<nat>, x: nat)
    reads l
  {
    batch.Some? && batch.value < |l.batches| && x < |l.Logged()| && l.Logged()[x] in l.batches[batch.value]
  }

  // With the buffer empty and no write lost, that is all there is.
  lemma LoggedIsStored(l: RunLogger, x: nat)
    requires l.Valid() && l.alone && l.buf == [] && l.stored == l.settled && x < |l.Logged()|
    ensures IsRow(l, x) || IsWith(l, l.job, x) || IsWith(l, l.ticker, x)
  {
    assert l.Logged() == Flat(l.batches);
    assert l.Logged()[x].seqNo == x + 1;
    hide Numbered;
    var i := InSomeBatch(l.batches, x);
    assert i in l.settled || l.job == Some(i) || l.ticker == Some(i);
  }

  lemma PlayedTwo(p: Point, attempt: nat, maxBatch: nat, messages: seq<Message>, a: Move, b: Move)
    ensures Played(p, attempt, maxBatch, messages, [a, b])
         == Moved(Moved(p, attempt, maxBatch, messages, a), attempt, maxBatch, messages, b)
  {
    hide Moved;
    assert [a, b][..1] == [a] && [a][..0] == [];
    assert Played(p, attempt, maxBatch, messages, [a]) == Moved(p, attempt, maxBatch, messages, a);
  }

  lemma TickMoves(p: Point, attempt: nat, maxBatch: nat, messages: seq<Message>)
    requires !p.tickerDone && p.ticker.None? && p.stored == p.settled
    ensures var p' := Played(p, attempt, maxBatch, messages, [TickerTakes, TickerWrites(true)]);
            && p'.buf == [] && p'.ticker.None? && p'.stored == p'.settled && p'.batches == p.Swapped()
            && p'.lastSeq == p.lastSeq && p'.phase == p.phase && p'.job == p.job
  {
    PlayedTwo(p, attempt, maxBatch, messages, TickerTakes, TickerWrites(true));
  }

  lemma FullMoves(p: Point, attempt: nat, maxBatch: nat, messages: seq<Message>)
    requires p.phase.Logging? && p.full && p.job.None? && p.stored == p.settled
    ensures var p' := Played(p, attempt, maxBatch, messages, [JobTakes, JobWrites(true)]);
            && p'.buf == [] && !p'.full && p'.job.None? && p'.stored == p'.settled && p'.batches == p.Swapped()
            && p'.lastSeq == p.lastSeq && p'.phase == p.phase && p'.ticker == p.ticker
  {
    PlayedTwo(p, attempt, maxBatch, messages, JobTakes, JobWrites(true));
  }

  lemma PlayedMore(p: Point, attempt: nat, maxBatch: nat, messages: seq<Message>, script: seq<Move>, m: Move)
    ensures Played(p, attempt, maxBatch, messages, script + [m])
         == Moved(Played(p, attempt, maxBatch, messages, script), attempt, maxBatch, messages, m)
  {
    assert (script + [m])[..|script|] == script;
  }

  // Waiting for the next message, with nothing to write first.
  ghost predicate AtLogging(q: Point, n: nat) {
    q.phase.Logging? && !q.full && q.job.None? && q.lastSeq == n && q.stored == q.settled
  }

  // A job's messages can all be logged: whenever the buffer is full it is written, and
  // the next one follows.
  lemma LogMoves(p: Point, attempt: nat, maxBatch: nat, messages: seq<Message>, ts: Time) returns (script: seq<Move>)
    requires AtLogging(p, p.lastSeq) && p.lastSeq <= |messages|
    ensures AtLogging(Played(p, attempt, maxBatch, messages, script), |messages|)
  {
    hide Moved, AtLogging;
    script := [];
    var q := p;
    assert Played(p, attempt, maxBatch, messages, []) == p;
    hide Played;
    for n := p.lastSeq to |messages|
      invariant Played(p, attempt, maxBatch, messages, script) == q && AtLogging(q, n)
    {
      LoggingMoves(q, attempt, maxBatch, messages, ts, n);
      for k := 0 to 3
        invariant Played(p, attempt, maxBatch, messages, script) == AfterMoves(q, attempt, maxBatch, messages, ts, k)
      {
        PlayedMore(p, attempt, maxBatch, messages, script, LoggingMove(ts, k));
        script := script + [LoggingMove(ts, k)];
      }
      q := AfterMoves(q, attempt, maxBatch, messages, ts, 3);
    }
  }

  function LoggingMove(ts: Time, k: nat): Move {
    if k == 0 then LogNext(ts) else if k == 1 then JobTakes else JobWrites(true)
  }

  function AfterMoves(q: Point, attempt: nat, maxBatch: nat, messages: seq<Message>, ts: Time, k: nat): Point {
    if k == 0 then q else Moved(AfterMoves(q, attempt, maxBatch, messages, ts, k - 1), attempt, maxBatch, messages, LoggingMove(ts, k - 1))
  }

  lemma LoggingMoves(q: Point, attempt: nat, maxBatch: nat, messages: seq<Message>, ts: Time, n: nat)
    requires AtLogging(q, n) && n < |messages|
    ensures AtLogging(AfterMoves(q, attempt, maxBatch, messages, ts, 3), n + 1)
  {
    var a := Moved(q, attempt, maxBatch, messages, LogNext(ts));
    assert AfterMoves(q, attempt, maxBatch, messages, ts, 1) == a;
    var b := Moved(a, attempt, maxBatch, messages, JobTakes);
    assert AfterMoves(q, attempt, maxBatch, messages, ts, 2) == b;
  }

  // Close comes to its end: with everything logged, the ticker lets go of what it
  // holds and exits, and the job's goroutine writes the rest and returns.
  lemma CloseMoves(p: Point, attempt: nat, maxBatch: nat, messages: seq<Message>) returns (script: seq<Move>)
    requires p.phase.Logging? && !p.full && p.job.None? && p.lastSeq == |messages| && p.stored == p.settled
    ensures var p' := Played(p, attempt, maxBatch, messages, script);
            && p'.phase.Closed? && p'.buf == [] && p'.job.None? && p'.ticker.None? && p'.tickerDone
            && p'.stored == p'.settled && p'.batches == p.Swapped() && p'.lastSeq == p.lastSeq
  {
    hide Moved;
    var moves := [CloseStop, TickerWrites(true), TickerExits, JobTakes, JobWrites(true), CloseReturns];
    script := [];
    var q := p;
    assert Played(p, attempt, maxBatch, messages, []) == p;
    hide Played;
    for i := 0 to 6
      invariant Played(p, attempt, maxBatch, messages, script) == q && AtClosing(p, q, i)
    {
      PlayedMore(p, attempt, maxBatch, messages, script, moves[i]);
      ClosingMove(p, q, attempt, maxBatch, messages, moves, i);
      script, q := script + [moves[i]], Moved(q, attempt, maxBatch, messages, moves[i]);
    }
  }

  // Where p is after the first i moves of its Close.
  ghost predicate AtClosing(p: Point, q: Point, i: nat) {
    && q.stored == q.settled && q.lastSeq == p.lastSeq && !q.full
    && (i == 0 ==> q == p)
    && (1 <= i <= 3 ==> q.phase.Stopping? && q.job.None? && q.buf == p.buf && q.batches == p.batches)
    && (i >= 2 ==> q.ticker.None?)
    && (i >= 3 ==> q.tickerDone)
    && (i >= 4 ==> q.buf == [] && q.batches == p.Swapped())
    && (i == 4 || i == 5 ==> q.phase.LastFlush?)
    && (i >= 5 ==> q.job.None?)
    && (i >= 6 ==> q.phase.Closed?)
  }

  lemma ClosingMove(p: Point, q: Point, attempt: nat, maxBatch: nat, messages: seq<Message>, moves: seq<Move>, i: nat)
    requires moves == [CloseStop, TickerWrites(true), TickerExits, JobTakes, JobWrites(true), CloseReturns] && i < 6
    requires p.phase.Logging? && !p.full && p.job.None? && p.lastSeq == |messages| && AtClosing(p, q, i)
    ensures AtClosing(p, Moved(q, attempt, maxBatch, messages, moves[i]), i + 1)
  {
  }

  // What the ticker is for: a second after a line is logged it is a row, whatever
  // the phase, unless the job is just writing it.
  method TickStores(l: RunLogger, messages: seq<Message>)
    requires l.Valid() && l.Speaks(messages) && l.alone && !l.tickerDone && l.ticker.None? && l.stored == l.settled
    modifies l, l.table`lines
    ensures l.Valid() && l.Speaks(messages) && l.lastSeq == old(l.lastSeq) && l.phase == old(l.phase) && l.job == old(l.job)
    ensures l.buf == [] && l.ticker.None? && l.stored == l.settled
    ensures forall x | 0 <= x < l.lastSeq :: IsRow(l, x) || IsWith(l, l.job, x)
  {
    hide Played, RunLogger.Logged, RunLogger.Valid, RunLogger.Speaks, AddsTo, AddsLater;
    LoggedSize(l);
    TickMoves(l.At(), l.attempt, l.maxBatch, messages);
    l.Play(messages, [TickerTakes, TickerWrites(true)]);
    LoggedSize(l);
    forall x | 0 <= x < l.lastSeq ensures IsRow(l, x) || IsWith(l, l.job, x) {
      LoggedIsStored(l, x);
    }
  }

  // A full buffer is written by the job before it goes on.
  method FullBufferStores(l: RunLogger, messages: seq<Message>)
    requires l.Valid() && l.Speaks(messages) && l.alone && l.full && l.stored == l.settled
    modifies l, l.table`lines
    ensures l.Valid() && l.Speaks(messages) && l.lastSeq == old(l.lastSeq) && l.phase == old(l.phase) && l.ticker == old(l.ticker)
    ensures l.buf == [] && !l.full && l.job.None? && l.stored == l.settled
    ensures forall x | 0 <= x < l.lastSeq :: IsRow(l, x) || IsWith(l, l.ticker, x)
  {
    hide Played, RunLogger.Logged, RunLogger.Valid, RunLogger.Speaks, AddsTo, AddsLater;
    LoggedSize(l);
    FullMoves(l.At(), l.attempt, l.maxBatch, messages);
    l.Play(messages, [JobTakes, JobWrites(true)]);
    LoggedSize(l);
    forall x | 0 <= x < l.lastSeq ensures IsRow(l, x) || IsWith(l, l.ticker, x) {
      LoggedIsStored(l, x);
    }
  }

  lemma LoggedSize(l: RunLogger)
    requires l.Valid()
    ensures |l.Logged()| == l.lastSeq && (l.full ==> l.phase.Logging? && l.job.None?)
    ensures l.job.Some? ==> l.job.value < |l.batches|
    ensures l.ticker.Some? ==> l.ticker.value < |l.batches|
  {
    hide Flat, Numbered, Holds;
  }

  // If no write was lost, the attempt's log is exactly lines 1 to seq, for a logger
  // that began with none.
  lemma ClosedLogIsPersisted(l: RunLogger)
    requires l.Valid() && l.alone && l.phase.Closed? && l.stored == l.settled
    ensures forall q: nat :: LogKey(l.runId, l.attempt, q) in l.table.lines <==> 1 <= q <= l.lastSeq
    ensures forall x | 0 <= x < |l.Logged()| :: l.table.lines[LogKey(l.runId, l.attempt, x + 1)] == l.Logged()[x]
  {
    ClosedLogIsFlushed(l);
    assert l.Logged() == Flat(l.batches);
    forall x | 0 <= x < |l.Logged()|
      ensures LogKey(l.runId, l.attempt, x + 1) in l.table.lines
      ensures l.table.lines[LogKey(l.runId, l.attempt, x + 1)] == l.Logged()[x]
    {
      var i := InSomeBatch(l.batches, x);
      assert i in l.stored;
    }
    forall q: nat | LogKey(l.runId, l.attempt, q) in l.table.lines ensures 1 <= q <= l.lastSeq {
      var key := LogKey(l.runId, l.attempt, q);
      var i :| i in l.stored && i < |l.batches| && l.table.lines[key] in l.batches[i];
      var j :| 0 <= j < |l.batches[i]| && l.batches[i][j] == l.table.lines[key];
      FlatAt(l.batches, i, j);
    }
    forall q: nat | 1 <= q <= l.lastSeq ensures LogKey(l.runId, l.attempt, q) in l.table.lines {
      assert l.Logged()[q - 1].seqNo == q;
    }
  }
}
