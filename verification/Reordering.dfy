// Two flushers can commit batches out of order: how a logger gets there, and
// what it does to the streams.
module Reordering {
  import opened Basics
  import opened Rows
  import opened LogPages
  import opened RunLog
  import opened Stream
  import opened StreamProofs
  import opened Completeness
  import opened Following

  // With the first line's batch still unwritten, the table holds later lines only.
  lemma FirstLineIsMissing(l: RunLogger)
    requires l.Valid() && l.alone && l.stored == {1} && |l.batches| == 2 && |l.batches[0]| == 1
    ensures LogKey(l.runId, l.attempt, 1) !in l.table.lines && LogKey(l.runId, l.attempt, 2) in l.table.lines
  {
    var first := [l.batches[0]];
    assert l.batches[..1] == first && first[..|first| - 1] == [] && first[|first| - 1] == l.batches[0];
    assert Flat(first) == Flat([]) + l.batches[0];
    assert Start(l.batches, 1) == 1;
    hide Flat, Start;
    var key := LogKey(l.runId, l.attempt, 1);
    if key in l.table.lines {
      var i :| i in l.stored && i < |l.batches| && l.table.lines[key] in l.batches[i];
      var j :| 0 <= j < |l.batches[1]| && l.batches[1][j] == l.table.lines[key];
      NumberedBatch(l.batches, l.buf, l.attempt, 1, j);
    }
    NumberedBatch(l.batches, l.buf, l.attempt, 1, 0);
    assert l.batches[1][0] in l.batches[1];
  }

  lemma FirstLineIsThere(l: RunLogger)
    requires l.Valid() && l.alone && 0 in l.stored && |l.batches| >= 1 && |l.batches[0]| >= 1
    ensures LogKey(l.runId, l.attempt, 1) in l.table.lines
  {
    assert l.batches[..0] == [];
    assert Start(l.batches, 0) == 0;
    hide Flat, Start;
    NumberedBatch(l.batches, l.buf, l.attempt, 0, 0);
    assert l.batches[0][0] in l.batches[0];
  }

  // Attempt 1 of a run, before and after its ticker's write.
  ghost function WorldBefore(lines: map<LogKey, LogLine>, run: RunId): World {
    World(1, Running, LinesOfRun(lines, run))
  }

  ghost function WorldAfter(lines: map<LogKey, LogLine>, run: RunId): World {
    World(1, Succeeded, LinesOfRun(lines, run))
  }

  lemma ReorderedLife(a: map<LogKey, LogLine>, b: map<LogKey, LogLine>, run: RunId, batch: nat)
    requires AddsTo(a, b, run, 1) && batch >= 1
    requires forall k | k in b :: k.run == run && k.attempt == 1 && k.seqNo >= 1
    requires LogKey(run, 1, 1) !in a && LogKey(run, 1, 2) in a && LogKey(run, 1, 1) in b
    ensures var h := [WorldBefore(a, run), WorldAfter(b, run)];
            Life(h) && NoneLate(h) && !InOrder(h) && !EveryStreamExact(h, batch)
  {
    var h := [WorldBefore(a, run), WorldAfter(b, run)];
    LinesAre(a, run);
    LinesAre(b, run);
    hide LinesOfRun, EveryStreamExact;
    forall i, k | 0 <= i < |h| && k in h[i].lines ensures k.attempt == 1 && k.seqNo >= 1 {
      assert k == LineKey(k.attempt, k.seqNo);
      assert LogKey(run, k.attempt, k.seqNo) in b;
    }
    forall k | k in h[0].lines ensures k in h[1].lines && h[1].lines[k] == h[0].lines[k] {
      assert k == LineKey(k.attempt, k.seqNo);
    }
    assert Extends(h[0], h[0]) && Extends(h[0], h[1]) && Extends(h[1], h[1]);
    assert !AddsInOrder(h[0], h[1]) by {
      assert LineKey(1, 1) in h[1].lines && LineKey(1, 1) !in h[0].lines && LineKey(1, 2) in h[0].lines;
    }
    assert NoneLate(h);
    ExactIffTimely(h, batch);
  }

  // The ticker takes the first line and is slow to write it; the job meanwhile
  // fills a whole buffer ...
  method FillBehindTicker(run: RunId, maxBatch: nat, ts: Time) returns (l: RunLogger)
    requires maxBatch >= 1
    ensures fresh(l) && fresh(l.table) && l.Valid() && l.alone && l.table.lines == map[]
    ensures l.runId == run && l.attempt == 1 && l.maxBatch == maxBatch && l.lastSeq == maxBatch + 1
    ensures l.phase.Logging? && l.full && l.job.None? && l.ticker == Some(0) && l.settled == l.stored == {}
    ensures |l.batches| == 1 && |l.batches[0]| == 1 && |l.buf| == maxBatch
  {
    hide Flat, RunLog.Numbered, Holds;
    var table := new LogTable();
    l := new RunLogger(table, run, 1, maxBatch);
    l.Log(ts, "info", "first");
    l.TickerTakes();
    if l.full {
      l.JobTakes();
    }
    for i := 0 to maxBatch
      invariant l.Valid() && l.phase.Logging? && l.job.None? && l.ticker == Some(0) && l.settled == l.stored == {}
      invariant |l.batches| == 1 && |l.batches[0]| == 1 && |l.buf| == i && l.lastSeq == i + 1
      invariant l.full <==> i == maxBatch
      invariant table.lines == map[]
    {
      hide RunLogger.Valid;
      l.Log(ts, "info", "more");
    }
  }

  // ... and its batch arrives first.
  method WriteBeforeTicker(l: RunLogger) returns (ghost a: map<LogKey, LogLine>)
    requires l.Valid() && l.alone && l.table.lines == map[]
    requires l.phase.Logging? && l.full && l.job.None? && l.ticker == Some(0) && l.settled == l.stored == {}
    requires |l.batches| == 1 && |l.batches[0]| == 1 && |l.buf| >= 1
    modifies l, l.table`lines
    ensures l.Valid() && l.stored == {0, 1} && l.lastSeq == old(l.lastSeq)
    ensures AddsTo(map[], a, l.runId, l.attempt) && AddsTo(a, l.table.lines, l.runId, l.attempt)
    ensures LogKey(l.runId, l.attempt, 1) !in a && LogKey(l.runId, l.attempt, 2) in a
    ensures LogKey(l.runId, l.attempt, 1) in l.table.lines
    ensures forall k | k in l.table.lines && k.run == l.runId && k.attempt == l.attempt :: k.seqNo >= 1
  {
    hide Flat, RunLog.Numbered, Holds, AddsTo, AddsLater, RunLogger.Buffered, RunLogger.Tracked, RunLogger.OneFlusher;
    l.JobTakes();
    l.JobWrites(true);
    a := l.table.lines;
    FirstLineIsMissing(l);
    l.TickerWrites(true);
    FirstLineIsThere(l);
    RowsAreNumbered(l);
  }

  // The run ends with every line persisted, and some stream that followed it is
  // missing one.
  method SlowTicker(run: RunId, maxBatch: nat, ts: Time, batch: nat) returns (l: RunLogger, ghost a: map<LogKey, LogLine>, ghost h: seq<World>)
    requires maxBatch >= 1 && batch >= 1
    ensures l.Valid() && l.maxBatch == maxBatch && l.lastSeq == maxBatch + 1 && l.stored == {0, 1}
    ensures AddsTo(map[], a, run, 1) && LogKey(run, 1, 1) !in a && LogKey(run, 1, 2) in a
    ensures h == [WorldBefore(a, run), WorldAfter(l.table.lines, run)]
    ensures Life(h) && NoneLate(h) && !InOrder(h) && !EveryStreamExact(h, batch)
  {
    hide Life, NoneLate, InOrder, EveryStreamExact, LinesOfRun, RunLogger.Valid;
    l := FillBehindTicker(run, maxBatch, ts);
    a := WriteBeforeTicker(l);
    h := [WorldBefore(a, run), WorldAfter(l.table.lines, run)];
    ReorderedLife(a, l.table.lines, run, batch);
  }
}
