// Many attempts' loggers writing to one log table.
module SharedLog {
  import opened Basics
  import opened History
  import opened Protocol
  import opened Safety
  import opened LogPages
  import opened RunLog
  import opened Following

  // No two of them write under the same (run, attempt).
  ghost predicate Apart(loggers: set<RunLogger>) {
    forall a, b | a in loggers && b in loggers && a != b :: a.runId != b.runId || a.attempt != b.attempt
  }

  ghost predicate Shares(l: RunLogger, table: LogTable, messages: seq<Message>)
    reads l, table
  {
    l.table == table && l.Valid() && l.Speaks(messages)
  }

  ghost predicate Sharing(loggers: set<RunLogger>, table: LogTable, messages: map<RunLogger, seq<Message>>)
    reads loggers, table
  {
    forall l | l in loggers :: l in messages && Shares(l, table, messages[l])
  }

  lemma SharesTable(l: RunLogger, table: LogTable, messages: seq<Message>)
    requires Shares(l, table, messages)
    ensures l.table == table && l.Valid() && l.Speaks(messages) && table.Valid()
  {
    hide RunLogger.Buffered, RunLogger.Tracked, RunLogger.OneFlusher, Holds, RunLogger.Speaks;
  }

  // Every line of every batch that reached the table is the row under its key.
  ghost predicate NothingDropped(loggers: set<RunLogger>, table: LogTable)
    reads loggers, table
  {
    forall l, i, x | l in loggers && l.alone && i in l.stored && i < |l.batches| && x in l.batches[i] ::
      var k := LogKey(l.runId, l.attempt, x.seqNo); k in table.lines && table.lines[k] == x
  }

  // Rows stay, and a new one is of one of the loggers.
  ghost predicate AddsToEach(before: map<LogKey, LogLine>, after: map<LogKey, LogLine>, loggers: set<RunLogger>) {
    && (forall k | k in before :: k in after && after[k] == before[k])
    && forall k | k in after && k !in before :: exists l :: l in loggers && k.run == l.runId && k.attempt == l.attempt
  }

  method TurnOf(loggers: set<RunLogger>, table: LogTable, messages: map<RunLogger, seq<Message>>, a: RunLogger, move: Move)
    requires Apart(loggers) && Sharing(loggers, table, messages) && a in loggers
    modifies loggers, table`lines
    ensures Sharing(loggers, table, messages) && AddsToEach(old(table.lines), table.lines, loggers)
  {
    hide RunLogger.Buffered, RunLogger.Tracked, RunLogger.OneFlusher, RunLogger.Speaks, Holds, AddsToEach, AddsTo, AddsLater, Moved;
    SharesTable(a, table, messages[a]);
    ghost var before := table.lines;
    a.Turn(messages[a], move);
    // What one logger adds to the table does not concern the others.
    forall l | l in loggers && l != a ensures Shares(l, table, messages[l]) {
      if l.alone {
        OthersKeepHolds(before, table.lines, l.runId, l.attempt, l.batches, l.stored, a.runId, a.attempt);
      }
    }
    AddsToOne(before, table.lines, loggers, a);
  }

  lemma AddsToOne(before: map<LogKey, LogLine>, after: map<LogKey, LogLine>, loggers: set<RunLogger>, a: RunLogger)
    requires a in loggers && AddsTo(before, after, a.runId, a.attempt)
    ensures AddsToEach(before, after, loggers)
  {
  }

  lemma SharingDropsNothing(loggers: set<RunLogger>, table: LogTable, messages: map<RunLogger, seq<Message>>)
    requires Sharing(loggers, table, messages)
    ensures NothingDropped(loggers, table)
  {
    hide Flat, RunLog.Numbered, OnlyStored, RunLogger.Buffered, RunLogger.Tracked, RunLogger.OneFlusher, RunLogger.Speaks;
  }

  lemma AddsMoreToEach(a: map<LogKey, LogLine>, b: map<LogKey, LogLine>, c: map<LogKey, LogLine>, loggers: set<RunLogger>)
    requires AddsToEach(a, b, loggers) && AddsToEach(b, c, loggers)
    ensures AddsToEach(a, c, loggers)
  {
  }

  // Claims of the same run and attempt are one claim.
  lemma ClaimsApart(c: Config, s0: System, steps: seq<Step>, t: Ticket, u: Ticket)
    requires c.Valid() && Initial(s0) && Legal(c, s0, steps)
    requires t in Play(c, s0, steps).tickets && u in Play(c, s0, steps).tickets && t != u
    ensures t.run != u.run || t.attempt != u.attempt
  {
    hide Legal, Play;
    if t.run == u.run && t.attempt == u.attempt {
      OneClaimantPerAttempt(c, s0, steps, t, u);
    }
  }

  lemma LoggersApart(c: Config, s0: System, steps: seq<Step>, loggers: set<RunLogger>, claim: map<RunLogger, Ticket>)
    requires c.Valid() && Initial(s0) && Legal(c, s0, steps)
    requires forall l | l in loggers :: l in claim && claim[l] in Play(c, s0, steps).tickets
                                        && l.runId == claim[l].run && l.attempt == claim[l].attempt
    requires forall a, b | a in loggers && b in loggers && a != b :: claim[a] != claim[b]
    ensures Apart(loggers)
  {
    forall a, b | a in loggers && b in loggers && a != b ensures a.runId != b.runId || a.attempt != b.attempt {
      hide Legal, Play;
      ClaimsApart(c, s0, steps, claim[a], claim[b]);
    }
  }

  // The loggers of any claims that coexist in a reachable state, each with its
  // flushers, in any interleaving: existing rows stay, and the conflict rule
  // never drops a line.
  method PlayTogether(c: Config, ghost s0: System, ghost steps: seq<Step>, loggers: set<RunLogger>,
                      ghost claim: map<RunLogger, Ticket>, table: LogTable, messages: map<RunLogger, seq<Message>>,
                      script: seq<(RunLogger, Move)>)
    requires c.Valid() && Initial(s0) && Legal(c, s0, steps)
    requires forall l | l in loggers :: l in claim && claim[l] in Play(c, s0, steps).tickets
                                        && l.runId == claim[l].run && l.attempt == claim[l].attempt
    requires forall a, b | a in loggers && b in loggers && a != b :: claim[a] != claim[b]
    requires Sharing(loggers, table, messages) && forall i | 0 <= i < |script| :: script[i].0 in loggers
    modifies loggers, table`lines
    ensures Sharing(loggers, table, messages) && AddsToEach(old(table.lines), table.lines, loggers)
    ensures NothingDropped(loggers, table)
  {
    LoggersApart(c, s0, steps, loggers, claim);
    for i := 0 to |script|
      invariant Sharing(loggers, table, messages) && AddsToEach(old(table.lines), table.lines, loggers)
    {
      hide Sharing, AddsToEach, Legal, Play;
      ghost var before := table.lines;
      TurnOf(loggers, table, messages, script[i].0, script[i].1);
      AddsMoreToEach(old(table.lines), before, table.lines, loggers);
    }
    SharingDropsNothing(loggers, table, messages);
  }

  // The logger of a new claim begins with a log nobody has written.
  method StartLogger(c: Config, ghost x: LogSystem, ghost p: Process, id: RunId, t: Ticket, table: LogTable, maxBatch: nat)
      returns (l: RunLogger)
    requires LogInv(c, x) && CanStep(c, x, Do(Claim(p, id, false))) && maxBatch >= 1
    requires WellFormed(x.sys) && t in Stepped(x, Do(Claim(p, id, false))).sys.tickets && t !in x.sys.tickets
    requires table.Valid() && table.lines == x.logs
    ensures fresh(l) && l.Valid() && l.alone && l.table == table && l.runId == t.run && l.attempt == t.attempt
    ensures forall messages :: l.Speaks(messages)
  {
    hide LogInv, CanStep, Stepped;
    NewClaimHasNoLines(c, x, p, id, t);
    l := new RunLogger(table, t.run, t.attempt, maxBatch);
  }
}
