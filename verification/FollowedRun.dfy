// Workers, their loggers and the streams together: a run that is not reaped and
// whose attempts each log less than a batch is followed exactly, and what its
// streams send of it is what its jobs logged.
module FollowedRun {
  import opened Basics
  import opened Rows
  import opened Store
  import opened History
  import opened Protocol
  import opened Safety
  import opened LogPages
  import opened RunLog
  import opened Stream
  import opened StreamProofs
  import opened Completeness
  import opened Following
  import Job = GenerateText

  // A step of the protocol, or a move of a claimant's logger.
  datatype Happening = Take(step: Step) | Act(t: Ticket, move: Move)

  ghost predicate Unreaped(s: System, step: Step, id: RunId) {
    id in Touched(s, step) ==> !Touched(s, step)[id].Reaped?
  }

  // The protocol allows the steps in this order, and none of them reaps the run.
  ghost predicate Allowed(c: Config, s: System, events: seq<Happening>, id: RunId)
    decreases |events|
  {
    && WellFormed(s)
    && (events == [] ||
        match events[0]
        case Take(step) => Enabled(c, s, step) && Unreaped(s, step, id) && Allowed(c, Next(s, step), events[1..], id)
        case Act(_, _) => Allowed(c, s, events[1..], id))
  }

  // No write of a logger is lost.
  ghost predicate NoneLost(events: seq<Happening>) {
    forall e | e in events && e.Act? :: Reaches(e.move)
  }

  // ---- Every attempt that is over was ended by a worker ----

  // How many attempts are over, of those that were started.
  function Over(r: Run): nat {
    if Terminal(r) then Started(r) else if r.attempt == 0 then 0 else r.attempt - 1
  }

  ghost predicate EndedAt(ended: set<Ticket>, id: RunId, a: nat) {
    exists t :: t in ended && t.run == id && t.attempt == a
  }

  ghost predicate Attended(s: System, id: RunId, ended: set<Ticket>) {
    id in s.runs ==> forall a | 1 <= a <= Over(s.runs[id]) :: EndedAt(ended, id, a)
  }

  lemma OverMoves(r: Run, maxRetries: nat, now: Time, ev: Event)
    requires Admits(r, now, ev) && (ev.Finished? ==> ev.status.Succeeded?)
    requires r.attempt >= 1 && (r.status.Queued? ==> r.workerId.None?) && (r.status.Running? ==> r.workerId.Some?)
    ensures Over(After(r, maxRetries, now, ev)) == if Ending(ev) then r.attempt else Over(r)
    ensures Ending(ev) ==> Over(r) == r.attempt - 1
  {
  }

  lemma EndingIsWritten(s: System, step: Step, id: RunId)
    requires id in Touched(s, step) && Ending(Touched(s, step)[id]) && Unreaped(s, step, id)
    ensures step.Write? && Ending(step.ev) && step.t.run == id
    ensures id in s.runs && step.t.attempt == s.runs[id].attempt
  {
  }

  lemma NewRunIsUnstarted(c: Config, s: System, step: Step, id: RunId)
    requires WellFormed(s) && Enabled(c, s, step) && id !in s.runs && id in Next(s, step).runs
    ensures Over(Next(s, step).runs[id]) == 0
  {
    hide Touched, EntryOf, After, KeyTaken, ToDispatch, Earned;
  }

  lemma AttendedKept(c: Config, s: System, step: Step, id: RunId, ended: set<Ticket>)
    requires Inv(c, s) && Enabled(c, s, step) && Unreaped(s, step, id) && Attended(s, id, ended)
    ensures Attended(Next(s, step), id, Ended(Do(step), ended))
  {
    hide Inv, Enabled, Next, Touched, After, Admits, Unreaped, Tenures, Over;
    InvBacks(c, s);
    var ended' := Ended(Do(step), ended);
    assert forall a | EndedAt(ended, id, a) :: EndedAt(ended', id, a);
    if id !in s.runs {
      if id in Next(s, step).runs {
        NewRunIsUnstarted(c, s, step, id);
      }
    } else {
      ClaimsOf(c, s, id);
      StepOnRow(c, s, step, id);
      if id in Touched(s, step) {
        var ev := Touched(s, step)[id];
        OverMoves(s.runs[id], s.retries[s.runs[id].jobId], s.now, ev);
        if Ending(ev) {
          EndingIsWritten(s, step, id);
          assert step.t in ended' && EndedAt(ended', id, s.runs[id].attempt);
        }
      }
    }
  }

  // ---- The claims made so far ----

  ghost predicate TicketsApart(claims: set<Ticket>) {
    forall t, u | t in claims && u in claims && t != u :: t.run != u.run || t.attempt != u.attempt
  }

  ghost predicate Known(claims: set<Ticket>, hist: map<RunId, History>) {
    forall t | t in claims :: t.run in hist && t.attempt <= |Tenures(hist[t.run].entries)|
  }

  function Claims(s: System, step: Step): set<Ticket> {
    if step.Claim? then Earned(s, step.p, step.id, step.replyLost) else {}
  }

  // A claim starts an attempt nobody has claimed, and that has no lines.
  lemma ClaimIsNew(c: Config, s: System, step: Step, claims: set<Ticket>, t: Ticket)
    requires Inv(c, s) && Known(claims, s.hist) && t in Claims(s, step)
    ensures forall u | u in claims && u.run == t.run :: u.attempt < t.attempt
    ensures t !in s.tickets && t.run in s.runs && t.run in s.hist && t.attempt == |Tenures(s.hist[t.run].entries)| + 1
  {
    hide Inv, Tenures;
    InvBacks(c, s);
    ClaimsOf(c, s, t.run);
  }

  lemma AttemptIsBlank(c: Config, x: LogSystem, t: Ticket)
    requires LogInv(c, x) && t.run in x.sys.hist && t.attempt == |Tenures(x.sys.hist[t.run].entries)| + 1
    ensures forall k | k in x.logs :: k.run != t.run || k.attempt != t.attempt
  {
    hide Inv, Tenures;
  }

  lemma ClaimsKept(c: Config, s: System, step: Step, claims: set<Ticket>)
    requires c.Valid() && Inv(c, s) && WellFormed(s) && Enabled(c, s, step)
    requires s.tickets <= claims && TicketsApart(claims) && Known(claims, s.hist)
    ensures Next(s, step).tickets <= claims + Claims(s, step)
    ensures TicketsApart(claims + Claims(s, step)) && Known(claims + Claims(s, step), Next(s, step).hist)
  {
    hide Inv, Enabled, Next, Claims, Tenures;
    var s' := Next(s, step);
    InvKept(c, s, step);
    InvBacks(c, s);
    InvBacks(c, s');
    forall t | t in s'.tickets ensures t in claims + Claims(s, step) {
      if t !in s.tickets {
        FromClaim(s, step, t);
      }
    }
    forall t | t in claims ensures t.run in s'.hist && t.attempt <= |Tenures(s'.hist[t.run].entries)| {
      TenuresStay(c, s, step, t.run);
    }
    forall t | t in Claims(s, step)
      ensures t.run in s'.hist && t.attempt <= |Tenures(s'.hist[t.run].entries)|
      ensures forall u | u in claims :: u.run != t.run || u.attempt < t.attempt
    {
      ClaimIsNew(c, s, step, claims, t);
      ClaimIsHeld(s, step, t);
      assert Backed(t, s'.hist);
    }
    OneClaimEach(s, step);
  }

  lemma FromClaim(s: System, step: Step, t: Ticket)
    requires WellFormed(s) && t in Next(s, step).tickets && t !in s.tickets
    ensures t in Claims(s, step)
  {
    hide Next, Earned;
    TicketsComeFromClaims(s, step, t);
  }

  lemma ClaimIsHeld(s: System, step: Step, t: Ticket)
    requires WellFormed(s) && t in Claims(s, step)
    ensures t in Next(s, step).tickets
  {
    hide Earned, Applied, Touched;
  }

  lemma OneClaimEach(s: System, step: Step)
    ensures forall t, u | t in Claims(s, step) && u in Claims(s, step) :: t == u
  {
  }

  // ---- The run so far, as values ----

  ghost predicate Stage(c: Config, x0: LogSystem, steps: seq<LogStep>, x: LogSystem, id: RunId, claims: set<Ticket>, ended: set<Ticket>) {
    && LegalLog(c, x0, steps) && PlayLog(c, x0, steps) == x
    && AllKeepRules(c, x0, steps, id, {}) && EndedBy(steps, {}) == ended
    && LogInv(c, x) && WellFormed(x.sys)
    && x.sys.tickets <= claims && TicketsApart(claims) && Known(claims, x.sys.hist)
    && Attended(x.sys, id, ended)
  }

  lemma StageStarts(c: Config, x0: LogSystem, id: RunId)
    requires Untouched(x0)
    ensures Stage(c, x0, [], x0, id, {}, {})
  {
    hide Inv;
    StartsClean(c, x0);
    InvBacks(c, x0.sys);
  }

  lemma StageSteps(c: Config, x0: LogSystem, steps: seq<LogStep>, x: LogSystem, id: RunId, claims: set<Ticket>, ended: set<Ticket>, step: Step)
    requires c.Valid() && Stage(c, x0, steps, x, id, claims, ended) && Enabled(c, x.sys, step) && Unreaped(x.sys, step, id)
    ensures Stage(c, x0, steps + [Do(step)], x.(sys := Next(x.sys, step)), id, claims + Claims(x.sys, step), Ended(Do(step), ended))
  {
    hide LegalLog, PlayLog, AllKeepRules, EndedBy, Inv, Enabled, Next, Claims, TicketsApart, Known, Attended, Ended, Touched, ClaimedLine;
    LogInvKept(c, x, Do(step));
    InvBacks(c, Next(x.sys, step));
    RulesOn(c, x0, steps, Do(step), id, {});
    ClaimsKept(c, x.sys, step, claims);
    AttendedKept(c, x.sys, step, id, ended);
  }

  // Some of the table's rows.
  function Only(lines: map<LogKey, LogLine>, keys: set<LogKey>): map<LogKey, LogLine> {
    map k | k in keys && k in lines :: lines[k]
  }

  lemma OnlyMore(lines: map<LogKey, LogLine>, keys: set<LogKey>, k: LogKey)
    requires k in lines && k !in keys
    ensures Only(lines, keys + {k}) == Only(lines, keys)[k := lines[k]] && k !in Only(lines, keys)
  {
  }

  // Rows carry their key, and the claimant's are numbered from 1.
  ghost predicate RowsNumbered(lines: map<LogKey, LogLine>, t: Ticket) {
    && (forall k | k in lines :: lines[k].seqNo == k.seqNo && lines[k].attempt == k.attempt)
    && forall k | k in lines && k.run == t.run && k.attempt == t.attempt :: k.seqNo >= 1
  }

  // Rows added under one attempt are one batch of lines.
  lemma {:induction false} AddedAsBatch(before: map<LogKey, LogLine>, after: map<LogKey, LogLine>, run: RunId, attempt: nat, added: set<LogKey>)
      returns (lines: seq<LogLine>)
    requires forall k | k in added :: k in after && k !in before && k == LogKey(run, attempt, after[k].seqNo)
    requires Only(after, before.Keys) == before
    ensures Appended(before, run, attempt, lines) == Only(after, before.Keys + added)
    ensures forall l | l in lines :: LogKey(run, attempt, l.seqNo) in added && after[LogKey(run, attempt, l.seqNo)] == l
    decreases added
  {
    hide Appended, Only;
    NoMoreLines(before, run, attempt);
    lines := [];
    if added == {} {
      assert before.Keys + added == before.Keys;
    } else {
      var k :| k in added;
      var rest := AddedAsBatch(before, after, run, attempt, added - {k});
      OneMoreLine(before, run, attempt, rest, after[k]);
      OnlyMore(after, before.Keys + (added - {k}), k);
      assert before.Keys + added == before.Keys + (added - {k}) + {k};
      lines := rest + [after[k]];
    }
  }

  lemma NoMoreLines(lines: map<LogKey, LogLine>, run: RunId, attempt: nat)
    ensures Appended(lines, run, attempt, []) == lines
  {
  }

  lemma OneMoreLine(lines: map<LogKey, LogLine>, run: RunId, attempt: nat, batch: seq<LogLine>, l: LogLine)
    ensures var sofar, key := Appended(lines, run, attempt, batch), LogKey(run, attempt, l.seqNo);
            Appended(lines, run, attempt, batch + [l]) == if key in sofar then sofar else sofar[key := l]
  {
    assert (batch + [l])[..|batch|] == batch;
  }

  lemma StageAppends(c: Config, x0: LogSystem, steps: seq<LogStep>, x: LogSystem, id: RunId, claims: set<Ticket>, ended: set<Ticket>,
                     t: Ticket, after: map<LogKey, LogLine>) returns (step: LogStep)
    requires c.Valid() && Stage(c, x0, steps, x, id, claims, ended) && t in x.sys.tickets && (t.run == id ==> t !in ended)
    requires AddsTo(x.logs, after, t.run, t.attempt) && (t.run == id ==> AddsLater(x.logs, after, t.run, t.attempt))
    requires RowsNumbered(after, t)
    ensures Stage(c, x0, steps + [step], x.(logs := after), id, claims, ended)
  {
    hide LegalLog, PlayLog, AllKeepRules, EndedBy, LogInv, TicketsApart, Known, Attended, AddsTo, AddsLater, RowsNumbered;
    hide CanStep, Stepped, KeepsRules;
    step := AppendOf(c, x, id, ended, t, after);
    LogInvKept(c, x, step);
    RulesOn(c, x0, steps, step, id, {});
  }

  // The append that adds those rows.
  lemma AppendOf(c: Config, x: LogSystem, id: RunId, ended: set<Ticket>, t: Ticket, after: map<LogKey, LogLine>) returns (step: LogStep)
    requires WellFormed(x.sys) && t in x.sys.tickets && (t.run == id ==> t !in ended)
    requires AddsTo(x.logs, after, t.run, t.attempt) && (t.run == id ==> AddsLater(x.logs, after, t.run, t.attempt))
    requires RowsNumbered(after, t)
    ensures CanStep(c, x, step) && Stepped(x, step) == x.(logs := after) && KeepsRules(x, step, id, ended)
    ensures Ended(step, ended) == ended
  {
    hide Appended, Only;
    var added := after.Keys - x.logs.Keys;
    OnlyOld(x.logs, after);
    var lines := AddedAsBatch(x.logs, after, t.run, t.attempt, added);
    OnlyAll(after, x.logs.Keys + added);
    step := Append(t, lines);
  }

  lemma OnlyOld(before: map<LogKey, LogLine>, after: map<LogKey, LogLine>)
    requires forall k | k in before :: k in after && after[k] == before[k]
    ensures Only(after, before.Keys) == before
  {
  }

  lemma OnlyAll(lines: map<LogKey, LogLine>, keys: set<LogKey>)
    requires lines.Keys <= keys
    ensures Only(lines, keys) == lines
  {
  }

  // ---- The loggers ----

  ghost predicate Works(t: Ticket, l: RunLogger, table: LogTable, messages: seq<Message>, maxBatch: nat)
    reads l, table
  {
    && l.table == table && l.Valid() && l.alone && l.runId == t.run && l.attempt == t.attempt && l.maxBatch == maxBatch
    && l.Speaks(messages)
  }

  // Every claimant so far has its logger.
  ghost predicate Crew(loggers: map<Ticket, RunLogger>, table: LogTable, messages: Ticket -> seq<Message>, maxBatch: nat)
    reads loggers.Values, table
  {
    forall t | t in loggers :: Works(t, loggers[t], table, messages(t), maxBatch)
  }

  ghost predicate AllClosed(loggers: map<Ticket, RunLogger>, ended: set<Ticket>)
    reads loggers.Values
  {
    forall t | t in ended :: t in loggers && loggers[t].phase.Closed?
  }

  ghost predicate AllStoredBy(loggers: map<Ticket, RunLogger>)
    reads loggers.Values
  {
    forall t | t in loggers :: loggers[t].stored == loggers[t].settled
  }

  lemma WorksTable(t: Ticket, l: RunLogger, table: LogTable, messages: seq<Message>, maxBatch: nat)
    requires Works(t, l, table, messages, maxBatch)
    ensures table.Valid() && l.lastSeq <= |messages| && RowsNumbered(table.lines, t)
  {
    hide RunLogger.Buffered, RunLogger.Tracked, RunLogger.OneFlusher, Holds;
    RowsAreNumbered(l);
  }

  // One move of one logger.
  method WorkerTurn(loggers: map<Ticket, RunLogger>, table: LogTable, messages: Ticket -> seq<Message>, maxBatch: nat,
                    t: Ticket, move: Move)
    requires t in loggers && Crew(loggers, table, messages, maxBatch) && TicketsApart(loggers.Keys)
    modifies loggers[t], table`lines
    ensures table.Valid() && Crew(loggers, table, messages, maxBatch)
    ensures AddsTo(old(table.lines), table.lines, t.run, t.attempt)
    ensures |messages(t)| < maxBatch ==> AddsLater(old(table.lines), table.lines, t.run, t.attempt)
    ensures old(loggers[t].phase).Closed? ==> loggers[t].phase.Closed? && table.lines == old(table.lines)
    ensures old(loggers[t].stored) == old(loggers[t].settled) && Reaches(move) ==> loggers[t].stored == loggers[t].settled
  {
    hide RunLogger.Buffered, RunLogger.Tracked, RunLogger.OneFlusher, RunLogger.Speaks, Holds, AddsTo, AddsLater, Moved;
    ghost var before := table.lines;
    ghost var was := loggers[t].At();
    loggers[t].ClosedIsIdle();
    loggers[t].Turn(messages(t), move);
    MovesOn(was, t.attempt, maxBatch, messages(t), move);
    forall u | u in loggers && u != t ensures Works(u, loggers[u], table, messages(u), maxBatch) {
      OthersKeepHolds(before, table.lines, u.run, u.attempt, loggers[u].batches, loggers[u].stored, t.run, t.attempt);
    }
    WorksTable(t, loggers[t], table, messages(t), maxBatch);
  }

  // The attempt's rows are the messages, numbered from 1.
  ghost predicate IsLogOf(lines: map<LogKey, LogLine>, id: RunId, a: nat, messages: seq<Message>) {
    && (forall q: nat :: LogKey(id, a, q) in lines <==> 1 <= q <= |messages|)
    && forall q: nat | 1 <= q <= |messages| ::
         LogKey(id, a, q) in lines && lines[LogKey(id, a, q)].level == messages[q - 1].level
         && lines[LogKey(id, a, q)].line == messages[q - 1].line
  }

  lemma ClosedLogIs(t: Ticket, l: RunLogger, table: LogTable, messages: seq<Message>, maxBatch: nat)
    requires Works(t, l, table, messages, maxBatch) && l.phase.Closed? && l.stored == l.settled
    ensures IsLogOf(table.lines, t.run, t.attempt, messages)
  {
    ClosedLogIsPersisted(l);
    assert messages[..|messages|] == messages;
    forall q: nat | 1 <= q <= |messages|
      ensures LogKey(t.run, t.attempt, q) in table.lines
      ensures table.lines[LogKey(t.run, t.attempt, q)].level == messages[q - 1].level
      ensures table.lines[LogKey(t.run, t.attempt, q)].line == messages[q - 1].line
    {
      assert table.lines[LogKey(t.run, t.attempt, q - 1 + 1)] == l.Logged()[q - 1];
    }
  }

  // The log of a run is its attempts' jobs' messages, attempt by attempt.
  ghost predicate IsLogOfRun(s: System, lines: map<LogKey, LogLine>, id: RunId, messages: Ticket -> seq<Message>)
    requires id in s.runs
  {
    && (forall k | k in lines && k.run == id :: 1 <= k.attempt <= Started(s.runs[id]))
    && forall a | 1 <= a <= Started(s.runs[id]) :: LoggedBySome(lines, id, a, messages)
  }

  // The rows of an attempt are the messages of one who claimed it.
  ghost predicate LoggedBySome(lines: map<LogKey, LogLine>, id: RunId, a: nat, messages: Ticket -> seq<Message>) {
    exists t: Ticket :: t.run == id && t.attempt == a && IsLogOf(lines, id, a, messages(t))
  }

  lemma FinalLog(c: Config, x: LogSystem, loggers: map<Ticket, RunLogger>, table: LogTable, id: RunId, ended: set<Ticket>,
                 messages: Ticket -> seq<Message>, maxBatch: nat)
    requires LogInv(c, x) && x.logs == table.lines && id in x.sys.runs && Terminal(x.sys.runs[id])
    requires Attended(x.sys, id, ended) && Crew(loggers, table, messages, maxBatch)
    requires AllClosed(loggers, ended) && AllStoredBy(loggers)
    ensures IsLogOfRun(x.sys, table.lines, id, messages)
  {
    hide Inv, Tenures, Works, IsLogOf;
    ClaimsOf(c, x.sys, id);
    forall k | k in table.lines && k.run == id ensures 1 <= k.attempt <= Started(x.sys.runs[id]) {
      assert ClaimedLine(x, k);
    }
    forall a | 1 <= a <= Started(x.sys.runs[id]) ensures LoggedBySome(table.lines, id, a, messages) {
      assert EndedAt(ended, id, a);
      var t :| t in ended && t.run == id && t.attempt == a;
      ClosedLogIs(t, loggers[t], table, messages(t), maxBatch);
    }
  }

  // The worker that ends an attempt has closed its log.
  predicate Waits(loggers: map<Ticket, RunLogger>, e: Happening)
    reads loggers.Values
  {
    e.Take? && e.step.Write? && Ending(e.step.ev) && e.step.t in loggers && !loggers[e.step.t].phase.Closed?
  }

  // A claim that is won starts a logger.
  method Recruit(c: Config, s: System, step: Step, loggers: map<Ticket, RunLogger>, table: LogTable,
                 messages: Ticket -> seq<Message>, maxBatch: nat)
      returns (more: map<Ticket, RunLogger>)
    requires LogInv(c, LogSystem(s, table.lines)) && Known(loggers.Keys, s.hist)
    requires Crew(loggers, table, messages, maxBatch) && table.Valid() && maxBatch >= 1
    ensures more.Keys == loggers.Keys + Claims(s, step) && Crew(more, table, messages, maxBatch)
    ensures forall t | t in loggers :: t in more && more[t] == loggers[t]
    ensures forall t | t in more && t !in loggers :: fresh(more[t]) && more[t].stored == more[t].settled
  {
    hide Inv, Tenures, RunLogger.Buffered, RunLogger.Tracked, RunLogger.OneFlusher, Holds, ClaimedLine;
    more := loggers;
    if step.Claim? && !step.replyLost && step.id in s.runs && Admits(s.runs[step.id], s.now, Claimed(step.p.name)) {
      var t := Ticket(step.p, step.id, s.runs[step.id].attempt);
      ClaimIsNew(c, s, step, loggers.Keys, t);
      AttemptIsBlank(c, LogSystem(s, table.lines), t);
      var l := new RunLogger(table, t.run, t.attempt, maxBatch);
      more := loggers[t := l];
    }
  }

  lemma StageIs(c: Config, x0: LogSystem, steps: seq<LogStep>, x: LogSystem, id: RunId, claims: set<Ticket>, ended: set<Ticket>)
    requires Stage(c, x0, steps, x, id, claims, ended)
    ensures LogInv(c, x) && WellFormed(x.sys) && x.sys.tickets <= claims && TicketsApart(claims) && Known(claims, x.sys.hist)
    ensures LegalLog(c, x0, steps) && PlayLog(c, x0, steps) == x && AllKeepRules(c, x0, steps, id, {}) && Attended(x.sys, id, ended)
  {
    hide LegalLog, PlayLog, AllKeepRules, LogInv, TicketsApart, Known, Attended, WellFormed;
  }

  lemma ClosedWhenEnded(c: Config, s: System, step: Step, loggers: map<Ticket, RunLogger>, ended: set<Ticket>)
    requires Enabled(c, s, step) && s.tickets <= loggers.Keys && AllClosed(loggers, ended) && !Waits(loggers, Take(step))
    ensures AllClosed(loggers, Ended(Do(step), ended))
  {
  }

  // One more move of a claimant's logger, and the append it amounts to, if any.
  method ActOnce(c: Config, s: System, loggers: map<Ticket, RunLogger>, table: LogTable, messages: Ticket -> seq<Message>, maxBatch: nat,
                 t: Ticket, move: Move, ghost x0: LogSystem, ghost steps0: seq<LogStep>, id: RunId, ghost ended: set<Ticket>)
      returns (ghost steps: seq<LogStep>)
    requires c.Valid() && t in s.tickets && Crew(loggers, table, messages, maxBatch) && AllClosed(loggers, ended)
    requires Stage(c, x0, steps0, LogSystem(s, table.lines), id, loggers.Keys, ended)
    requires t.run == id ==> |messages(t)| < maxBatch
    modifies loggers.Values, table`lines
    ensures table.Valid() && Crew(loggers, table, messages, maxBatch) && AllClosed(loggers, ended)
    ensures Stage(c, x0, steps, LogSystem(s, table.lines), id, loggers.Keys, ended)
    ensures old(AllStoredBy(loggers)) && Reaches(move) ==> AllStoredBy(loggers)
  {
    hide Stage, Works, AddsTo, AddsLater, LogInv, WellFormed, TicketsApart, Known, Attended, LegalLog, PlayLog, AllKeepRules;
    hide RunLogger.Valid, RunLogger.Speaks;
    ghost var x := LogSystem(s, table.lines);
    StageIs(c, x0, steps0, x, id, loggers.Keys, ended);
    CrewApart(loggers, table, messages, maxBatch);
    WorkerTurn(loggers, table, messages, maxBatch, t, move);
    WorksTable(t, loggers[t], table, messages(t), maxBatch);
    steps := StageActs(c, x0, steps0, x, id, loggers.Keys, ended, t, table.lines);
  }

  lemma StageActs(c: Config, x0: LogSystem, steps0: seq<LogStep>, x: LogSystem, id: RunId, claims: set<Ticket>, ended: set<Ticket>,
                  t: Ticket, after: map<LogKey, LogLine>) returns (steps: seq<LogStep>)
    requires c.Valid() && Stage(c, x0, steps0, x, id, claims, ended) && t in x.sys.tickets
    requires AddsTo(x.logs, after, t.run, t.attempt) && (t.run == id ==> AddsLater(x.logs, after, t.run, t.attempt))
    requires t in ended ==> after == x.logs
    requires RowsNumbered(after, t)
    ensures Stage(c, x0, steps, x.(logs := after), id, claims, ended)
  {
    hide Stage, AddsTo, AddsLater;
    steps := steps0;
    if after != x.logs {
      var step := StageAppends(c, x0, steps0, x, id, claims, ended, t, after);
      steps := steps0 + [step];
    }
  }

  // Different claims have different loggers.
  lemma CrewApart(loggers: map<Ticket, RunLogger>, table: LogTable, messages: Ticket -> seq<Message>, maxBatch: nat)
    requires Crew(loggers, table, messages, maxBatch) && TicketsApart(loggers.Keys)
    ensures forall t, u | t in loggers && u in loggers && t != u :: loggers[t] != loggers[u]
  {
    hide RunLogger.Valid, RunLogger.Speaks;
  }

  // The events in turn, each claimant's logger logging its job's messages. They
  // stop short only where an attempt would be ended with its log still open.
  method RunFollowed(c: Config, s0: System, table: LogTable, events: seq<Happening>, id: RunId, maxBatch: nat,
                     messages: Ticket -> seq<Message>)
      returns (s: System, loggers: map<Ticket, RunLogger>, rest: seq<Happening>, ghost steps: seq<LogStep>)
    requires c.Valid() && Initial(s0) && Allowed(c, s0, events, id) && table.Valid() && table.lines == map[]
    requires maxBatch >= 1 && forall t: Ticket | t.run == id :: |messages(t)| < maxBatch
    modifies table`lines
    ensures rest == [] || Waits(loggers, rest[0])
    ensures var x0, x := LogSystem(s0, map[]), LogSystem(s, table.lines);
            && LegalLog(c, x0, steps) && PlayLog(c, x0, steps) == x && AllKeepRules(c, x0, steps, id, {})
            && (id in s.runs && Terminal(s.runs[id]) ==>
                 && Worlds(c, x0, steps, id) != []
                 && (forall batch: nat | batch >= 1 :: EveryStreamExact(Worlds(c, x0, steps, id), batch))
                 && (NoneLost(events) ==> IsLogOfRun(s, table.lines, id, messages)))
  {
    hide Stage, Works, Claims, Ended, Enabled, Next, Unreaped, WellFormed, LogInv, TicketsApart, Known, Attended;
    hide LegalLog, PlayLog, AllKeepRules, EveryStreamExact, Worlds, IsLogOfRun;
    ghost var x0 := LogSystem(s0, map[]);
    ghost var ended: set<Ticket> := {};
    s, loggers, rest, steps := s0, map[], events, [];
    StageStarts(c, x0, id);
    assert loggers.Keys == {};
    while rest != [] && !Waits(loggers, rest[0])
      invariant Allowed(c, s, rest, id) && table.Valid()
      invariant Stage(c, x0, steps, LogSystem(s, table.lines), id, loggers.Keys, ended)
      invariant Crew(loggers, table, messages, maxBatch) && AllClosed(loggers, ended)
      invariant forall t | t in loggers :: fresh(loggers[t])
      invariant NoneLost(events) ==> AllStoredBy(loggers) && NoneLost(rest)
      decreases |rest|
    {
      StageIs(c, x0, steps, LogSystem(s, table.lines), id, loggers.Keys, ended);
      match rest[0] {
        case Take(step) =>
          StageSteps(c, x0, steps, LogSystem(s, table.lines), id, loggers.Keys, ended, step);
          ClosedWhenEnded(c, s, step, loggers, ended);
          loggers := Recruit(c, s, step, loggers, table, messages, maxBatch);
          s, steps, ended := Next(s, step), steps + [Do(step)], Ended(Do(step), ended);
        case Act(t, move) =>
          if t in s.tickets {
            steps := ActOnce(c, s, loggers, table, messages, maxBatch, t, move, x0, steps, id, ended);
          }
      }
      rest := rest[1..];
    }
    StageIs(c, x0, steps, LogSystem(s, table.lines), id, loggers.Keys, ended);
    if id in s.runs && Terminal(s.runs[id]) {
      RulesMakeStreamsExact(c, x0, steps, id, 1);
      forall batch: nat | batch >= 1 ensures EveryStreamExact(Worlds(c, x0, steps, id), batch) {
        RulesMakeStreamsExact(c, x0, steps, id, batch);
      }
      if NoneLost(events) {
        FinalLog(c, LogSystem(s, table.lines), loggers, table, id, ended, messages, maxBatch);
      }
    }
  }

  // ---- What a client sees ----

  // A stream from the first line on sends the lines of attempts 1 to n, and
  // nothing else.
  ghost predicate SendsLogs(w: seq<World>, batch: nat, n: nat, logs: nat -> seq<Message>) {
    forall k, text :: LineSent(Sent(w, batch, Polls(w, 0, 1, 1, batch)), k, text) <==>
      1 <= k.attempt <= n && 1 <= k.seqNo <= |logs(k.attempt)| && logs(k.attempt)[k.seqNo - 1].line == text
  }

  ghost predicate EveryStreamSends(h: seq<World>, batch: nat, n: nat, logs: nat -> seq<Message>) {
    forall w, f: seq<nat> | Samples(h, w, f) && Asked(w, 1, 1) && Completed(Polls(w, 0, 1, 1, batch)) ::
      SendsLogs(w, batch, n, logs)
  }

  // The lines of the run's last world are those of its logs.
  lemma LastWorldLogs(s: System, lines: map<LogKey, LogLine>, id: RunId, messages: Ticket -> seq<Message>, logs: nat -> seq<Message>,
                      k: LineKey, text: string)
    requires id in s.runs && IsLogOfRun(s, lines, id, messages)
    requires forall t: Ticket | t.run == id :: messages(t) == logs(t.attempt)
    ensures var last := WorldOf(LogSystem(s, lines), id);
            k in last.lines && last.lines[k] == text <==>
              1 <= k.attempt <= Started(s.runs[id]) && 1 <= k.seqNo <= |logs(k.attempt)| && logs(k.attempt)[k.seqNo - 1].line == text
  {
    LinesOfWorld(LogSystem(s, lines), id);
    hide WorldOf, Started;
    assert k == LineKey(k.attempt, k.seqNo);
    if 1 <= k.attempt <= Started(s.runs[id]) {
      assert LoggedBySome(lines, id, k.attempt, messages);
    } else if LogKey(id, k.attempt, k.seqNo) in lines {
      assert false;
    }
  }

  lemma StreamsSend(h: seq<World>, batch: nat, s: System, lines: map<LogKey, LogLine>, id: RunId,
                    messages: Ticket -> seq<Message>, logs: nat -> seq<Message>)
    requires batch >= 1 && Life(h) && EveryStreamExact(h, batch)
    requires id in s.runs && h[|h| - 1] == WorldOf(LogSystem(s, lines), id) && IsLogOfRun(s, lines, id, messages)
    requires forall t: Ticket | t.run == id :: messages(t) == logs(t.attempt)
    ensures EveryStreamSends(h, batch, Started(s.runs[id]), logs)
  {
    var n := Started(s.runs[id]);
    forall w, f: seq<nat> | Samples(h, w, f) && Asked(w, 1, 1) && Completed(Polls(w, 0, 1, 1, batch))
      ensures SendsLogs(w, batch, n, logs)
    {
      forall k, text
        ensures LineSent(Sent(w, batch, Polls(w, 0, 1, 1, batch)), k, text) <==>
                1 <= k.attempt <= n && 1 <= k.seqNo <= |logs(k.attempt)| && logs(k.attempt)[k.seqNo - 1].line == text
      {
        StreamSends(h, batch, w, f, k, text);
        LastWorldLogs(s, lines, id, messages, logs, k, text);
      }
    }
  }

  // A stream that is exact sends the lines of the last world.
  lemma StreamSends(h: seq<World>, batch: nat, w: seq<World>, f: seq<nat>, k: LineKey, text: string)
    requires Life(h) && EveryStreamExact(h, batch)
    requires Samples(h, w, f) && Asked(w, 1, 1) && Completed(Polls(w, 0, 1, 1, batch))
    ensures LineSent(Sent(w, batch, Polls(w, 0, 1, 1, batch)), k, text) <==>
            k in h[|h| - 1].lines && h[|h| - 1].lines[k] == text
  {
    var acts := Polls(w, 0, 1, 1, batch);
    hide Polls, Sent;
    SamplesGrow(h, w, f);
    EndsOnLast(h, w, f, 1, 1, batch);
    SentIsEmitted(w, batch, acts, k, text);
    assert Extends(w[|w| - 1], h[|h| - 1]);
  }

  // What an attempt of generate_text may log: everything, or up to where it was
  // cancelled, or nothing if its job could not be loaded.
  ghost predicate JobLogs(p: Job.Payload, attempt: nat, log: seq<Message>)
    requires p.Valid()
  {
    || log == Job.FullLog(p, attempt) || log == []
    || exists k: nat :: k <= p.lines && log == [Job.Opening(p)] + Job.ProgressTo(p, k)
  }

  lemma JobLogsLittle(p: Job.Payload, attempt: nat, log: seq<Message>)
    requires p.Valid() && JobLogs(p, attempt, log)
    ensures |log| <= 41
  {
    hide Job.FullLog, Job.Opening, Job.ProgressTo;
    Job.LogIsShort(p, attempt, 0);
    if log != Job.FullLog(p, attempt) && log != [] {
      var k: nat :| k <= p.lines && log == [Job.Opening(p)] + Job.ProgressTo(p, k);
      Job.LogIsShort(p, attempt, k);
    }
  }

  lemma LastOfWorlds(c: Config, x0: LogSystem, steps: seq<LogStep>, id: RunId)
    requires c.Valid() && Untouched(x0) && LegalLog(c, x0, steps)
    requires var x := PlayLog(c, x0, steps); id in x.sys.runs && Terminal(x.sys.runs[id])
    ensures var h := Worlds(c, x0, steps, id); Life(h) && h[|h| - 1] == WorldOf(PlayLog(c, x0, steps), id)
  {
    hide LegalLog, PlayLog, Worlds, LogInv, Lived, Life, AllTimely;
    StartsClean(c, x0);
    WorldsFollow(c, x0, steps, id);
    EndedRunsLive(c, x0, steps, id);
  }

  // A generate_text run, attempt a logging logs(a): if it is not reaped and no
  // write of its log is lost, every stream opened at its first line sends those
  // logs, attempt after attempt, and nothing else.
  method FollowGenerateText(c: Config, s0: System, table: LogTable, events: seq<Happening>, id: RunId,
                            p: Job.Payload, logs: nat -> seq<Message>, others: Ticket -> seq<Message>)
      returns (s: System, rest: seq<Happening>, ghost steps: seq<LogStep>)
    requires c.Valid() && Initial(s0) && Allowed(c, s0, events, id) && NoneLost(events)
    requires table.Valid() && table.lines == map[]
    requires p.Valid() && forall a :: JobLogs(p, a, logs(a))
    modifies table`lines
    ensures rest == [] || (rest[0].Take? && rest[0].step.Write? && Ending(rest[0].step.ev))
    ensures var x0 := LogSystem(s0, map[]);
            && LegalLog(c, x0, steps) && PlayLog(c, x0, steps) == LogSystem(s, table.lines)
            && (id in s.runs && Terminal(s.runs[id]) ==>
                 && Worlds(c, x0, steps, id) != []
                 && forall batch: nat | batch >= 1 :: EveryStreamSends(Worlds(c, x0, steps, id), batch, Started(s.runs[id]), logs))
  {
    hide Allowed, NoneLost, LegalLog, PlayLog, AllKeepRules, EveryStreamExact, EveryStreamSends, Worlds, IsLogOfRun, WorldOf, Started, JobLogs;
    var messages := (t: Ticket) => if t.run == id then logs(t.attempt) else others(t);
    forall t: Ticket | t.run == id ensures |messages(t)| < 200 {
      JobLogsLittle(p, t.attempt, logs(t.attempt));
    }
    var loggers: map<Ticket, RunLogger>;
    s, loggers, rest, steps := RunFollowed(c, s0, table, events, id, 200, messages);
    ghost var x0 := LogSystem(s0, map[]);
    if id in s.runs && Terminal(s.runs[id]) {
      LastOfWorlds(c, x0, steps, id);
      forall batch: nat | batch >= 1 ensures EveryStreamSends(Worlds(c, x0, steps, id), batch, Started(s.runs[id]), logs) {
        StreamsSend(Worlds(c, x0, steps, id), batch, s, table.lines, id, messages, logs);
      }
    }
  }
}
