// A reaped worker writes one more batch of its attempt's log: a run of the system
// in which a stream that reaches its end misses a persisted line.
module LateBatch {
  import opened Basics
  import opened Rows
  import opened Store
  import opened History
  import opened Protocol
  import opened LogPages
  import opened Stream
  import opened StreamProofs
  import opened Completeness
  import opened Following
  import opened Witnesses

  // ---- Longer runs with the log ----

  function DoAll(steps: seq<Step>): (r: seq<LogStep>)
    ensures |r| == |steps|
  {
    if steps == [] then [] else [Do(steps[0])] + DoAll(steps[1..])
  }

  // A run of the protocol leaves the log alone.
  lemma {:induction false} DoneAll(c: Config, x: LogSystem, steps: seq<Step>)
    requires Legal(c, x.sys, steps)
    ensures LegalLog(c, x, DoAll(steps)) && PlayLog(c, x, DoAll(steps)) == x.(sys := Play(c, x.sys, steps))
    decreases |steps|
  {
    hide Enabled, Next, WellFormed;
    if steps != [] {
      DoneAll(c, Stepped(x, Do(steps[0])), steps[1..]);
      assert DoAll(steps)[1..] == DoAll(steps[1..]);
    }
  }

  // ---- The run ----

  // p claims attempt 1 and falls silent; q's reaper gives the run back ...
  function Requeued0(c: Config, p: Process, q: Process): seq<Step> {
    Begin(p) + [Tick(c.staleAfter + 1)] + [Reap(q, {0}, {})]
  }

  // ... and q claims attempt 2.
  function Reclaimed(c: Config, p: Process, q: Process): seq<Step> {
    Requeued0(c, p, q) + [Step.Dispatch(0)] + [Claim(q, 0, false)]
  }

  lemma ReaperRequeues(c: Config, p: Process, q: Process, s: System)
    requires c.Valid() && WellFormed(s) && s.now == c.staleAfter + 1 && s.retries == map[0 := 1]
    requires s.runs == map[0 := ClaimedBy(p)]
    ensures Enabled(c, s, Reap(q, {0}, {}))
    ensures var t := Next(s, Reap(q, {0}, {}));
            && WellFormed(t) && t.runs == map[0 := After(ClaimedBy(p), 1, s.now, Reaped)] && t.retries == s.retries
            && 0 in t.outbox && t.now == s.now && t.tickets == s.tickets
  {
    var step := Reap(q, {0}, {});
    var cands := StaleKeys(s.runs, s.now, c.staleAfter);
    assert cands == map[0 := 0];
    assert cands.Keys - {} == {0};
    assert Touched(s, step) == map[0 := Reaped];
    hide EntryOf;
    var after := Touch(s.runs, s.retries, s.now, map[0 := Reaped]);
    assert after == map[0 := After(ClaimedBy(p), 1, s.now, Reaped)];
    assert 0 in (set id | id in map[0 := Reaped] && id in after && after[id].status.Queued?);
  }

  lemma SecondClaim(q: Process, s: System, r: Run)
    requires WellFormed(s) && s.retries == map[0 := 1] && s.runs == map[0 := r]
    requires r.jobId == 0 && r.status.Queued? && r.attempt == 2 && r.nextAttemptAt.None?
    ensures var t := Next(s, Claim(q, 0, false));
            && t.runs == map[0 := After(r, 1, s.now, Claimed(q.name))] && t.retries == s.retries && t.now == s.now
            && t.tickets == s.tickets + {Ticket(q, 0, 2)}
  {
    hide EntryOf;
    assert Touched(s, Claim(q, 0, false)) == map[0 := Claimed(q.name)];
  }

  lemma RequeuedState(c: Config, p: Process, q: Process)
    requires c.Valid()
    ensures Legal(c, Empty(1), Requeued0(c, p, q))
    ensures var t := Play(c, Empty(1), Requeued0(c, p, q));
            && WellFormed(t) && t.retries == map[0 := 1] && Ticket(p, 0, 1) in t.tickets && 0 in t.outbox
            && t.runs == map[0 := After(ClaimedBy(p), 1, c.staleAfter + 1, Reaped)]
  {
    hide Legal, Play, Begin, Touch, Touched, ToDispatch, Enabled, Next;
    var one := Begin(p) + [Tick(c.staleAfter + 1)];
    ClaimedAndSilent(c, 1, p, c.staleAfter + 1);
    ReaperRequeues(c, p, q, Play(c, Empty(1), one));
    Extend(c, Empty(1), one, Reap(q, {0}, {}));
  }

  lemma ReclaimedState(c: Config, p: Process, q: Process)
    requires c.Valid()
    ensures Legal(c, Empty(1), Reclaimed(c, p, q))
    ensures var t := Play(c, Empty(1), Reclaimed(c, p, q));
            && WellFormed(t) && t.retries == map[0 := 1] && Ticket(p, 0, 1) in t.tickets && Ticket(q, 0, 2) in t.tickets
            && 0 in t.runs && t.runs[0].jobId == 0 && Owns(t.runs[0], q.name, 2)
  {
    hide Legal, Play, Next, Enabled;
    RequeuedState(c, p, q);
    var s0, two := Empty(1), Requeued0(c, p, q);
    var t2 := Play(c, s0, two);
    var t3 := Next(t2, Step.Dispatch(0));
    DispatchesTo(c, t2, q);
    assert Reclaimed(c, p, q) == two + [Step.Dispatch(0)] + [Claim(q, 0, false)];
    hide Requeued0, Reclaimed;
    Extend(c, s0, two, Step.Dispatch(0));
    SecondClaim(q, t3, After(ClaimedBy(p), 1, c.staleAfter + 1, Reaped));
    NextWellFormed(c, t3, Claim(q, 0, false));
    Extend(c, s0, two + [Step.Dispatch(0)], Claim(q, 0, false));
  }

  lemma DispatchesTo(c: Config, s: System, q: Process)
    requires WellFormed(s) && 0 in s.outbox
    ensures var t := Next(s, Step.Dispatch(0));
            && Enabled(c, s, Step.Dispatch(0)) && WellFormed(t) && t.runs == s.runs && t.retries == s.retries
            && t.tickets == s.tickets && Enabled(c, t, Claim(q, 0, false))
  {
    hide Touched, Applied;
  }

  function Late(): LogLine {
    LogLine(1, 1, 0, "info", "late")
  }

  // p's batch arrives, and q ends the run.
  function Ends(p: Process, q: Process): seq<LogStep> {
    [Append(Ticket(p, 0, 1), [Late()])] + [Do(Write(Ticket(q, 0, 2), Finished(Succeeded, Some(""), None)))]
  }

  lemma LateAppend(x: LogSystem, p: Process, q: Process)
    requires Ticket(p, 0, 1) in x.sys.tickets && x.logs == map[]
    requires 0 in x.sys.runs && Owns(x.sys.runs[0], q.name, 2)
    ensures Appended(x.logs, 0, 1, [Late()]) == map[LogKey(0, 1, 1) := Late()]
    ensures !TimelyStep(x, Append(Ticket(p, 0, 1), [Late()]), 0)
  {
    var lines := [Late()];
    assert lines[0] == Late() && lines[..0] == [];
    assert Late() in lines;
  }

  lemma EndsRun(c: Config, s: System, q: Process)
    requires WellFormed(s) && Ticket(q, 0, 2) in s.tickets && 0 in s.runs && Owns(s.runs[0], q.name, 2)
    ensures var w := Write(Ticket(q, 0, 2), Finished(Succeeded, Some(""), None));
            && Enabled(c, s, w) && WellFormed(Next(s, w)) && 0 in Next(s, w).runs && Next(s, w).runs[0].status.Succeeded?
  {
    var w := Write(Ticket(q, 0, 2), Finished(Succeeded, Some(""), None));
    NextWellFormed(c, s, w);
    assert Touched(s, w) == map[0 := w.ev];
    hide EntryOf;
  }

  lemma EndsLate(c: Config, x: LogSystem, p: Process, q: Process)
    requires WellFormed(x.sys) && x.logs == map[] && Ticket(p, 0, 1) in x.sys.tickets && Ticket(q, 0, 2) in x.sys.tickets
    requires 0 in x.sys.runs && Owns(x.sys.runs[0], q.name, 2)
    ensures LegalLog(c, x, Ends(p, q)) && !AllTimely(c, x, Ends(p, q), 0)
    ensures var y := PlayLog(c, x, Ends(p, q));
            0 in y.sys.runs && y.sys.runs[0].status.Succeeded? && y.logs == map[LogKey(0, 1, 1) := Late()]
  {
    var steps := Ends(p, q);
    LateAppend(x, p, q);
    EndsRun(c, x.sys, q);
    hide Enabled, Next, Appended, WellFormed, TimelyStep, Owns;
    var x1 := Stepped(x, steps[0]);
    var x2 := Stepped(x1, steps[1]);
    assert steps[1..] == [steps[1]] && steps[1..][1..] == [];
    assert LegalLog(c, x2, []) && PlayLog(c, x2, []) == x2;
    assert LegalLog(c, x1, steps[1..]) && PlayLog(c, x1, steps[1..]) == x2;
  }

  // Only one line is ever written, so the order of lines is not at fault.
  lemma OneLineIsInOrder(h: seq<World>, k: LineKey)
    requires h != [] && Grows(h) && h[|h| - 1].lines.Keys <= {k}
    ensures InOrder(h)
  {
    forall i | 0 <= i < |h| ensures h[i].lines.Keys <= {k} {
      assert Extends(h[i], h[|h| - 1]);
    }
  }

  // Whatever the configuration and the page size, the run ends with the line
  // persisted, and a stream that followed attempt 1 from its first line, read the
  // run before the batch arrived and came to its end never sent it.
  lemma LateBatchIsMissed(c: Config, p: Process, q: Process, batch: nat)
      returns (x0: LogSystem, steps: seq<LogStep>, w: seq<World>, f: seq<nat>)
    requires c.Valid() && batch >= 1
    ensures Untouched(x0) && LegalLog(c, x0, steps)
    ensures var y := PlayLog(c, x0, steps); 0 in y.sys.runs && y.sys.runs[0].status.Succeeded? && LogKey(0, 1, 1) in y.logs
    ensures var h := Worlds(c, x0, steps, 0);
            h != [] && Life(h) && InOrder(h) && !NoneLate(h) && Samples(h, w, f) && LineKey(1, 1) in h[|h| - 1].lines
    ensures Asked(w, 1, 1) && Completed(Polls(w, 0, 1, 1, batch)) && !Emitted(Polls(w, 0, 1, 1, batch), LineKey(1, 1))
  {
    hide LegalLog, PlayLog, AllTimely, Worlds, InOrder, NoneLate, Life, Polls, Samples, Completed, Emitted, LogInv;
    x0, steps := LateRun(c, p, q);
    StartsClean(c, x0);
    EndedRunsLive(c, x0, steps, 0);
    LastWorldIs(c, x0, steps, PlayLog(c, x0, steps));
    w, f := MissesOnly(Worlds(c, x0, steps, 0), LineKey(1, 1), batch);
  }

  lemma LateRun(c: Config, p: Process, q: Process) returns (x0: LogSystem, steps: seq<LogStep>)
    requires c.Valid()
    ensures Untouched(x0) && LegalLog(c, x0, steps) && !AllTimely(c, x0, steps, 0)
    ensures var y := PlayLog(c, x0, steps);
            0 in y.sys.runs && y.sys.runs[0].status.Succeeded? && y.logs == map[LogKey(0, 1, 1) := Late()]
  {
    hide Reclaimed, Owns, Ends, Legal, Play, LegalLog, PlayLog, AllTimely, DoAll;
    x0 := LogSystem(Empty(1), map[]);
    ReclaimedState(c, p, q);
    DoneAll(c, x0, Reclaimed(c, p, q));
    var xs := DoAll(Reclaimed(c, p, q));
    EndsLate(c, PlayLog(c, x0, xs), p, q);
    LogsOn(c, x0, xs, Ends(p, q), 0);
    steps := xs + Ends(p, q);
  }

  lemma MissesOnly(h: seq<World>, k: LineKey, batch: nat) returns (w: seq<World>, f: seq<nat>)
    requires Life(h) && !(InOrder(h) && NoneLate(h)) && h[|h| - 1].lines.Keys == {k} && batch >= 1
    ensures InOrder(h) && !NoneLate(h) && Samples(h, w, f)
    ensures Asked(w, k.attempt, k.seqNo)
    ensures Completed(Polls(w, 0, k.attempt, k.seqNo, batch)) && !Emitted(Polls(w, 0, k.attempt, k.seqNo, batch), k)
  {
    hide InOrder, NoneLate, Polls, Samples, Completed, Emitted;
    OneLineIsInOrder(h, k);
    var i, late := UntimelyIsBehind(h);
    w, f := BehindIsMissed(h, i, late, batch);
  }

  lemma LastWorldIs(c: Config, x0: LogSystem, steps: seq<LogStep>, y: LogSystem)
    requires c.Valid() && LogInv(c, x0) && LegalLog(c, x0, steps) && y == PlayLog(c, x0, steps)
    requires 0 in y.sys.runs && y.logs == map[LogKey(0, 1, 1) := Late()]
    ensures var h := Worlds(c, x0, steps, 0);
            h != [] && h[|h| - 1].lines.Keys == {LineKey(1, 1)}
  {
    hide LegalLog, PlayLog, Worlds, LogInv, Lived;
    WorldsFollow(c, x0, steps, 0);
    LinesOfWorld(y, 0);
    hide WorldOf;
    forall x | x in WorldOf(y, 0).lines ensures x == LineKey(1, 1) {
      assert x == LineKey(x.attempt, x.seqNo);
      assert LogKey(0, x.attempt, x.seqNo) in y.logs;
    }
  }
}
