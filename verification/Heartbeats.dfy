// When a live worker's run can be taken away: only after more than StaleAfter
// without a sign of life, and how heartbeat timing keeps clear of that.
module Heartbeats {
  import opened Basics
  import opened Store
  import opened History
  import opened Protocol
  import opened Safety

  // Every reap recorded so far came after more than staleAfter of silence.
  ghost predicate ReapedWhenSilent(h: seq<Entry>, staleAfter: Time) {
    forall i | 0 <= i < |h| && h[i].ev.Reaped? :: h[i].at - LastSign(h[..i]) > staleAfter
  }

  ghost predicate AllReapedWhenSilent(c: Config, s: System) {
    forall id | id in s.hist :: ReapedWhenSilent(s.hist[id].entries, c.staleAfter)
  }

  lemma RowSignsLife(c: Config, s: System, id: RunId)
    requires Inv(c, s) && id in s.runs && s.runs[id].status.Running?
    ensures WellFormed(s) && s.runs[id].lastHeartbeatAt == Some(LastSign(s.hist[id].entries))
  {
    assert FaithfulAt(c, s, id);
  }

  lemma ReapIsOfSilent(c: Config, s: System, step: Step, id: RunId)
    requires Inv(c, s) && Enabled(c, s, step) && id in Touched(s, step) && Touched(s, step)[id].Reaped?
    ensures WellFormed(s) && id in s.runs && s.now - LastSign(s.hist[id].entries) > c.staleAfter
  {
    hide FaithfulAt, LastSign;
    assert step.Reap?;
    assert id in StaleKeys(s.runs, s.now, c.staleAfter);
    RowSignsLife(c, s, id);
  }

  lemma ReapedWhenSilentKept(c: Config, s: System, step: Step)
    requires Inv(c, s) && Enabled(c, s, step) && AllReapedWhenSilent(c, s)
    ensures WellFormed(s) && AllReapedWhenSilent(c, Next(s, step))
  {
    hide FaithfulAt, LastSign, Enabled, Touched;
    forall id | id in Next(s, step).hist
      ensures ReapedWhenSilent(Next(s, step).hist[id].entries, c.staleAfter)
    {
      if id in s.runs {
        StepOnRow(c, s, step, id);
        if id in Touched(s, step) {
          var h := s.hist[id].entries;
          var h' := Next(s, step).hist[id].entries;
          assert forall i | 0 <= i <= |h| :: h'[..i] == h[..i];
          if Touched(s, step)[id].Reaped? {
            ReapIsOfSilent(c, s, step, id);
          }
        }
      }
    }
  }

  lemma {:induction false} ReapedWhenSilentThrough(c: Config, s: System, steps: seq<Step>)
    requires c.Valid() && Inv(c, s) && Legal(c, s, steps) && AllReapedWhenSilent(c, s)
    ensures AllReapedWhenSilent(c, Play(c, s, steps))
    decreases |steps|
  {
    hide Inv, Enabled, Next, AllReapedWhenSilent;
    if steps != [] {
      InvKept(c, s, steps[0]);
      ReapedWhenSilentKept(c, s, steps[0]);
      ReapedWhenSilentThrough(c, Next(s, steps[0]), steps[1..]);
    }
  }

  // In any history, an attempt is reaped only when more than StaleAfter has gone
  // by since its claim or its last effective heartbeat.
  lemma LiveRunsAreNotReaped(c: Config, s0: System, steps: seq<Step>, id: RunId, i: nat)
    requires c.Valid() && Initial(s0) && Legal(c, s0, steps) && id in Play(c, s0, steps).hist
    requires i < |Play(c, s0, steps).hist[id].entries| && Play(c, s0, steps).hist[id].entries[i].ev.Reaped?
    ensures var h := Play(c, s0, steps).hist[id].entries; h[i].at - LastSign(h[..i]) > c.staleAfter
  {
    ReapedWhenSilentThrough(c, s0, steps);
  }

  // ---- Heartbeat timing ----

  // A worker's clock for one attempt: claimed at `claim`, its heartbeat ticker
  // started `load` later (it reads the job first), ticking every `interval`.
  // ok(i) says whether the i-th heartbeat reached the database.
  datatype Beats = Beats(claim: Time, load: nat, interval: nat, ok: nat -> bool) {
    // Time of the i-th tick, from 1.
    function At(i: nat): Time {
      if i == 0 then claim + load else At(i - 1) + interval
    }

    // The last of the first n ticks to get through, or 0.
    function LastOk(n: nat): (i: nat)
      ensures i <= n && (i > 0 ==> ok(i))
      ensures forall j | i < j <= n :: !ok(j)
    {
      if n == 0 || ok(n) then n else LastOk(n - 1)
    }

    // The sign of life a reaper sees once n ticks are over.
    function Sign(n: nat): Time {
      var i := LastOk(n);
      if i == 0 then claim else At(i)
    }
  }

  // At most two heartbeats in a row are lost.
  ghost predicate TwoMisses(b: Beats) {
    forall i: nat | i >= 1 :: b.ok(i) || b.ok(i + 1) || b.ok(i + 2)
  }

  // A reaper looking at any time up to the next tick does not find it stale.
  ghost predicate NeverStale(b: Beats, staleAfter: Time) {
    forall n: nat :: b.At(n + 1) - b.Sign(n) <= staleAfter
  }

  lemma {:induction false} TicksApart(b: Beats, i: nat, n: nat)
    requires i <= n <= i + 3
    ensures b.At(n) <= b.At(i) + 3 * b.interval
    decreases n - i
  {
    if i < n {
      assert b.At(n) == b.At(n - 1) + b.interval;
      if i + 1 < n {
        assert b.At(n - 1) == b.At(n - 2) + b.interval;
        if i + 2 < n {
          assert b.At(n - 2) == b.At(n - 3) + b.interval;
        }
      }
    }
  }

  lemma SignIsRecent(b: Beats, n: nat)
    requires TwoMisses(b)
    ensures b.At(n + 1) <= b.Sign(n) + b.load + 3 * b.interval
  {
    var i := b.LastOk(n);
    assert b.ok(i + 1) || b.ok(i + 1 + 1) || b.ok(i + 1 + 2);
    assert n < i + 3;
    TicksApart(b, i, n + 1);
  }

  // Ownership survives every pattern of at most two consecutive lost heartbeats
  // exactly when StaleAfter covers three intervals and the delay before the
  // ticker starts. The configuration check asks only for the three intervals.
  lemma MissesTolerated(claim: Time, load: nat, interval: nat, staleAfter: Time)
    ensures load + 3 * interval <= staleAfter <==>
            forall ok: nat -> bool | TwoMisses(Beats(claim, load, interval, ok)) ::
              NeverStale(Beats(claim, load, interval, ok), staleAfter)
  {
    if load + 3 * interval <= staleAfter {
      forall ok: nat -> bool | TwoMisses(Beats(claim, load, interval, ok))
        ensures NeverStale(Beats(claim, load, interval, ok), staleAfter)
      {
        var b := Beats(claim, load, interval, ok);
        forall n: nat ensures b.At(n + 1) - b.Sign(n) <= staleAfter {
          SignIsRecent(b, n);
        }
      }
    } else {
      var late := (i: nat) => i >= 3;
      var b := Beats(claim, load, interval, late);
      assert TwoMisses(b);
      assert !b.ok(1) && !b.ok(2);
      assert b.LastOk(2) == b.LastOk(1) == b.LastOk(0) == 0;
      assert b.At(2 + 1) == b.At(2) + interval && b.At(2) == b.At(1) + interval && b.At(1) == b.At(0) + interval;
      assert b.At(2 + 1) - b.Sign(2) > staleAfter;
      assert !NeverStale(b, staleAfter);
    }
  }

  // One step of it: no reaper running before a worker's next tick selects its run,
  // if its last sign of life is on record.
  lemma BeatingRunIsSafe(c: Config, s: System, step: Step, id: RunId, b: Beats, n: nat)
    requires Inv(c, s) && Enabled(c, s, step) && id in s.hist
    requires LastSign(s.hist[id].entries) == b.Sign(n) && s.now <= b.At(n + 1)
    requires TwoMisses(b) && b.load + 3 * b.interval <= c.staleAfter
    ensures id in Touched(s, step) ==> !Touched(s, step)[id].Reaped?
  {
    SignIsRecent(b, n);
    if id in Touched(s, step) && Touched(s, step)[id].Reaped? {
      ReapIsOfSilent(c, s, step, id);
    }
  }

  // The last tick before t, or none.
  lemma {:induction false} LastTick(b: Beats, t: Time, from: nat) returns (n: nat)
    requires b.interval >= 1 && (from == 0 || b.At(from) < t)
    ensures (n == 0 || b.At(n) < t) && t <= b.At(n + 1)
    decreases t - b.At(from + 1)
  {
    n := from;
    if b.At(from + 1) < t {
      assert b.At(from + 1 + 1) == b.At(from + 1) + b.interval;
      n := LastTick(b, t, from + 1);
    }
  }

  // The last sign of life before entry i is at least as late as any before it.
  lemma {:induction false} SignIsLatest(h: seq<Entry>, i: nat, j: nat)
    requires j < i <= |h| && (h[j].ev.Claimed? || h[j].ev.Beat?)
    requires forall x, y | 0 <= x < y < |h| :: h[x].at <= h[y].at
    ensures h[j].at <= LastSign(h[..i])
    decreases i
  {
    var p := h[..i];
    assert p[..|p| - 1] == h[..i - 1];
    if !(p[|p| - 1].ev.Claimed? || p[|p| - 1].ev.Beat?) {
      SignIsLatest(h, i - 1, j);
    }
  }

  lemma EntriesInOrder(c: Config, s0: System, steps: seq<Step>, id: RunId)
    requires c.Valid() && Initial(s0) && Legal(c, s0, steps) && id in Play(c, s0, steps).hist
    ensures var h := Play(c, s0, steps).hist[id].entries; forall x, y | 0 <= x < y < |h| :: h[x].at <= h[y].at
  {
    hide Legal, Play;
    Reached(c, s0, steps, id);
  }

  // The heartbeat loop of the attempt claimed at entry `claim`, up to entry i:
  // every tick that got through is on record.
  ghost predicate Beating(h: seq<Entry>, claim: nat, i: nat, b: Beats)
    requires claim < i < |h|
  {
    && h[claim].ev.Claimed? && h[claim].at == b.claim
    && forall n: nat | n >= 1 && b.ok(n) && b.At(n) < h[i].at ::
         exists j :: claim < j < i && h[j].ev.Beat? && h[j].at == b.At(n)
  }

  lemma BeatingSign(h: seq<Entry>, claim: nat, i: nat, b: Beats, n: nat)
    requires claim < i < |h| && Beating(h, claim, i, b) && b.interval >= 1
    requires forall x, y | 0 <= x < y < |h| :: h[x].at <= h[y].at
    requires n == 0 || b.At(n) < h[i].at
    ensures b.Sign(n) <= LastSign(h[..i])
  {
    var m := b.LastOk(n);
    if m == 0 {
      SignIsLatest(h, i, claim);
    } else {
      TicksIncrease(b, m, n);
      var j :| claim < j < i && h[j].ev.Beat? && h[j].at == b.At(m);
      SignIsLatest(h, i, j);
    }
  }

  lemma {:induction false} TicksIncrease(b: Beats, i: nat, n: nat)
    requires i <= n
    ensures b.At(i) <= b.At(n)
    decreases n
  {
    if i < n {
      TicksIncrease(b, i, n - 1);
    }
  }

  // A worker keeps its run for as long as it beats: in every run of the system,
  // an attempt whose heartbeats fail at most twice in a row is not reaped.
  lemma BeatingRunIsNeverReaped(c: Config, s0: System, steps: seq<Step>, id: RunId, claim: nat, i: nat, b: Beats)
    requires c.Valid() && Initial(s0) && Legal(c, s0, steps) && id in Play(c, s0, steps).hist
    requires claim < i < |Play(c, s0, steps).hist[id].entries|
    requires Beating(Play(c, s0, steps).hist[id].entries, claim, i, b)
    requires b.interval >= 1 && TwoMisses(b) && b.load + 3 * b.interval <= c.staleAfter
    ensures !Play(c, s0, steps).hist[id].entries[i].ev.Reaped?
  {
    hide Legal, Play, LastSign, Beating;
    var h := Play(c, s0, steps).hist[id].entries;
    EntriesInOrder(c, s0, steps, id);
    var n := LastTick(b, h[i].at, 0);
    BeatingSign(h, claim, i, b, n);
    SignIsRecent(b, n);
    if h[i].ev.Reaped? {
      LiveRunsAreNotReaped(c, s0, steps, id, i);
    }
  }
}
