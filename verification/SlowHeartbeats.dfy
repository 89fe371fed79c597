// How a live worker loses its run: two heartbeats in a row fail, and StaleAfter
// does not cover the time it took to load the job.
module SlowHeartbeats {
  import opened Basics
  import opened Rows
  import opened Store
  import opened History
  import opened Protocol
  import opened Heartbeats
  import opened Witnesses

  // The next pass of a reaper takes it.
  lemma ReaperFinds(c: Config, p: Process, t: System)
    requires c.Valid() && t.now > c.staleAfter
    requires t.runs == map[0 := ClaimedBy(p)]
    ensures Enabled(c, t, Reap(p, {0}, {}))
  {
    var cands := StaleKeys(t.runs, t.now, c.staleAfter);
    assert cands == map[0 := 0];
    assert cands.Keys - {} == {0};
  }

  lemma ReaperRecords(p: Process, t: System)
    requires WellFormed(t) && t.retries == map[0 := 0] && 0 in t.runs
    requires t.hist == map[0 := History(0, [Entry(0, 1, p, Claimed(p.name), Running)])]
    ensures var h := Next(t, Reap(p, {0}, {})).hist;
            0 in h && |h[0].entries| == 2 && h[0].entries[0] == Entry(0, 1, p, Claimed(p.name), Running)
            && h[0].entries[1].ev.Reaped? && h[0].entries[1].at == t.now
  {
    hide After, ToDispatch, Touch;
    assert Touched(t, Reap(p, {0}, {})) == map[0 := Reaped];
  }

  // Its heartbeats fail at ticks 1 and 2; the third comes as the reaper runs.
  function TwoLost(load: nat, interval: nat): Beats {
    Beats(0, load, interval, i => i >= 3)
  }

  lemma TwoLostBeats(h: seq<Entry>, load: nat, interval: nat)
    requires interval >= 1 && |h| == 2 && h[0].ev.Claimed? && h[0].at == 0 && h[1].at == load + 3 * interval
    ensures TwoMisses(TwoLost(load, interval)) && Beating(h, 0, 1, TwoLost(load, interval))
  {
    var b := TwoLost(load, interval);
    forall n: nat | n >= 3 ensures b.At(n) >= h[1].at {
      assert b.At(3) == b.At(2) + interval && b.At(2) == b.At(1) + interval && b.At(1) == b.At(0) + interval;
      TicksIncrease(b, 3, n);
    }
  }

  lemma BeatingRunIsReaped(c: Config, p: Process, load: nat, interval: nat)
      returns (s0: System, steps: seq<Step>, b: Beats)
    requires c.Valid() && interval >= 1 && c.staleAfter < load + 3 * interval
    ensures Initial(s0) && Legal(c, s0, steps) && 0 in Play(c, s0, steps).hist
    ensures b.load == load && b.interval == interval && TwoMisses(b)
    ensures var h := Play(c, s0, steps).hist[0].entries; |h| == 2 && Beating(h, 0, 1, b) && h[1].ev.Reaped?
  {
    var now := load + 3 * interval;
    s0, b := Empty(0), TwoLost(load, interval);
    ClaimedAndSilent(c, 0, p, now);
    var before := Begin(p) + [Tick(now)];
    hide Legal, Play, Begin, Enabled, Next, Beating, TwoMisses;
    ReaperFinds(c, p, Play(c, s0, before));
    ReaperRecords(p, Play(c, s0, before));
    Extend(c, s0, before, Reap(p, {0}, {}));
    steps := before + [Reap(p, {0}, {})];
    TwoLostBeats(Play(c, s0, steps).hist[0].entries, load, interval);
  }

  // In no run of the system is an attempt reaped that beats with at most two
  // misses in a row.
  ghost predicate BeatingIsSafe(c: Config, load: nat, interval: nat) {
    forall s0, steps, id, claim: nat, i: nat, b: Beats |
      && Initial(s0) && Legal(c, s0, steps) && id in Play(c, s0, steps).hist
      && claim < i < |Play(c, s0, steps).hist[id].entries|
      && b.load == load && b.interval == interval && TwoMisses(b)
      && Beating(Play(c, s0, steps).hist[id].entries, claim, i, b) ::
      !Play(c, s0, steps).hist[id].entries[i].ev.Reaped?
  }

  // That is so exactly if StaleAfter covers three intervals and the loading time;
  // the configuration check asks for the three intervals only.
  lemma BeatingIsSafeIff(c: Config, load: nat, interval: nat)
    requires c.Valid() && interval >= 1
    ensures load + 3 * interval <= c.staleAfter <==> BeatingIsSafe(c, load, interval)
  {
    hide Legal, Play, Beating, TwoMisses;
    if load + 3 * interval <= c.staleAfter {
      forall s0, steps, id, claim: nat, i: nat, b: Beats |
        && Initial(s0) && Legal(c, s0, steps) && id in Play(c, s0, steps).hist
        && claim < i < |Play(c, s0, steps).hist[id].entries|
        && b.load == load && b.interval == interval && TwoMisses(b)
        && Beating(Play(c, s0, steps).hist[id].entries, claim, i, b)
        ensures !Play(c, s0, steps).hist[id].entries[i].ev.Reaped?
      {
        BeatingRunIsNeverReaped(c, s0, steps, id, claim, i, b);
      }
    } else {
      var s0, steps, b := BeatingRunIsReaped(c, Process(0, ""), load, interval);
    }
  }
}
