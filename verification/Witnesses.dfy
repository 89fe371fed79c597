// Runs of the system in which the code is weaker than its comments.
module Witnesses {
  import opened Basics
  import opened Rows
  import opened History
  import opened Protocol

  function Config0(): Config {
    Config(15, 60, 100, Policy(5, 300))
  }

  // One job, with the given max_retries.
  function Empty(maxRetries: nat): System {
    System(0, map[0 := maxRetries], map[], map[], {}, multiset{}, multiset{})
  }

  // Adding a step to a run of the system.
  lemma Extend(c: Config, s: System, steps: seq<Step>, step: Step)
    requires Legal(c, s, steps) && WellFormed(Play(c, s, steps)) && Enabled(c, Play(c, s, steps), step)
    ensures Legal(c, s, steps + [step]) && Play(c, s, steps + [step]) == Next(Play(c, s, steps), step)
  {
    hide Enabled, Next, WellFormed;
    PlayOne(c, Play(c, s, steps), step);
    PlayAppend(c, s, steps, [step]);
  }

  // A manual run of job 0, claimed by p at time 0.
  function ClaimedBy(p: Process): Run {
    Run(0, 0, Manual, Running, 1, Some(p.name), 0, Some(0), None, Some(0), None, None, None)
  }

  function Begin(p: Process): seq<Step> {
    [Create(0, 0, 0, Manual)] + [Dispatch(0)] + [Claim(p, 0, false)]
  }

  lemma CreateAndDispatch(c: Config, maxRetries: nat)
    ensures var s := Empty(maxRetries);
            && Legal(c, s, [Create(0, 0, 0, Manual)] + [Dispatch(0)])
            && var t := Play(c, s, [Create(0, 0, 0, Manual)] + [Dispatch(0)]);
            && WellFormed(t) && t.runs == map[0 := NewRun(0, 0, Manual, 0)] && 0 in t.bag
            && t.retries == s.retries && t.now == 0 && t.hist == map[0 := History(0, [])]
  {
    var s := Empty(maxRetries);
    PlayOne(c, s, Create(0, 0, 0, Manual));
    Extend(c, s, [Create(0, 0, 0, Manual)], Dispatch(0));
  }

  lemma ClaimOne(t: System, p: Process)
    requires WellFormed(t) && t.now == 0 && t.retries.Keys == {0}
    requires t.runs == map[0 := NewRun(0, 0, Manual, 0)] && t.hist == map[0 := History(0, [])]
    ensures var u := Next(t, Claim(p, 0, false));
            && u.now == 0 && u.retries == t.retries && Ticket(p, 0, 1) in u.tickets
            && u.runs == map[0 := ClaimedBy(p)]
            && u.hist == map[0 := History(0, [Entry(0, 1, p, Claimed(p.name), Running)])]
  {
    assert Touched(t, Claim(p, 0, false)) == map[0 := Claimed(p.name)];
    assert EntryOf(t, 0, p, Claimed(p.name)) == Entry(0, 1, p, Claimed(p.name), Running);
    assert [] + [Entry(0, 1, p, Claimed(p.name), Running)] == [Entry(0, 1, p, Claimed(p.name), Running)];
    var u := Next(t, Claim(p, 0, false));
    assert u.hist[0] == History(0, [Entry(0, 1, p, Claimed(p.name), Running)]);
    hide EntryOf, Touched;
  }

  // A manual run is created, dispatched and claimed by p.
  lemma BeginClaims(c: Config, maxRetries: nat, p: Process)
    ensures var s := Empty(maxRetries);
            && Legal(c, s, Begin(p))
            && var t := Play(c, s, Begin(p));
            && WellFormed(t) && t.retries == s.retries && t.now == 0 && Ticket(p, 0, 1) in t.tickets
            && t.runs == map[0 := ClaimedBy(p)]
            && t.hist == map[0 := History(0, [Entry(0, 1, p, Claimed(p.name), Running)])]
  {
    var s := Empty(maxRetries);
    var two := [Create(0, 0, 0, Manual)] + [Dispatch(0)];
    CreateAndDispatch(c, maxRetries);
    hide Legal, Play, Next;
    Extend(c, s, two, Claim(p, 0, false));
    ClaimOne(Play(c, s, two), p);
    NextWellFormed(c, Play(c, s, two), Claim(p, 0, false));
  }

  // A run claimed at 0, and time passing to `now`.
  lemma ClaimedAndSilent(c: Config, maxRetries: nat, p: Process, now: nat)
    ensures var steps := Begin(p) + [Tick(now)];
            && Legal(c, Empty(maxRetries), steps)
            && var t := Play(c, Empty(maxRetries), steps);
            && WellFormed(t) && t.now == now && t.retries == map[0 := maxRetries] && Ticket(p, 0, 1) in t.tickets
            && t.runs == map[0 := ClaimedBy(p)]
            && t.hist == map[0 := History(0, [Entry(0, 1, p, Claimed(p.name), Running)])]
  {
    BeginClaims(c, maxRetries, p);
    Extend(c, Empty(maxRetries), Begin(p), Tick(now));
    hide Legal, Play;
  }

  // A release takes a run past max_retries + 1 attempts.
  lemma ReleaseExceedsRetries(p: Process)
    ensures var c, s, steps := Config0(), Empty(0), Begin(p) + [Write(Ticket(p, 0, 1), Released(""))];
            && Initial(s) && Legal(c, s, steps)
            && 0 in Play(c, s, steps).runs && Play(c, s, steps).runs[0].attempt > s.retries[0] + 1
  {
    var w := Write(Ticket(p, 0, 1), Released(""));
    BeginClaims(Config0(), 0, p);
    Extend(Config0(), Empty(0), Begin(p), w);
    hide Legal, Play;
    assert Touched(Play(Config0(), Empty(0), Begin(p)), w) == map[0 := Released("")];
  }

  // FailQueuedRun fails a run that a worker has claimed and that now waits out
  // its backoff; the retry time stays on the FAILED row.
  lemma FailQueuedHitsRetry(p: Process)
    ensures var c, s := Config0(), Empty(3);
            var steps := Begin(p) + [Write(Ticket(p, 0, 1), FailedAttempt("", 5))] + [FailQueued(p, 0, "dispatch failed")];
            && Initial(s) && Legal(c, s, steps)
            && 0 in Play(c, s, steps).runs
            && var r := Play(c, s, steps).runs[0];
            && r.status.Failed? && r.attempt == 2 && r.nextAttemptAt == Some(5)
  {
    BeginClaims(Config0(), 3, p);
    var c, s := Config0(), Empty(3);
    var w := Write(Ticket(p, 0, 1), FailedAttempt("", 5));
    var f := FailQueued(p, 0, "dispatch failed");
    var t := Play(c, s, Begin(p));
    assert c.policy.Wait(1) == 5;
    hide Legal, Play, Next;
    Extend(c, s, Begin(p), w);
    RequeuedRow(t, p, w);
    NextWellFormed(c, t, w);
    Extend(c, s, Begin(p) + [w], f);
    FailedRow(Next(t, w), f);
  }

  lemma FailedRow(t: System, f: Step)
    requires WellFormed(t) && f.FailQueued? && f.id == 0
    requires t.runs == map[0 := Run(0, 0, Manual, Queued, 2, None, 0, None, None, None, Some(5), Some(""), None)]
    ensures 0 in Next(t, f).runs
    ensures var r := Next(t, f).runs[0]; r.status.Failed? && r.attempt == 2 && r.nextAttemptAt == Some(5)
  {
    assert Touched(t, f) == map[0 := FailedQueued(f.reason)];
  }

  lemma RequeuedRow(t: System, p: Process, w: Step)
    requires WellFormed(t) && w == Write(Ticket(p, 0, 1), FailedAttempt("", 5))
    requires t.runs == map[0 := ClaimedBy(p)]
    requires t.retries == map[0 := 3] && t.now == 0
    ensures Next(t, w).runs == map[0 := Run(0, 0, Manual, Queued, 2, None, 0, None, None, None, Some(5), Some(""), None)]
  {
    assert Touched(t, w) == map[0 := FailedAttempt("", 5)];
  }
}
