// The maintenance statements handle a limited batch per pass. No run waits
// forever behind that limit.
module Fairness {
  import opened Basics
  import opened Rows
  import opened Picking
  import opened Store
  import opened History
  import opened Protocol
  import opened Safety
  import opened Backoff

  // A candidate passed over by an unblocked pass: the batch was full, and all of
  // it was at least as old.
  lemma PassedOver<K(!new)>(cands: map<K, Time>, limit: nat, picked: set<K>, k: K, crowd: set<K>)
    requires Picks(cands, {}, limit, picked) && k in cands && k !in picked
    requires forall x | x in cands && cands[x] <= cands[k] :: x in crowd
    ensures |picked| == limit && picked <= crowd
  {
    assert cands.Keys - {} == cands.Keys;
    assert |picked| < limit ==> k in picked;
  }

  lemma SetsShrink<K>(small: set<K>, gone: set<K>, big: set<K>)
    requires small <= big && gone <= big && small !! gone
    ensures |small| + |gone| <= |big|
  {
    SubsetSize(small + gone, big);
    assert |small + gone| == |small| + |gone|;
  }

  // ---- The reaper ----

  // RUNNING rows whose last heartbeat is at or before hb.
  predicate SilentSince(r: Run, hb: Time) {
    r.status.Running? && r.lastHeartbeatAt.Some? && r.lastHeartbeatAt.value <= hb
  }

  function Silent(runs: map<RunId, Run>, hb: Time): set<RunId> {
    set id | id in runs && SilentSince(runs[id], hb)
  }

  lemma EventsNeverSilence(r: Run, maxRetries: nat, now: Time, ev: Event, hb: Time)
    requires Admits(r, now, ev) && hb < now && (ev.Finished? ==> ev.status.Succeeded?)
    ensures !SilentSince(After(r, maxRetries, now, ev), hb)
  {
  }

  // No row enters that set: every heartbeat and claim is stamped later.
  lemma SilentNeverGrows(c: Config, s: System, step: Step, hb: Time)
    requires WellFormed(s) && Enabled(c, s, step) && hb < s.now
    ensures Silent(Next(s, step).runs, hb) <= Silent(s.runs, hb)
  {
    hide Enabled, Next, Touched, After, Admits;
    forall id | id in Silent(Next(s, step).runs, hb) ensures id in Silent(s.runs, hb) {
      if id !in s.runs {
        NewRow(c, s, step, id);
      } else {
        StepOnRow(c, s, step, id);
        if id in Touched(s, step) {
          EventsNeverSilence(s.runs[id], s.retries[s.runs[id].jobId], s.now, Touched(s, step)[id], hb);
        }
      }
    }
  }

  predicate UnblockedReap(step: Step) {
    step.Reap? && step.locked == {}
  }

  lemma ReapShrinks(c: Config, s: System, step: Step, id: RunId, hb: Time)
    requires WellFormed(s) && Enabled(c, s, step) && UnblockedReap(step)
    requires hb < s.now - c.staleAfter && c.staleAfter >= 0
    requires id in Silent(s.runs, hb) && id in Silent(Next(s, step).runs, hb)
    ensures |Silent(Next(s, step).runs, hb)| + c.batch <= |Silent(s.runs, hb)|
  {
    hide Next, After, Admits, Stale, SilentSince;
    SilentNeverGrows(c, s, step, hb);
    var after := Next(s, step).runs;
    forall x | x in step.picked ensures x !in Silent(after, hb) {
      StepOnRow(c, s, step, x);
      EventsNeverSilence(s.runs[x], s.retries[s.runs[x].jobId], s.now, Reaped, hb);
    }
    SilentIsStale(s.runs, s.now, c.staleAfter, hb);
    PassedOver(StaleKeys(s.runs, s.now, c.staleAfter), c.batch, step.picked, id, Silent(s.runs, hb));
    SetsShrink(Silent(after, hb), step.picked, Silent(s.runs, hb));
  }

  lemma SilentIsStale(runs: map<RunId, Run>, now: Time, staleAfter: Time, hb: Time)
    requires hb < now - staleAfter
    ensures var cands := StaleKeys(runs, now, staleAfter);
            forall x | x in runs :: x in Silent(runs, hb) <==> x in cands && cands[x] <= hb
  {
  }

  function Reaps(steps: seq<Step>): nat {
    if steps == [] then 0 else (if UnblockedReap(steps[0]) then 1 else 0) + Reaps(steps[1..])
  }

  // While a stale run stays unreaped, each unblocked pass uses up a whole batch
  // of the m rows that were at least as silent: it can be passed over fewer than
  // m / batch times.
  lemma {:induction false} ReaperReachesEveryRun(c: Config, s: System, steps: seq<Step>, id: RunId, hb: Time)
    requires c.Valid() && Legal(c, s, steps) && hb < s.now - c.staleAfter
    requires id in Silent(Play(c, s, steps).runs, hb)
    ensures id in Silent(s.runs, hb)
    ensures |Silent(Play(c, s, steps).runs, hb)| + Reaps(steps) * c.batch <= |Silent(s.runs, hb)|
    ensures Reaps(steps) * c.batch < |Silent(s.runs, hb)|
    decreases |steps|
  {
    hide Enabled, Next, SilentSince;
    if steps == [] {
      assert {id} <= Silent(s.runs, hb);
      SubsetSize({id}, Silent(s.runs, hb));
    } else {
      var s1 := Next(s, steps[0]);
      ClockNeverGoesBack(c, s, steps[0]);
      ReaperReachesEveryRun(c, s1, steps[1..], id, hb);
      SilentNeverGrows(c, s, steps[0], hb);
      if UnblockedReap(steps[0]) {
        ReapShrinks(c, s, steps[0], id, hb);
      } else {
        SubsetSize(Silent(s1.runs, hb), Silent(s.runs, hb));
      }
    }
  }

  // ---- The sweeper ----

  // QUEUED rows queued at or before q.
  predicate WaitingSince(r: Run, q: Time) {
    r.status.Queued? && r.queuedAt <= q
  }

  function Idle(runs: map<RunId, Run>, q: Time): set<RunId> {
    set id | id in runs && WaitingSince(runs[id], q)
  }

  lemma EventsNeverBackdate(r: Run, maxRetries: nat, now: Time, ev: Event, q: Time)
    requires Admits(r, now, ev) && q < now && (ev.Finished? ==> ev.status.Succeeded?)
    ensures !WaitingSince(After(r, maxRetries, now, ev), q)
  {
  }

  // No row enters that set either: queued_at is always set to the current time.
  lemma WaitingNeverGrows(c: Config, s: System, step: Step, q: Time)
    requires WellFormed(s) && Enabled(c, s, step) && q < s.now
    ensures Idle(Next(s, step).runs, q) <= Idle(s.runs, q)
  {
    hide Enabled, Next, Touched, After, Admits;
    forall id | id in Idle(Next(s, step).runs, q) ensures id in Idle(s.runs, q) {
      if id !in s.runs {
        NewRow(c, s, step, id);
      } else {
        StepOnRow(c, s, step, id);
        if id in Touched(s, step) {
          EventsNeverBackdate(s.runs[id], s.retries[s.runs[id].jobId], s.now, Touched(s, step)[id], q);
        }
      }
    }
  }

  predicate UnblockedSweep(step: Step) {
    step.Sweep? && step.locked == {}
  }

  function Sweeps(steps: seq<Step>): nat {
    if steps == [] then 0 else (if UnblockedSweep(steps[0]) then 1 else 0) + Sweeps(steps[1..])
  }

  lemma SweepShrinks(c: Config, s: System, step: Step, id: RunId, q: Time)
    requires WellFormed(s) && Enabled(c, s, step) && UnblockedSweep(step)
    requires q < s.now - c.sweepAfter && c.sweepAfter >= 0
    requires id in Idle(s.runs, q) && BackoffOver(s.runs[id], s.now)
    requires id in Idle(Next(s, step).runs, q)
    ensures |Idle(Next(s, step).runs, q)| + c.batch <= |Idle(s.runs, q)|
  {
    hide Next, After, Admits;
    WaitingNeverGrows(c, s, step, q);
    var after := Next(s, step).runs;
    forall x | x in step.picked ensures x !in Idle(after, q) {
      StepOnRow(c, s, step, x);
      EventsNeverBackdate(s.runs[x], s.retries[s.runs[x].jobId], s.now, Swept, q);
    }
    PassedOver(StuckKeys(s.runs, s.now, c.sweepAfter), c.batch, step.picked, id, Idle(s.runs, q));
    SetsShrink(Idle(after, q), step.picked, Idle(s.runs, q));
  }

  lemma EligibleStays(c: Config, s: System, step: Step, id: RunId, q: Time)
    requires WellFormed(s) && Enabled(c, s, step) && q < s.now
    requires id in Idle(s.runs, q) && BackoffOver(s.runs[id], s.now) && id in Idle(Next(s, step).runs, q)
    ensures BackoffOver(Next(s, step).runs[id], Next(s, step).now)
  {
    hide Enabled, Next, Touched;
    ClockNeverGoesBack(c, s, step);
    StepOnRow(c, s, step, id);
  }

  // The same bound for a queued run whose backoff is over, over the m rows
  // queued at least as long.
  lemma {:induction false} SweeperReachesEveryRun(c: Config, s: System, steps: seq<Step>, id: RunId, q: Time)
    requires c.Valid() && Legal(c, s, steps) && q < s.now - c.sweepAfter
    requires id in s.runs && BackoffOver(s.runs[id], s.now)
    requires id in Idle(Play(c, s, steps).runs, q)
    ensures id in Idle(s.runs, q)
    ensures |Idle(Play(c, s, steps).runs, q)| + Sweeps(steps) * c.batch <= |Idle(s.runs, q)|
    ensures Sweeps(steps) * c.batch < |Idle(s.runs, q)|
    decreases |steps|
  {
    hide Enabled, Next, WaitingSince;
    WaitingBefore(c, s, steps, id, q);
    if steps == [] {
      SubsetSize({id}, Idle(s.runs, q));
    } else {
      var s1 := Next(s, steps[0]);
      ClockNeverGoesBack(c, s, steps[0]);
      WaitingBefore(c, s1, steps[1..], id, q);
      EligibleStays(c, s, steps[0], id, q);
      SweeperReachesEveryRun(c, s1, steps[1..], id, q);
      WaitingNeverGrows(c, s, steps[0], q);
      if UnblockedSweep(steps[0]) {
        SweepShrinks(c, s, steps[0], id, q);
      } else {
        SubsetSize(Idle(s1.runs, q), Idle(s.runs, q));
      }
    }
  }

  lemma {:induction false} WaitingBefore(c: Config, s: System, steps: seq<Step>, id: RunId, q: Time)
    requires Legal(c, s, steps) && q < s.now && id in Idle(Play(c, s, steps).runs, q)
    ensures id in Idle(s.runs, q)
    decreases |steps|
  {
    hide Enabled, Next, WaitingSince;
    if steps != [] {
      ClockNeverGoesBack(c, s, steps[0]);
      WaitingBefore(c, Next(s, steps[0]), steps[1..], id, q);
      WaitingNeverGrows(c, s, steps[0], q);
    }
  }

  // ---- The return of due retries ----

  // QUEUED rows whose backoff ended at or before w.
  predicate OwedSince(r: Run, w: Time) {
    r.status.Queued? && r.nextAttemptAt.Some? && r.nextAttemptAt.value <= w
  }

  function Overdue(runs: map<RunId, Run>, w: Time): set<RunId> {
    set id | id in runs && OwedSince(runs[id], w)
  }

  lemma WaitIsPositive(policy: Policy, attempt: nat)
    requires policy.Valid() && NoOverflow(policy.base as int, policy.max as int)
    ensures policy.Wait(attempt) > 0
  {
    DelayInRange(policy.base, policy.max, attempt);
  }

  lemma EventsNeverOwe(r: Run, maxRetries: nat, now: Time, ev: Event, w: Time)
    requires Admits(r, now, ev) && w < now && (ev.Finished? ==> ev.status.Succeeded?)
    requires r.status.Running? ==> r.nextAttemptAt.None?
    requires ev.FailedAttempt? ==> ev.backoff > 0
    ensures OwedSince(After(r, maxRetries, now, ev), w) ==> ev.Swept? && OwedSince(r, w)
  {
  }

  lemma OnlyOwnersFail(c: Config, s: System, step: Step, id: RunId)
    requires Enabled(c, s, step) && id in Touched(s, step) && Touched(s, step)[id].FailedAttempt?
    ensures step.Write? && Touched(s, step)[id].backoff == c.policy.Wait(step.t.attempt)
  {
  }

  lemma RunningOwesNothing(c: Config, s: System, id: RunId)
    requires Inv(c, s) && id in s.runs && s.runs[id].status.Running?
    ensures s.runs[id].nextAttemptAt.None?
  {
    KnownAt(c, s, id);
  }

  // No row enters the set: a backoff ends after it is set.
  lemma OwedBefore(c: Config, s: System, step: Step, id: RunId, w: Time)
    requires c.Valid() && NoOverflow(c.policy.base as int, c.policy.max as int)
    requires Inv(c, s) && Enabled(c, s, step) && w < s.now && id in Overdue(Next(s, step).runs, w)
    ensures id in Overdue(s.runs, w) && (id in Touched(s, step) ==> Touched(s, step)[id].Swept?)
  {
    hide Enabled, Next, Touched, After, Admits, NoOverflow, FaithfulAt;
    if id !in s.runs {
      NewRow(c, s, step, id);
    } else {
      StepOnRow(c, s, step, id);
      if s.runs[id].status.Running? {
        RunningOwesNothing(c, s, id);
      }
      if id in Touched(s, step) {
        var ev := Touched(s, step)[id];
        if ev.FailedAttempt? {
          OnlyOwnersFail(c, s, step, id);
          WaitIsPositive(c.policy, step.t.attempt);
        }
        EventsNeverOwe(s.runs[id], s.retries[s.runs[id].jobId], s.now, ev, w);
      }
    }
  }

  lemma OverdueNeverGrows(c: Config, s: System, step: Step, w: Time)
    requires c.Valid() && NoOverflow(c.policy.base as int, c.policy.max as int)
    requires Inv(c, s) && Enabled(c, s, step) && w < s.now
    ensures Overdue(Next(s, step).runs, w) <= Overdue(s.runs, w)
  {
    hide Enabled, Next, NoOverflow, FaithfulAt, Backed, UniqueKeys, OwedSince;
    forall id | id in Overdue(Next(s, step).runs, w) ensures id in Overdue(s.runs, w) {
      OwedBefore(c, s, step, id, w);
    }
  }

  predicate UnblockedReturn(step: Step) {
    step.ReturnDue? && step.locked == {}
  }

  function Returns(steps: seq<Step>): nat {
    if steps == [] then 0 else (if UnblockedReturn(steps[0]) then 1 else 0) + Returns(steps[1..])
  }

  lemma ReturnShrinks(c: Config, s: System, step: Step, id: RunId, w: Time)
    requires c.Valid() && NoOverflow(c.policy.base as int, c.policy.max as int)
    requires Inv(c, s) && Enabled(c, s, step) && UnblockedReturn(step) && w < s.now
    requires id in Overdue(s.runs, w) && id in Overdue(Next(s, step).runs, w)
    ensures |Overdue(Next(s, step).runs, w)| + c.batch <= |Overdue(s.runs, w)|
  {
    hide Next, NoOverflow, FaithfulAt, Backed, UniqueKeys;
    OverdueNeverGrows(c, s, step, w);
    var after := Next(s, step).runs;
    forall x | x in step.picked ensures x !in Overdue(after, w) {
      if x in Overdue(after, w) {
        OwedBefore(c, s, step, x, w);
      }
    }
    OwedBefore(c, s, step, id, w);
    PassedOver(DueKeys(s.runs, s.now), c.batch, step.picked, id, Overdue(s.runs, w));
    SetsShrink(Overdue(after, w), step.picked, Overdue(s.runs, w));
  }

  // The same bound for a retry that is due, over the m rows due at least as long,
  // from any reachable state. It needs waits that are not negative.
  lemma {:induction false} RetriesReachEveryRun(c: Config, s: System, steps: seq<Step>, id: RunId, w: Time)
    requires c.Valid() && NoOverflow(c.policy.base as int, c.policy.max as int)
    requires Inv(c, s) && Legal(c, s, steps) && w < s.now && id in Overdue(Play(c, s, steps).runs, w)
    ensures id in Overdue(s.runs, w)
    ensures |Overdue(Play(c, s, steps).runs, w)| + Returns(steps) * c.batch <= |Overdue(s.runs, w)|
    ensures Returns(steps) * c.batch < |Overdue(s.runs, w)|
    decreases |steps|
  {
    hide Enabled, Next, OwedSince, NoOverflow, FaithfulAt, Backed, UniqueKeys;
    if steps == [] {
      SubsetSize({id}, Overdue(s.runs, w));
    } else {
      var s1 := Next(s, steps[0]);
      ClockNeverGoesBack(c, s, steps[0]);
      InvKept(c, s, steps[0]);
      RetriesReachEveryRun(c, s1, steps[1..], id, w);
      OverdueNeverGrows(c, s, steps[0], w);
      if UnblockedReturn(steps[0]) {
        ReturnShrinks(c, s, steps[0], id, w);
      } else {
        SubsetSize(Overdue(s1.runs, w), Overdue(s.runs, w));
      }
    }
  }

  lemma ClockNeverGoesBack(c: Config, s: System, step: Step)
    requires WellFormed(s) && Enabled(c, s, step)
    ensures s.now <= Next(s, step).now
  {
    hide Touched;
  }

  lemma NewRow(c: Config, s: System, step: Step, id: RunId)
    requires WellFormed(s) && Enabled(c, s, step) && id !in s.runs && id in Next(s, step).runs
    ensures var r := Next(s, step).runs[id]; r.status.Queued? && r.queuedAt == s.now && r.nextAttemptAt.None?
  {
  }
}
