// Whatever was lost, every run can still be brought to an end by the ordinary
// maintenance loop and one live worker.
module Recovery {
  import opened Basics
  import opened Rows
  import opened Picking
  import opened Store
  import opened History
  import opened Protocol
  import opened Safety
  import opened Fairness

  // What a healthy system does: time passes, worker p runs unblocked
  // maintenance passes, dispatches this run, claims it, and records how each
  // attempt ended, as `succeeds` says.
  ghost predicate Routine(c: Config, p: Process, id: RunId, succeeds: nat -> bool, step: Step) {
    match step
    case Tick(_) => true
    case Reap(q, _, locked) => q == p && locked == {}
    case Sweep(q, _, locked) => q == p && locked == {}
    case Dispatch(i) => i == id
    case Claim(q, i, replyLost) => q == p && i == id && !replyLost
    case Write(t, ev) =>
      && t.owner == p && t.run == id
      && if succeeds(t.attempt) then ev == Finished(Succeeded, Some(""), None)
         else ev == FailedAttempt("", c.policy.Wait(t.attempt))
    case _ => false
  }

  ghost predicate AllRoutine(c: Config, p: Process, id: RunId, succeeds: nat -> bool, steps: seq<Step>) {
    forall i | 0 <= i < |steps| :: Routine(c, p, id, succeeds, steps[i])
  }

  // A continuation of s: legal, routine, and still in the invariant.
  ghost predicate Continues(c: Config, s: System, p: Process, id: RunId, succeeds: nat -> bool, steps: seq<Step>) {
    && Legal(c, s, steps)
    && AllRoutine(c, p, id, succeeds, steps)
    && Inv(c, Play(c, s, steps))
    && id in Play(c, s, steps).runs
    && Play(c, s, steps).retries == s.retries
    && id in s.runs && Play(c, s, steps).runs[id].jobId == s.runs[id].jobId
  }

  lemma ContinueOne(c: Config, s: System, p: Process, id: RunId, succeeds: nat -> bool, step: Step)
    requires c.Valid() && Inv(c, s) && Enabled(c, s, step) && Routine(c, p, id, succeeds, step) && id in s.runs
    ensures Continues(c, s, p, id, succeeds, [step]) && Play(c, s, [step]) == Next(s, step)
  {
    hide Enabled, Inv, Routine, Touched, Next;
    InvKept(c, s, step);
    InvIsWellFormed(c, s);
    StepFrame(c, s, step, id);
    PlayOne(c, s, step);
  }

  lemma InvIsWellFormed(c: Config, s: System)
    requires Inv(c, s)
    ensures WellFormed(s)
  {
  }

  lemma ContinueBoth(c: Config, s: System, p: Process, id: RunId, succeeds: nat -> bool, xs: seq<Step>, ys: seq<Step>)
    requires Continues(c, s, p, id, succeeds, xs) && Continues(c, Play(c, s, xs), p, id, succeeds, ys)
    ensures Continues(c, s, p, id, succeeds, xs + ys)
    ensures Play(c, s, xs + ys) == Play(c, Play(c, s, xs), ys)
  {
    hide Inv, Routine, Legal, Play;
    PlayAppend(c, s, xs, ys);
  }

  lemma ContinueNone(c: Config, s: System, p: Process, id: RunId, succeeds: nat -> bool)
    requires Inv(c, s) && id in s.runs
    ensures Continues(c, s, p, id, succeeds, []) && Play(c, s, []) == s
  {
    hide Inv, WellFormed, Enabled, Next, Routine;
    InvIsWellFormed(c, s);
  }

  // One unblocked pass: it reaps the run, or uses up a batch of silent rows.
  lemma ReapPass(c: Config, s: System, p: Process, id: RunId, succeeds: nat -> bool, hb: Time)
      returns (step: Step)
    requires c.Valid() && Inv(c, s) && id in s.runs && id in Silent(s.runs, hb) && hb < s.now - c.staleAfter
    ensures WellFormed(s) && Enabled(c, s, step) && UnblockedReap(step)
    ensures Continues(c, s, p, id, succeeds, [step]) && Play(c, s, [step]) == Next(s, step)
    ensures Next(s, step).now == s.now && Next(s, step).retries == s.retries
    ensures id in Next(s, step).runs
    ensures Next(s, step).runs[id] == s.runs[id]
            || Next(s, step).runs[id] == After(s.runs[id], s.retries[s.runs[id].jobId], s.now, Reaped)
  {
    hide Inv, After, Silent, Next, Continues;
    InvIsWellFormed(c, s);
    var cands := StaleKeys(s.runs, s.now, c.staleAfter);
    var picked := PicksExist(cands, {}, c.batch, cands.Keys - {}, []);
    step := Reap(p, Elems(picked), {});
    ContinueOne(c, s, p, id, succeeds, step);
    StepFrame(c, s, step, id);
    StepOnRow(c, s, step, id);
  }

  // Enough unblocked passes reap a stale run.
  lemma {:induction false} ReapPasses(c: Config, s: System, p: Process, id: RunId, succeeds: nat -> bool, hb: Time)
      returns (steps: seq<Step>)
    requires c.Valid() && Inv(c, s) && id in s.runs && id in Silent(s.runs, hb) && hb < s.now - c.staleAfter
    ensures WellFormed(s) && Continues(c, s, p, id, succeeds, steps)
    ensures Play(c, s, steps).runs[id] == After(s.runs[id], s.retries[s.runs[id].jobId], s.now, Reaped)
    decreases |Silent(s.runs, hb)|
  {
    hide Inv, After, Silent, Next, Enabled, Legal, Play, AllRoutine;
    var step := ReapPass(c, s, p, id, succeeds, hb);
    steps := [step];
    var s1 := Next(s, step);
    if s1.runs[id] == s.runs[id] {
      SilentSame(s.runs, s1.runs, id, hb);
      ReapShrinks(c, s, step, id, hb);
      var more := ReapPasses(c, s1, p, id, succeeds, hb);
      ContinueBoth(c, s, p, id, succeeds, steps, more);
      steps := steps + more;
    }
  }

  lemma SilentSame(a: map<RunId, Run>, b: map<RunId, Run>, id: RunId, hb: Time)
    requires id in Silent(a, hb) && id in a && id in b && a[id] == b[id]
    ensures id in Silent(b, hb)
  {
  }

  lemma WaitUntil(c: Config, s: System, p: Process, id: RunId, succeeds: nat -> bool, t: Time)
      returns (steps: seq<Step>)
    requires c.Valid() && Inv(c, s) && id in s.runs
    ensures WellFormed(s) && Continues(c, s, p, id, succeeds, steps)
    ensures var s' := Play(c, s, steps); s'.runs == s.runs && t <= s'.now && s.now <= s'.now
  {
    hide Inv, Continues;
    InvIsWellFormed(c, s);
    var step := Tick(if s.now < t then t else s.now);
    ContinueOne(c, s, p, id, succeeds, step);
    steps := [step];
  }

  // From RUNNING, silence and unblocked passes take the run out of RUNNING.
  lemma ReapRun(c: Config, s: System, p: Process, id: RunId, succeeds: nat -> bool) returns (steps: seq<Step>)
    requires c.Valid() && Inv(c, s) && id in s.runs && s.runs[id].status.Running?
    ensures WellFormed(s) && Continues(c, s, p, id, succeeds, steps)
    ensures !Play(c, s, steps).runs[id].status.Running?
  {
    hide Inv, Continues, Legal, Play, FaithfulAt;
    HeartbeatKnown(c, s, id);
    var hb := s.runs[id].lastHeartbeatAt.value;
    var wait := WaitUntil(c, s, p, id, succeeds, hb + c.staleAfter + 1);
    ContinuesInv(c, s, p, id, succeeds, wait);
    var s1 := Play(c, s, wait);
    var reap := ReapPasses(c, s1, p, id, succeeds, hb);
    ContinueBoth(c, s, p, id, succeeds, wait, reap);
    steps := wait + reap;
  }

  lemma HeartbeatKnown(c: Config, s: System, id: RunId)
    requires Inv(c, s) && id in s.runs && s.runs[id].status.Running?
    ensures WellFormed(s) && s.runs[id].lastHeartbeatAt.Some?
  {
    assert FaithfulAt(c, s, id);
  }

  lemma ContinuesInv(c: Config, s: System, p: Process, id: RunId, succeeds: nat -> bool, steps: seq<Step>)
    requires Continues(c, s, p, id, succeeds, steps)
    ensures Legal(c, s, steps) && Inv(c, Play(c, s, steps)) && id in s.runs && id in Play(c, s, steps).runs
    ensures Play(c, s, steps).retries == s.retries && Play(c, s, steps).runs[id].jobId == s.runs[id].jobId
  {
  }

  // One unblocked sweep: it returns the run for dispatch, or uses up a batch.
  lemma SweepPass(c: Config, s: System, p: Process, id: RunId, succeeds: nat -> bool, q: Time)
      returns (step: Step)
    requires c.Valid() && Inv(c, s) && id in s.runs && id in Idle(s.runs, q)
    ensures WellFormed(s) && Enabled(c, s, step) && UnblockedSweep(step)
    ensures Continues(c, s, p, id, succeeds, [step]) && Play(c, s, [step]) == Next(s, step)
    ensures Next(s, step).now == s.now && Next(s, step).retries == s.retries
    ensures id in Next(s, step).runs
    ensures Next(s, step).runs[id] == s.runs[id]
            || (Next(s, step).runs[id] == s.runs[id].(queuedAt := s.now) && id in Next(s, step).outbox)
  {
    hide Inv, Idle, Continues, Next;
    InvIsWellFormed(c, s);
    var cands := StuckKeys(s.runs, s.now, c.sweepAfter);
    var picked := PicksExist(cands, {}, c.batch, cands.Keys - {}, []);
    step := Sweep(p, Elems(picked), {});
    ContinueOne(c, s, p, id, succeeds, step);
    StepFrame(c, s, step, id);
    SweepEffect(c, s, step, id);
  }

  // A swept run is owed a dispatch.
  lemma SweepEffect(c: Config, s: System, step: Step, id: RunId)
    requires WellFormed(s) && step.Sweep? && Enabled(c, s, step) && id in s.runs
    ensures id in Next(s, step).runs
    ensures Next(s, step).runs[id] == s.runs[id]
            || (Next(s, step).runs[id] == s.runs[id].(queuedAt := s.now) && id in Next(s, step).outbox)
  {
    StepOnRow(c, s, step, id);
    hide Enabled, WellFormed;
  }

  lemma {:induction false} SweepPasses(c: Config, s: System, p: Process, id: RunId, succeeds: nat -> bool, q: Time)
      returns (steps: seq<Step>)
    requires c.Valid() && Inv(c, s) && id in s.runs && id in Idle(s.runs, q) && q < s.now - c.sweepAfter
    requires BackoffOver(s.runs[id], s.now)
    ensures WellFormed(s) && Continues(c, s, p, id, succeeds, steps)
    ensures var s' := Play(c, s, steps);
            s'.now == s.now && s'.runs[id] == s.runs[id].(queuedAt := s.now) && id in s'.outbox
    decreases |Idle(s.runs, q)|
  {
    hide Inv, Idle, Next, Enabled, Legal, Play, AllRoutine;
    var step := SweepPass(c, s, p, id, succeeds, q);
    steps := [step];
    var s1 := Next(s, step);
    if s1.runs[id] == s.runs[id] {
      WaitingSame(s.runs, s1.runs, id, q);
      SweepShrinks(c, s, step, id, q);
      var more := SweepPasses(c, s1, p, id, succeeds, q);
      ContinueBoth(c, s, p, id, succeeds, steps, more);
      steps := steps + more;
    }
  }

  lemma WaitingSame(a: map<RunId, Run>, b: map<RunId, Run>, id: RunId, q: Time)
    requires id in Idle(a, q) && id in a && id in b && a[id] == b[id]
    ensures id in Idle(b, q)
  {
  }

  // From QUEUED, waiting out the backoff and sweeping get the run dispatched.
  lemma SweepRun(c: Config, s: System, p: Process, id: RunId, succeeds: nat -> bool) returns (steps: seq<Step>)
    requires c.Valid() && Inv(c, s) && id in s.runs && s.runs[id].status.Queued?
    ensures WellFormed(s) && Continues(c, s, p, id, succeeds, steps)
    ensures var s' := Play(c, s, steps);
            && s'.runs[id] == s.runs[id].(queuedAt := s'.now) && BackoffOver(s'.runs[id], s'.now) && id in s'.outbox
  {
    hide Inv, Continues, Legal, Play;
    var r := s.runs[id];
    var ready := if r.nextAttemptAt.Some? then r.nextAttemptAt.value else s.now;
    var idle := r.queuedAt + c.sweepAfter + 1;
    var wait := WaitUntil(c, s, p, id, succeeds, if ready < idle then idle else ready);
    ContinuesInv(c, s, p, id, succeeds, wait);
    var s1 := Play(c, s, wait);
    var sweep := SweepPasses(c, s1, p, id, succeeds, r.queuedAt);
    ContinueBoth(c, s, p, id, succeeds, wait, sweep);
    steps := wait + sweep;
  }

  // ---- One attempt ----

  lemma DispatchRun(c: Config, s: System, p: Process, id: RunId, succeeds: nat -> bool)
    requires c.Valid() && Inv(c, s) && id in s.runs && id in s.outbox
    ensures WellFormed(s) && Continues(c, s, p, id, succeeds, [Dispatch(id)])
    ensures var s' := Play(c, s, [Dispatch(id)]); s'.runs == s.runs && s'.now == s.now && id in s'.bag
  {
    hide Inv, Continues;
    InvIsWellFormed(c, s);
    ContinueOne(c, s, p, id, succeeds, Dispatch(id));
  }

  lemma ClaimRun(c: Config, s: System, p: Process, id: RunId, succeeds: nat -> bool)
    requires c.Valid() && Inv(c, s) && id in s.runs && id in s.bag && Admits(s.runs[id], s.now, Claimed(p.name))
    ensures WellFormed(s) && Continues(c, s, p, id, succeeds, [Claim(p, id, false)])
    ensures var s' := Play(c, s, [Claim(p, id, false)]);
            && Ticket(p, id, s.runs[id].attempt) in s'.tickets
            && s'.runs[id].attempt == s.runs[id].attempt && Owns(s'.runs[id], p.name, s.runs[id].attempt)
  {
    hide Inv, Continues;
    InvIsWellFormed(c, s);
    ContinueOne(c, s, p, id, succeeds, Claim(p, id, false));
    StepOnRow(c, s, Claim(p, id, false), id);
  }

  lemma EndAttempt(c: Config, s: System, p: Process, id: RunId, succeeds: nat -> bool) returns (step: Step)
    requires c.Valid() && Inv(c, s) && id in s.runs
    requires Ticket(p, id, s.runs[id].attempt) in s.tickets && Owns(s.runs[id], p.name, s.runs[id].attempt)
    ensures WellFormed(s) && Continues(c, s, p, id, succeeds, [step])
    ensures var r, r' := s.runs[id], Play(c, s, [step]).runs[id];
            if succeeds(r.attempt) || Exhausted(r, s.retries[r.jobId]) then Terminal(r')
            else r'.status.Queued? && r'.attempt == r.attempt + 1
  {
    hide Inv, Continues;
    InvIsWellFormed(c, s);
    var k := s.runs[id].attempt;
    step := Write(Ticket(p, id, k),
                  if succeeds(k) then Finished(Succeeded, Some(""), None) else FailedAttempt("", c.policy.Wait(k)));
    ContinueOne(c, s, p, id, succeeds, step);
    StepOnRow(c, s, step, id);
  }

  // From a dispatched QUEUED run, one delivery and one worker see an attempt through.
  lemma RunAttempt(c: Config, s: System, p: Process, id: RunId, succeeds: nat -> bool) returns (steps: seq<Step>)
    requires c.Valid() && Inv(c, s) && id in s.runs && id in s.outbox
    requires s.runs[id].status.Queued? && BackoffOver(s.runs[id], s.now)
    ensures WellFormed(s) && Continues(c, s, p, id, succeeds, steps)
    ensures var r, r' := s.runs[id], Play(c, s, steps).runs[id];
            if succeeds(r.attempt) || Exhausted(r, s.retries[r.jobId]) then Terminal(r')
            else r'.status.Queued? && r'.attempt == r.attempt + 1
  {
    hide Inv, Continues, Legal, Play;
    DispatchRun(c, s, p, id, succeeds);
    ContinuesInv(c, s, p, id, succeeds, [Dispatch(id)]);
    var s1 := Play(c, s, [Dispatch(id)]);
    ClaimRun(c, s1, p, id, succeeds);
    ContinuesInv(c, s1, p, id, succeeds, [Claim(p, id, false)]);
    var s2 := Play(c, s1, [Claim(p, id, false)]);
    var end := EndAttempt(c, s2, p, id, succeeds);
    ContinueBoth(c, s1, p, id, succeeds, [Claim(p, id, false)], [end]);
    ContinueBoth(c, s, p, id, succeeds, [Dispatch(id)], [Claim(p, id, false)] + [end]);
    steps := [Dispatch(id)] + ([Claim(p, id, false)] + [end]);
  }

  // ---- The whole run ----

  function RetriesLeft(r: Run, maxRetries: nat): nat {
    if r.attempt > maxRetries then 0 else maxRetries + 1 - r.attempt
  }

  lemma {:induction false} SettleQueued(c: Config, s: System, p: Process, id: RunId, succeeds: nat -> bool)
      returns (steps: seq<Step>)
    requires c.Valid() && Inv(c, s) && id in s.runs && s.runs[id].status.Queued? && s.runs[id].jobId in s.retries
    ensures WellFormed(s) && Continues(c, s, p, id, succeeds, steps)
    ensures Terminal(Play(c, s, steps).runs[id])
    decreases RetriesLeft(s.runs[id], s.retries[s.runs[id].jobId])
  {
    hide Inv, Continues, Legal, Play;
    var sweep := SweepRun(c, s, p, id, succeeds);
    ContinuesInv(c, s, p, id, succeeds, sweep);
    var s1 := Play(c, s, sweep);
    var attempt := RunAttempt(c, s1, p, id, succeeds);
    ContinuesInv(c, s1, p, id, succeeds, attempt);
    var s2 := Play(c, s1, attempt);
    ContinueBoth(c, s, p, id, succeeds, sweep, attempt);
    steps := sweep + attempt;
    if !Terminal(s2.runs[id]) {
      var more := SettleQueued(c, s2, p, id, succeeds);
      ContinueBoth(c, s, p, id, succeeds, steps, more);
      steps := steps + more;
    }
  }

  // From every reachable state, whatever its messages, claim replies, commits
  // and workers came to, and however each further attempt ends, the routine
  // steps of one live worker bring every run to a terminal status.
  lemma EveryRunRecovers(c: Config, s0: System, past: seq<Step>, p: Process, id: RunId, succeeds: nat -> bool)
      returns (steps: seq<Step>)
    requires c.Valid() && Initial(s0) && Legal(c, s0, past) && id in Play(c, s0, past).runs
    ensures Legal(c, Play(c, s0, past), steps) && AllRoutine(c, p, id, succeeds, steps)
    ensures id in Play(c, Play(c, s0, past), steps).runs
    ensures Terminal(Play(c, Play(c, s0, past), steps).runs[id])
  {
    hide Inv, Legal, Play;
    Always(c, s0, past);
    var s := Play(c, s0, past);
    InvIsWellFormed(c, s);
    NeverCancelled(c, s, id);
    steps := [];
    ContinueNone(c, s, p, id, succeeds);
    if s.runs[id].status.Running? {
      steps := ReapRun(c, s, p, id, succeeds);
    }
    var s1 := Play(c, s, steps);
    NeverCancelled(c, s1, id);
    if s1.runs[id].status.Queued? {
      var more := SettleQueued(c, s1, p, id, succeeds);
      ContinueBoth(c, s, p, id, succeeds, steps, more);
      steps := steps + more;
    }
  }

  lemma NeverCancelled(c: Config, s: System, id: RunId)
    requires Inv(c, s) && id in s.runs
    ensures !s.runs[id].status.Cancelled? && s.runs[id].jobId in s.retries
  {
    assert FaithfulAt(c, s, id);
  }
}
