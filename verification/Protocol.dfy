// The whole system as a state machine: the run table, the messages in flight,
// and what every process believes it owns. One step is one SQL statement, one
// message event, one loss, or the clock moving on, so a sequence of steps is any
// interleaving of API replicas, workers, crashes and zombies.
module Protocol {
  import opened Basics
  import opened Rows
  import opened Picking
  import opened Store
  import opened History

  datatype Config = Config(staleAfter: Time, sweepAfter: Time, batch: nat, policy: Policy) {
    predicate Valid() {
      policy.Valid() && batch >= 1 && staleAfter >= 0 && sweepAfter >= 0
    }
  }

  // A process' belief that it owns an attempt: it got the reply to its claim.
  // A reaped process keeps its ticket until it finds out.
  datatype Ticket = Ticket(owner: Process, run: RunId, attempt: nat)

  datatype System = System(
    now: Time,
    retries: map<JobId, nat>,
    runs: map<RunId, Run>,
    hist: map<RunId, History>,
    tickets: set<Ticket>,
    outbox: multiset<RunId>,  // committed changes some process is about to dispatch
    bag: multiset<RunId>)     // dispatch messages in flight

  datatype Step =
    | Create(id: RunId, job: JobId, scheduledTime: Time, trigger: Trigger)
    | Claim(p: Process, id: RunId, replyLost: bool)
    | Write(t: Ticket, ev: Event)
    | FailQueued(p: Process, id: RunId, reason: string)
    | Reap(p: Process, picked: set<RunId>, locked: set<RunId>)
    | ReturnDue(p: Process, picked: set<RunId>, locked: set<RunId>)
    | Sweep(p: Process, picked: set<RunId>, locked: set<RunId>)
    | Dispatch(id: RunId)
    | LoseDispatch(id: RunId)
    | Duplicate(id: RunId)
    | Drop(id: RunId)
    | Forget(t: Ticket)
    | Tick(later: Time)

  ghost predicate Initial(s: System) {
    s.runs == map[] && s.hist == map[] && s.tickets == {} && s.outbox == multiset{} && s.bag == multiset{}
  }

  // What a claimant writes: a heartbeat, its result, a failure with the policy's
  // backoff, or a release.
  predicate OwnWrite(c: Config, t: Ticket, ev: Event) {
    && OwnerWrite(ev)
    && (ev.Finished? ==> ev.status.Succeeded? && ev.output.Some? && ev.error.None?)
    && (ev.FailedAttempt? ==> ev.backoff == c.policy.Wait(t.attempt))
  }

  ghost predicate Enabled(c: Config, s: System, step: Step) {
    match step
    case Create(id, job, scheduledTime, _) =>
      id !in s.runs && job in s.retries && !KeyTaken(s.runs, job, scheduledTime)
    case Claim(_, id, _) => id in s.bag
    case Write(t, ev) => t in s.tickets && OwnWrite(c, t, ev)
    case FailQueued(_, id, _) => id in s.runs && s.runs[id].trigger.Manual?
    case Reap(_, picked, locked) => Picks(StaleKeys(s.runs, s.now, c.staleAfter), locked, c.batch, picked)
    case ReturnDue(_, picked, locked) => Picks(DueKeys(s.runs, s.now), locked, c.batch, picked)
    case Sweep(_, picked, locked) => Picks(StuckKeys(s.runs, s.now, c.sweepAfter), locked, c.batch, picked)
    case Dispatch(id) => id in s.outbox
    case LoseDispatch(id) => id in s.outbox
    case Duplicate(id) => id in s.bag
    case Drop(id) => id in s.bag
    case Forget(t) => t in s.tickets
    case Tick(later) => s.now <= later
  }

  function Hit(runs: map<RunId, Run>, id: RunId, now: Time, ev: Event): map<RunId, Event> {
    if id in runs && Admits(runs[id], now, ev) then map[id := ev] else map[]
  }

  // The rows a step's statement changes, and how. A write whose fence fails
  // changes none.
  function Touched(s: System, step: Step): map<RunId, Event> {
    match step
    case Claim(p, id, _) => Hit(s.runs, id, s.now, Claimed(p.name))
    case Write(t, ev) =>
      if t.run in s.runs && Owns(s.runs[t.run], t.owner.name, t.attempt) then map[t.run := ev] else map[]
    case FailQueued(_, id, reason) => Hit(s.runs, id, s.now, FailedQueued(reason))
    case Reap(_, picked, _) => All(picked, Reaped)
    case ReturnDue(_, picked, _) => All(picked, DueReturned)
    case Sweep(_, picked, _) => All(picked, Swept)
    case _ => map[]
  }

  function Issuer(step: Step): Process {
    match step
    case Claim(p, _, _) => p
    case Write(t, _) => t.owner
    case FailQueued(p, _, _) => p
    case Reap(p, _, _) => p
    case ReturnDue(p, _, _) => p
    case Sweep(p, _, _) => p
    case _ => Process(0, "")
  }

  function EntryOf(s: System, id: RunId, who: Process, ev: Event): Entry
    requires id in s.runs && s.runs[id].jobId in s.retries
  {
    var r := s.runs[id];
    Entry(s.now, r.attempt, who, ev, After(r, s.retries[r.jobId], s.now, ev).status)
  }

  // The rows and the run's own history name the same runs.
  ghost predicate WellFormed(s: System) {
    JobsKnown(s.runs, s.retries) && s.hist.Keys == s.runs.Keys
  }

  // One statement, and the record of it.
  function Applied(s: System, who: Process, touched: map<RunId, Event>): System
    requires WellFormed(s)
  {
    s.(runs := Touch(s.runs, s.retries, s.now, touched),
       hist := map id | id in s.hist ::
         if id in touched then s.hist[id].(entries := s.hist[id].entries + [EntryOf(s, id, who, touched[id])])
         else s.hist[id])
  }

  // The rows a statement left QUEUED, which its caller goes on to dispatch.
  function ToDispatch(runs: map<RunId, Run>, touched: map<RunId, Event>): multiset<RunId> {
    multiset(set id | id in touched && id in runs && runs[id].status.Queued?)
  }

  // The ticket a claim hands out, unless nothing was claimed or its reply was lost.
  function Earned(s: System, p: Process, id: RunId, replyLost: bool): set<Ticket> {
    if !replyLost && id in s.runs && Admits(s.runs[id], s.now, Claimed(p.name))
    then {Ticket(p, id, s.runs[id].attempt)} else {}
  }

  function Next(s: System, step: Step): System
    requires WellFormed(s)
  {
    var t := Applied(s, Issuer(step), Touched(s, step));
    match step
    case Create(id, job, scheduledTime, trigger) =>
      s.(runs := s.runs[id := NewRun(job, scheduledTime, trigger, s.now)],
         hist := s.hist[id := History(s.now, [])],
         outbox := s.outbox + multiset{id})
    case Claim(p, id, replyLost) => t.(tickets := s.tickets + Earned(s, p, id, replyLost))
    case Write(_, ev) => if ev.Released? then t.(outbox := s.outbox + ToDispatch(t.runs, Touched(s, step))) else t
    case FailQueued(_, _, _) => t
    case Reap(_, _, _) => t.(outbox := s.outbox + ToDispatch(t.runs, Touched(s, step)))
    case ReturnDue(_, _, _) => t.(outbox := s.outbox + ToDispatch(t.runs, Touched(s, step)))
    case Sweep(_, _, _) => t.(outbox := s.outbox + ToDispatch(t.runs, Touched(s, step)))
    case Dispatch(id) => s.(outbox := s.outbox - multiset{id}, bag := s.bag + multiset{id})
    case LoseDispatch(id) => s.(outbox := s.outbox - multiset{id})
    case Duplicate(id) => s.(bag := s.bag + multiset{id})
    case Drop(id) => s.(bag := s.bag - multiset{id})
    case Forget(tk) => s.(tickets := s.tickets - {tk})
    case Tick(later) => s.(now := later)
  }

  // ---- The invariant ----

  // A ticket was earned by a claim of exactly that attempt by that process.
  ghost predicate Backed(t: Ticket, hist: map<RunId, History>) {
    && t.run in hist
    && 1 <= t.attempt <= |Tenures(hist[t.run].entries)|
    && Tenures(hist[t.run].entries)[t.attempt - 1].owner == t.owner
  }

  ghost predicate FaithfulAt(c: Config, s: System, id: RunId)
    requires WellFormed(s) && id in s.runs
  {
    Faithful(s.runs[id], s.hist[id], s.retries[s.runs[id].jobId], c.policy, s.now)
  }

  ghost predicate Inv(c: Config, s: System) {
    && WellFormed(s)
    && UniqueKeys(s.runs)
    && (forall id | id in s.runs :: FaithfulAt(c, s, id))
    && forall t | t in s.tickets :: Backed(t, s.hist)
  }

  // Statements whose entries are true to the rows they change.
  ghost predicate Truthful(c: Config, s: System, who: Process, touched: map<RunId, Event>)
    requires WellFormed(s)
  {
    forall id | id in touched ::
      id in s.runs && Records(s.runs[id], s.retries[s.runs[id].jobId], c.policy, EntryOf(s, id, who, touched[id]))
  }

  lemma OneTruthful(c: Config, s: System, who: Process, id: RunId, ev: Event)
    requires WellFormed(s) && id in s.runs && Admits(s.runs[id], s.now, ev)
    requires ev.Claimed? ==> ev.worker == who.name
    requires OwnerWrite(ev) ==> Owns(s.runs[id], who.name, s.runs[id].attempt)
                                && OwnWrite(c, Ticket(who, id, s.runs[id].attempt), ev)
    ensures Truthful(c, s, who, map[id := ev])
  {
  }

  lemma NothingTruthful(c: Config, s: System, who: Process)
    requires WellFormed(s)
    ensures Truthful(c, s, who, map[])
  {
  }

  lemma BatchTruthful(c: Config, s: System, who: Process, picked: set<RunId>, ev: Event)
    requires WellFormed(s) && !ev.Claimed? && !OwnerWrite(ev)
    requires forall id | id in picked :: id in s.runs && Admits(s.runs[id], s.now, ev)
    ensures Truthful(c, s, who, All(picked, ev))
  {
    forall id | id in picked
      ensures Records(s.runs[id], s.retries[s.runs[id].jobId], c.policy, EntryOf(s, id, who, ev))
    {
      OneTruthful(c, s, who, id, ev);
    }
  }

  lemma PickedTruthful(c: Config, s: System, step: Step)
    requires WellFormed(s) && Enabled(c, s, step) && (step.Reap? || step.ReturnDue? || step.Sweep?)
    ensures Truthful(c, s, Issuer(step), Touched(s, step))
  {
    hide Records, After, Truthful, Picks;
    if step.Reap? {
      PicksAmong(StaleKeys(s.runs, s.now, c.staleAfter), step.locked, c.batch, step.picked);
      BatchTruthful(c, s, step.p, step.picked, Reaped);
    } else if step.ReturnDue? {
      PicksAmong(DueKeys(s.runs, s.now), step.locked, c.batch, step.picked);
      BatchTruthful(c, s, step.p, step.picked, DueReturned);
    } else {
      PicksAmong(StuckKeys(s.runs, s.now, c.sweepAfter), step.locked, c.batch, step.picked);
      BatchTruthful(c, s, step.p, step.picked, Swept);
    }
  }

  lemma StepsAreTruthful(c: Config, s: System, step: Step)
    requires WellFormed(s) && Enabled(c, s, step)
    ensures Truthful(c, s, Issuer(step), Touched(s, step))
  {
    hide Records, After, Truthful, EntryOf, Picks, StaleKeys, DueKeys, StuckKeys, All;
    NothingTruthful(c, s, Issuer(step));
    match step
    case Claim(p, id, _) =>
      if id in Touched(s, step) {
        OneTruthful(c, s, p, id, Claimed(p.name));
      }
    case Write(t, ev) =>
      if t.run in Touched(s, step) {
        OneTruthful(c, s, t.owner, t.run, ev);
      }
    case FailQueued(p, id, reason) =>
      if id in Touched(s, step) {
        OneTruthful(c, s, p, id, FailedQueued(reason));
      }
    case Reap(_, _, _) => PickedTruthful(c, s, step);
    case ReturnDue(_, _, _) => PickedTruthful(c, s, step);
    case Sweep(_, _, _) => PickedTruthful(c, s, step);
    case _ =>
  }

  lemma AppliedAt(c: Config, s: System, who: Process, touched: map<RunId, Event>, id: RunId)
    requires c.Valid() && WellFormed(s) && id in s.runs && FaithfulAt(c, s, id)
    requires Truthful(c, s, who, touched)
    ensures WellFormed(Applied(s, who, touched)) && FaithfulAt(c, Applied(s, who, touched), id)
  {
    hide Faithful, Records;
    var s' := Applied(s, who, touched);
    if id in touched {
      var e := EntryOf(s, id, who, touched[id]);
      FaithfulKept(s.runs[id], s.hist[id], s.now, s.retries[s.runs[id].jobId], c.policy, e);
      assert s'.runs[id] == After(s.runs[id], s.retries[s.runs[id].jobId], e.at, e.ev);
    } else {
      assert s'.runs[id] == s.runs[id] && s'.hist[id] == s.hist[id];
    }
  }

  lemma BackedKept(s: System, who: Process, touched: map<RunId, Event>, t: Ticket)
    requires WellFormed(s) && Backed(t, s.hist)
    ensures Backed(t, Applied(s, who, touched).hist)
  {
    hide Tenures, Touch;
    if t.run in touched {
      TenuresMore(s.hist[t.run].entries, EntryOf(s, t.run, who, touched[t.run]));
    }
  }

  lemma AppliedKept(c: Config, s: System, who: Process, touched: map<RunId, Event>)
    requires c.Valid() && Inv(c, s) && Truthful(c, s, who, touched)
    ensures Inv(c, Applied(s, who, touched))
  {
    var s' := Applied(s, who, touched);
    TouchKeepsKeys(s.runs, s.retries, s.now, touched);
    forall id | id in s'.runs ensures FaithfulAt(c, s', id) {
      AppliedAt(c, s, who, touched, id);
    }
    forall t | t in s'.tickets ensures Backed(t, s'.hist) {
      BackedKept(s, who, touched, t);
    }
  }

  lemma CreateKept(c: Config, s: System, step: Step)
    requires c.Valid() && Inv(c, s) && Enabled(c, s, step) && step.Create?
    ensures Inv(c, Next(s, step))
  {
    hide Faithful;
    var s' := Next(s, step);
    forall id | id in s'.runs ensures FaithfulAt(c, s', id) {
      if id == step.id {
        NewIsFaithful(s'.runs[id], s'.retries[step.job], c.policy, s.now);
      } else {
        assert FaithfulAt(c, s, id);
      }
    }
    forall t | t in s'.tickets ensures Backed(t, s'.hist) {
      assert Backed(t, s.hist);
    }
  }

  lemma TickKept(c: Config, s: System, later: Time)
    requires Inv(c, s) && s.now <= later
    ensures Inv(c, s.(now := later))
  {
    hide Faithful;
    var s' := s.(now := later);
    forall id | id in s'.runs ensures FaithfulAt(c, s', id) {
      assert FaithfulAt(c, s, id);
      FaithfulLater(s.runs[id], s.hist[id], s.retries[s.runs[id].jobId], c.policy, s.now, later);
    }
  }

  // What the invariant says of one run, short of the parts about order and time.
  lemma KnownAt(c: Config, s: System, id: RunId)
    requires WellFormed(s) && id in s.runs && FaithfulAt(c, s, id)
    ensures Shape(s.runs[id], s.hist[id].born, s.now)
    ensures OneAtATime(s.runs[id], Tenures(s.hist[id].entries), s.now)
    ensures Accounted(s.runs[id], s.retries[s.runs[id].jobId], s.hist[id].entries)
  {
  }

  lemma {:induction false} TenuresMore(h: seq<Entry>, e: Entry)
    ensures Tenures(h + [e]) == Extended(Tenures(h), e)
  {
    assert (h + [e])[..|h|] == h;
  }

  lemma ClaimBacks(c: Config, s: System, p: Process, id: RunId)
    requires WellFormed(s) && id in s.runs && Admits(s.runs[id], s.now, Claimed(p.name)) && FaithfulAt(c, s, id)
    ensures Backed(Ticket(p, id, s.runs[id].attempt), Applied(s, p, map[id := Claimed(p.name)]).hist)
  {
    hide FaithfulAt, After, Tenures, Serial, Accounted, Touch;
    KnownAt(c, s, id);
    TenuresMore(s.hist[id].entries, EntryOf(s, id, p, Claimed(p.name)));
  }

  lemma ClaimKept(c: Config, s: System, step: Step)
    requires c.Valid() && Inv(c, s) && Enabled(c, s, step) && step.Claim?
    ensures Inv(c, Next(s, step))
  {
    hide Records, After, Touch, FaithfulAt, Backed;
    StepsAreTruthful(c, s, step);
    AppliedKept(c, s, step.p, Touched(s, step));
    if t :| t in Earned(s, step.p, step.id, step.replyLost) {
      ClaimBacks(c, s, step.p, step.id);
    }
    SameStore(c, Applied(s, step.p, Touched(s, step)), Next(s, step));
  }

  // The invariant does not mention messages, and tickets only by their backing.
  lemma SameStore(c: Config, s: System, t: System)
    requires Inv(c, s) && t.now == s.now && t.retries == s.retries && t.runs == s.runs && t.hist == s.hist
    requires forall k | k in t.tickets :: Backed(k, t.hist)
    ensures Inv(c, t)
  {
    hide Faithful;
    forall id | id in t.runs ensures FaithfulAt(c, t, id) {
      assert FaithfulAt(c, s, id);
    }
  }

  lemma StatementKept(c: Config, s: System, step: Step)
    requires c.Valid() && Inv(c, s) && Enabled(c, s, step)
    requires step.Write? || step.FailQueued? || step.Reap? || step.ReturnDue? || step.Sweep?
    ensures Inv(c, Next(s, step))
  {
    hide FaithfulAt, Records, Touch, Backed, EntryOf, Touched, Issuer, ToDispatch, Enabled;
    StepsAreTruthful(c, s, step);
    AppliedKept(c, s, Issuer(step), Touched(s, step));
    SameStore(c, Applied(s, Issuer(step), Touched(s, step)), Next(s, step));
  }

  // Every step keeps the invariant.
  lemma InvKept(c: Config, s: System, step: Step)
    requires c.Valid() && Inv(c, s) && Enabled(c, s, step)
    ensures Inv(c, Next(s, step))
  {
    hide FaithfulAt, Touch, Touched, Backed, Applied, ToDispatch, Earned;
    match step
    case Create(_, _, _, _) => CreateKept(c, s, step);
    case Claim(_, _, _) => ClaimKept(c, s, step);
    case Tick(later) => TickKept(c, s, later);
    case Dispatch(_) => SameStore(c, s, Next(s, step));
    case LoseDispatch(_) => SameStore(c, s, Next(s, step));
    case Duplicate(_) => SameStore(c, s, Next(s, step));
    case Drop(_) => SameStore(c, s, Next(s, step));
    case Forget(_) => SameStore(c, s, Next(s, step));
    case _ => StatementKept(c, s, step);
  }

  // ---- Runs of the system ----

  // Each step is enabled where it is taken.
  ghost predicate Legal(c: Config, s: System, steps: seq<Step>)
    decreases |steps|
  {
    WellFormed(s) && (steps == [] || (Enabled(c, s, steps[0]) && Legal(c, Next(s, steps[0]), steps[1..])))
  }

  ghost function Play(c: Config, s: System, steps: seq<Step>): System
    requires Legal(c, s, steps)
    decreases |steps|
  {
    if steps == [] then s else Play(c, Next(s, steps[0]), steps[1..])
  }

  lemma PlayOne(c: Config, s: System, step: Step)
    requires WellFormed(s) && Enabled(c, s, step)
    ensures Legal(c, s, [step]) && Play(c, s, [step]) == Next(s, step)
  {
    hide Enabled, Next, Touch;
    NextWellFormed(c, s, step);
    assert [step][1..] == [];
  }

  lemma AppliedWellFormed(s: System, who: Process, touched: map<RunId, Event>)
    requires WellFormed(s)
    ensures WellFormed(Applied(s, who, touched)) && Applied(s, who, touched).retries == s.retries
  {
    TouchKeepsJobs(s.runs, s.retries, s.now, touched);
    hide Touch, EntryOf, JobsKnown;
  }

  lemma CreatedWellFormed(s: System, step: Step)
    requires WellFormed(s) && step.Create? && step.job in s.retries
    ensures WellFormed(Next(s, step))
  {
    hide Touched, Applied;
  }

  lemma NextWellFormed(c: Config, s: System, step: Step)
    requires WellFormed(s) && Enabled(c, s, step)
    ensures WellFormed(Next(s, step))
  {
    AppliedWellFormed(s, Issuer(step), Touched(s, step));
    if step.Create? {
      CreatedWellFormed(s, step);
    } else {
      hide Touched, Applied, JobsKnown, ToDispatch, Earned, Enabled;
    }
  }

  lemma {:induction false} PlayAppend(c: Config, s: System, xs: seq<Step>, ys: seq<Step>)
    requires Legal(c, s, xs) && Legal(c, Play(c, s, xs), ys)
    ensures Legal(c, s, xs + ys) && Play(c, s, xs + ys) == Play(c, Play(c, s, xs), ys)
    decreases |xs|
  {
    hide Enabled, Next;
    if xs == [] {
      assert xs + ys == ys;
    } else {
      assert (xs + ys)[1..] == xs[1..] + ys;
      PlayAppend(c, Next(s, xs[0]), xs[1..], ys);
    }
  }

  lemma {:induction false} InvThrough(c: Config, s: System, steps: seq<Step>)
    requires c.Valid() && Inv(c, s) && Legal(c, s, steps)
    ensures Inv(c, Play(c, s, steps))
    decreases |steps|
  {
    hide Inv, Enabled, Next;
    if steps != [] {
      InvKept(c, s, steps[0]);
      InvThrough(c, Next(s, steps[0]), steps[1..]);
    }
  }

  // In every state the system can reach, the invariant holds.
  lemma Always(c: Config, s0: System, steps: seq<Step>)
    requires c.Valid() && Initial(s0) && Legal(c, s0, steps)
    ensures Inv(c, Play(c, s0, steps))
  {
    InvThrough(c, s0, steps);
  }
}
