// The programs that drive the run table: a worker's claim, the end of an attempt
// and its maintenance pass, and the API's manual run. Each, left to itself, is a
// run of the protocol, step by step.
module Processes {
  import opened Basics
  import opened Rows
  import opened Picking
  import opened Store
  import opened History
  import opened Protocol
  import opened Queue
  import opened Upkeep
  import opened LogPages
  import opened RunLog
  import Backoff
  import Job = GenerateText
  import Outcome

  // `steps` take the protocol from s to t.
  ghost predicate Leads(c: Config, s: System, steps: seq<Step>, t: System) {
    Legal(c, s, steps) && Play(c, s, steps) == t
  }

  lemma LeadsNowhere(c: Config, s: System)
    requires WellFormed(s)
    ensures Leads(c, s, [], s)
  {
  }

  lemma LeadsOn(c: Config, s: System, steps: seq<Step>, t: System, step: Step)
    requires Leads(c, s, steps, t) && WellFormed(t) && Enabled(c, t, step)
    ensures Leads(c, s, steps + [step], Next(t, step)) && WellFormed(Next(t, step))
  {
    hide Enabled, Next, WellFormed, Legal, Play;
    NextWellFormed(c, t, step);
    PlayOne(c, t, step);
    PlayAppend(c, s, steps, [step]);
  }

  // The state the protocol and the program agree on.
  ghost predicate Agrees(s: System, table: RunTable, broker: Broker)
    reads table, broker
  {
    WellFormed(s) && s.runs == table.runs && s.retries == table.retries && s.bag == broker.bag
  }

  // The messages still to be dispatched for the last rows of a reply.
  ghost function Owed(out: seq<Redispatch>, from: nat): set<RunId> {
    set i | from <= i < |out| && out[i].status.Queued? :: out[i].runId
  }

  lemma OneLessOwed(out: seq<Redispatch>, i: nat)
    requires i < |out| && forall x, y | 0 <= x < y < |out| :: out[x].runId != out[y].runId
    ensures out[i].status.Queued? ==> out[i].runId in Owed(out, i) && Owed(out, i + 1) == Owed(out, i) - {out[i].runId}
    ensures !out[i].status.Queued? ==> Owed(out, i + 1) == Owed(out, i)
  {
    var id := out[i].runId;
    forall x ensures x in Owed(out, i + 1) <==> x in Owed(out, i) && (x != id || !out[i].status.Queued?) {
      if x in Owed(out, i + 1) {
        var k :| i + 1 <= k < |out| && out[k].status.Queued? && out[k].runId == x;
      }
      if x in Owed(out, i) {
        var k :| i <= k < |out| && out[k].status.Queued? && out[k].runId == x;
        if k != i {
          assert out[k].runId in Owed(out, i + 1);
        }
      }
    }
  }

  lemma OneLess(base: multiset<RunId>, owed: set<RunId>, id: RunId)
    requires id in owed
    ensures id in base + multiset(owed)
    ensures base + multiset(owed) - multiset{id} == base + multiset(owed - {id})
  {
    assert owed == (owed - {id}) + {id};
    assert multiset(owed) == multiset(owed - {id}) + multiset{id};
  }

  lemma DispatchLeads(c: Config, s: System, steps: seq<Step>, t: System, step: Step, id: RunId)
    requires Leads(c, s, steps, t) && WellFormed(t) && id in t.outbox
    requires step == Step.Dispatch(id) || step == LoseDispatch(id)
    ensures Leads(c, s, steps + [step], Next(t, step)) && WellFormed(Next(t, step))
    ensures Next(t, step) == t.(outbox := t.outbox - multiset{id},
                                bag := t.bag + if step.Dispatch? then multiset{id} else multiset{})
  {
    hide Legal, Play, Leads;
    LeadsOn(c, s, steps, t, step);
    assert t.bag + multiset{} == t.bag;
  }

  // The one dispatch a change owes, made or lost.
  lemma DispatchOne(c: Config, s: System, steps: seq<Step>, t: System, step: Step, base: multiset<RunId>, id: RunId)
    requires Leads(c, s, steps, t) && WellFormed(t) && t.outbox == base + multiset{id}
    requires step == Step.Dispatch(id) || step == LoseDispatch(id)
    ensures Leads(c, s, steps + [step], Next(t, step)) && WellFormed(Next(t, step))
    ensures Next(t, step) == t.(outbox := base, bag := t.bag + if step.Dispatch? then multiset{id} else multiset{})
  {
    hide Legal, Play, Leads, Next;
    DispatchLeads(c, s, steps, t, step, id);
    assert base + multiset{id} - multiset{id} == base;
  }

  // The first i rows are dispatched, from s on.
  ghost predicate Dispatching(c: Config, s: System, base: multiset<RunId>, out: seq<Redispatch>, i: nat, deliveries: map<RunId, Delivery>,
                              steps: seq<Step>, t: System)
    requires i <= |out|
  {
    && WellFormed(t) && Leads(c, s, steps, t)
    && t == s.(outbox := base + multiset(Owed(out, i)), bag := s.bag + multiset(InTopic(out, i, deliveries)))
    && (forall x | x in steps :: x.Dispatch? || x.LoseDispatch?)
    && (AllSent(deliveries) ==> forall x | x in steps :: x.Dispatch?)
  }

  lemma NoneDispatched(c: Config, s: System, base: multiset<RunId>, out: seq<Redispatch>, deliveries: map<RunId, Delivery>)
    requires WellFormed(s) && s.outbox == base + multiset(Owed(out, 0))
    ensures Dispatching(c, s, base, out, 0, deliveries, [], s)
  {
    LeadsNowhere(c, s);
    hide Leads, JobsKnown, Owed;
    assert InTopic(out, 0, deliveries) == {};
    assert s.bag + multiset{} == s.bag;
  }

  function DispatchStep(d: Delivery, id: RunId): Step {
    if d.NotSent? then LoseDispatch(id) else Step.Dispatch(id)
  }

  lemma OneMoreDispatched(c: Config, s: System, base: multiset<RunId>, out: seq<Redispatch>, i: nat, deliveries: map<RunId, Delivery>,
                          steps: seq<Step>, t: System)
    requires i < |out| && forall x, y | 0 <= x < y < |out| :: out[x].runId != out[y].runId
    requires Dispatching(c, s, base, out, i, deliveries, steps, t)
    ensures !out[i].status.Queued? ==> Dispatching(c, s, base, out, i + 1, deliveries, steps, t)
    ensures out[i].status.Queued? ==>
              var d := DeliveryOf(deliveries, out[i].runId);
              var step := DispatchStep(d, out[i].runId);
              && Dispatching(c, s, base, out, i + 1, deliveries, steps + [step], Next(t, step))
              && Next(t, step) == t.(outbox := Next(t, step).outbox, bag := if d.NotSent? then t.bag else t.bag + multiset{out[i].runId})
  {
    hide Leads, JobsKnown, Owed, Next, InTopic;
    var id := out[i].runId;
    OneLessOwed(out, i);
    OneMoreInTopic(out, i, deliveries, s.bag);
    assert s.bag + multiset(InTopic(out, i, deliveries)) + multiset{} == s.bag + multiset(InTopic(out, i, deliveries));
    if out[i].status.Queued? {
      OneLess(base, Owed(out, i), id);
      DispatchLeads(c, s, steps, t, DispatchStep(DeliveryOf(deliveries, id), id), id);
    }
  }

  // redispatch, for every row a maintenance statement left QUEUED, as far as its
  // rows were read. A dispatch that fails is only logged.
  method DispatchAll(c: Config, table: RunTable, broker: Broker, out: seq<Redispatch>, read: nat, deliveries: map<RunId, Delivery>,
                     ghost s: System, ghost base: multiset<RunId>)
      returns (ghost steps: seq<Step>, ghost t: System)
    requires Agrees(s, table, broker) && read <= |out|
    requires forall x, y | 0 <= x < y < |out| :: out[x].runId != out[y].runId
    requires s.outbox == base + multiset(Owed(out, 0))
    modifies broker
    ensures Agrees(t, table, broker) && Leads(c, s, steps, t)
    ensures t == s.(outbox := base, bag := s.bag + multiset(InTopic(out, read, deliveries)))
    ensures forall x | x in steps :: x.Dispatch? || x.LoseDispatch?
    ensures read == |out| && AllSent(deliveries) ==> forall x | x in steps :: x.Dispatch?
  {
    steps, t := [], s;
    NoneDispatched(c, s, base, out, deliveries);
    for i := 0 to read
      invariant Dispatching(c, s, base, out, i, deliveries, steps, t) && broker.bag == t.bag
    {
      hide Dispatching, Next;
      OneMoreDispatched(c, s, base, out, i, deliveries, steps, t);
      var r := out[i];
      if r.status.Queued? {
        var d := DeliveryOf(deliveries, r.runId);
        var ok := broker.Dispatch(r.runId, d);
        steps, t := steps + [DispatchStep(d, r.runId)], Next(t, DispatchStep(d, r.runId));
      }
    }
    hide Leads, Owed, InTopic;
    var lost, u := LoseOwed(c, t, out, read, base);
    LeadsBoth(c, s, steps, t, lost, u);
    steps, t := steps + lost, u;
  }

  function DeliveryOf(deliveries: map<RunId, Delivery>, id: RunId): Delivery {
    if id in deliveries then deliveries[id] else Sent
  }

  // The runs among the first `read` rows whose message reached the topic.
  ghost function InTopic(out: seq<Redispatch>, read: nat, deliveries: map<RunId, Delivery>): set<RunId>
    requires read <= |out|
  {
    set i | 0 <= i < read && out[i].status.Queued? && !DeliveryOf(deliveries, out[i].runId).NotSent? :: out[i].runId
  }

  lemma OneMoreInTopic(out: seq<Redispatch>, i: nat, deliveries: map<RunId, Delivery>, bag: multiset<RunId>)
    requires i < |out| && forall x, y | 0 <= x < y < |out| :: out[x].runId != out[y].runId
    ensures bag + multiset(InTopic(out, i + 1, deliveries)) == bag + multiset(InTopic(out, i, deliveries))
              + if out[i].status.Queued? && !DeliveryOf(deliveries, out[i].runId).NotSent? then multiset{out[i].runId} else multiset{}
  {
    var id, was, now := out[i].runId, InTopic(out, i, deliveries), InTopic(out, i + 1, deliveries);
    if out[i].status.Queued? && !DeliveryOf(deliveries, id).NotSent? {
      assert now == was + {id} && id !in was;
      assert multiset(now) == multiset(was) + multiset{id};
    } else {
      assert now == was;
    }
  }

  // No dispatch failed for certain.
  predicate AllSent(deliveries: map<RunId, Delivery>) {
    forall id | id in deliveries :: !deliveries[id].NotSent?
  }

  lemma LoseOne(c: Config, s: System, id: RunId)
    requires WellFormed(s) && id in s.outbox
    ensures Leads(c, s, [LoseDispatch(id)], s.(outbox := s.outbox - multiset{id}))
  {
    hide Legal, Play, Leads, Next;
    LeadsNowhere(c, s);
    DispatchLeads(c, s, [], s, LoseDispatch(id), id);
    assert [] + [LoseDispatch(id)] == [LoseDispatch(id)];
    assert s.bag + multiset{} == s.bag;
  }

  // The rows that were not read: nobody dispatches their runs.
  lemma {:induction false} LoseOwed(c: Config, s: System, out: seq<Redispatch>, i: nat, base: multiset<RunId>)
      returns (steps: seq<Step>, t: System)
    requires WellFormed(s) && i <= |out| && s.outbox == base + multiset(Owed(out, i))
    requires forall x, y | 0 <= x < y < |out| :: out[x].runId != out[y].runId
    ensures Leads(c, s, steps, t) && t == s.(outbox := base)
    ensures (forall x | x in steps :: x.LoseDispatch?) && (i == |out| ==> steps == [])
    decreases |out| - i
  {
    hide Legal, Play, Leads, JobsKnown, Next;
    LeadsNowhere(c, s);
    if i == |out| {
      assert Owed(out, i) == {};
      steps, t := [], s;
    } else {
      var id, first, s1 := out[i].runId, [], s;
      OneLessOwed(out, i);
      hide Owed;
      if out[i].status.Queued? {
        OneLess(base, Owed(out, i), id);
        LoseOne(c, s, id);
        first, s1 := [LoseDispatch(id)], s.(outbox := s.outbox - multiset{id});
      }
      var rest, u := LoseOwed(c, s1, out, i + 1, base);
      LeadsBoth(c, s, first, s1, rest, u);
      steps, t := first + rest, u;
    }
  }

  // ---- A worker's maintenance pass ----

  lemma OwedIsToDispatch(after: map<RunId, Run>, ev: Event, out: seq<Redispatch>)
    requires forall i | 0 <= i < |out| :: out[i].runId in after && out[i].status == after[out[i].runId].status
    ensures ToDispatch(after, All(Ids(out), ev)) == multiset(Owed(out, 0))
  {
    var left := set id | id in All(Ids(out), ev) && id in after && after[id].status.Queued?;
    assert left == Owed(out, 0);
  }

  ghost predicate Maintaining(p: Process, step: Step) {
    match step
    case Tick(_) => true
    case Reap(q, _, _) => q == p
    case ReturnDue(q, _, _) => q == p
    case Sweep(q, _, _) => q == p
    case Dispatch(_) => true
    case LoseDispatch(_) => true
    case _ => false
  }

  // A maintenance statement is a step of the protocol, and owes a dispatch for
  // every row it left QUEUED.
  ghost predicate StepOf(c: Config, s: System, step: Step, after: map<RunId, Run>, out: seq<Redispatch>)
    requires WellFormed(s)
  {
    && Enabled(c, s, step)
    && var t := Next(s, step);
    && t.runs == after && t.retries == s.retries && t.bag == s.bag && t.now == s.now && t.tickets == s.tickets
    && t.outbox == s.outbox + multiset(Owed(out, 0))
  }

  lemma ReapIsStep(c: Config, s: System, p: Process, locked: set<RunId>, after: map<RunId, Run>, out: seq<Redispatch>)
    requires WellFormed(s)
    requires Maintains(s.runs, after, s.retries, s.now, StaleKeys(s.runs, s.now, c.staleAfter), locked, c.batch, Reaped, out)
    ensures StepOf(c, s, Reap(p, Ids(out), locked), after, out)
  {
    OwedIsToDispatch(after, Reaped, out);
    hide Owed, Ids, ToDispatch, Touch, Picks, StaleKeys;
  }

  lemma ReturnDueIsStep(c: Config, s: System, p: Process, locked: set<RunId>, after: map<RunId, Run>, out: seq<Redispatch>)
    requires WellFormed(s)
    requires Maintains(s.runs, after, s.retries, s.now, DueKeys(s.runs, s.now), locked, c.batch, DueReturned, out)
    ensures StepOf(c, s, ReturnDue(p, Ids(out), locked), after, out)
  {
    OwedIsToDispatch(after, DueReturned, out);
    hide Owed, Ids, ToDispatch, Touch, Picks, DueKeys;
  }

  lemma SweepIsStep(c: Config, s: System, p: Process, locked: set<RunId>, after: map<RunId, Run>, out: seq<Redispatch>)
    requires WellFormed(s)
    requires Maintains(s.runs, after, s.retries, s.now, StuckKeys(s.runs, s.now, c.sweepAfter), locked, c.batch, Swept, out)
    ensures StepOf(c, s, Sweep(p, Ids(out), locked), after, out)
  {
    OwedIsToDispatch(after, Swept, out);
    hide Owed, Ids, ToDispatch, Touch, Picks, StuckKeys;
  }

  // The clock moves on to `now`.
  lemma Later(c: Config, s: System, steps: seq<Step>, t: System, now: Time)
    requires Leads(c, s, steps, t) && WellFormed(t) && t.now <= now
    ensures Leads(c, s, steps + [Tick(now)], t.(now := now)) && WellFormed(t.(now := now))
  {
    LeadsOn(c, s, steps, t, Tick(now));
  }

  lemma LeadsBoth(c: Config, s: System, xs: seq<Step>, t: System, ys: seq<Step>, u: System)
    requires Leads(c, s, xs, t) && Leads(c, t, ys, u)
    ensures Leads(c, s, xs + ys, u)
  {
    hide Legal, Play;
    PlayAppend(c, s, xs, ys);
  }

  // One statement of a pass: its clock reading and what became of the call. If the
  // reply was lost, `read` of its rows came before the error.
  datatype Pass = Pass(now: Time, locked: set<RunId>, call: Call, read: nat, deliveries: map<RunId, Delivery>)

  // Nothing keeps the pass from dispatching every run it should.
  predicate Unfailing(pass: Pass) {
    pass.call.Replied? && AllSent(pass.deliveries)
  }

  // A maintenance pass has taken the protocol from s to t so far.
  ghost predicate Maintained(c: Config, p: Process, s: System, steps: seq<Step>, t: System, unfailing: bool) {
    && Leads(c, s, steps, t) && s.now <= t.now && t.outbox == s.outbox && t.tickets == s.tickets
    && (forall x | x in steps :: Maintaining(p, x))
    && (unfailing ==> forall x | x in steps :: !x.LoseDispatch?)
  }

  // A statement that did not take effect.
  lemma NoStatement(c: Config, p: Process, s: System, steps0: seq<Step>, t0: System, unfailing: bool, now: Time)
    requires Maintained(c, p, s, steps0, t0, unfailing) && WellFormed(t0) && t0.now <= now
    ensures Maintained(c, p, s, steps0 + [Tick(now)], t0.(now := now), false) && WellFormed(t0.(now := now))
  {
    hide Leads;
    Later(c, s, steps0, t0, now);
  }

  // One statement of a maintenance pass is behind it: the protocol takes the
  // clock's step, the statement's, and one for every dispatch.
  method Dispatched(c: Config, p: Process, table: RunTable, broker: Broker, ghost step: Step, out: seq<Redispatch>, pass: Pass,
                    ghost s: System, ghost steps0: seq<Step>, ghost t0: System, ghost unfailing: bool)
      returns (ghost steps: seq<Step>, ghost t: System)
    requires Maintained(c, p, s, steps0, t0, unfailing) && WellFormed(t0) && t0.now <= pass.now
    requires Maintaining(p, step) && !step.LoseDispatch? && t0.retries == table.retries && t0.bag == broker.bag
    requires StepOf(c, t0.(now := pass.now), step, table.runs, out)
    requires forall x, y | 0 <= x < y < |out| :: out[x].runId != out[y].runId
    modifies broker
    ensures Agrees(t, table, broker) && t.now == pass.now && t0.bag <= t.bag
    ensures Maintained(c, p, s, steps, t, unfailing && Unfailing(pass))
    ensures Unfailing(pass) ==> forall i | 0 <= i < |out| && out[i].status.Queued? :: out[i].runId in t.bag
  {
    hide Legal, Play, Enabled, Next, Owed, Leads, JobsKnown, Picks;
    Later(c, s, steps0, t0, pass.now);
    ghost var t1 := t0.(now := pass.now);
    LeadsOn(c, s, steps0 + [Tick(pass.now)], t1, step);
    var read := if pass.call.Replied? || pass.read > |out| then |out| else pass.read;
    var more, u := DispatchAll(c, table, broker, out, read, pass.deliveries, Next(t1, step), t0.outbox);
    LeadsBoth(c, s, steps0 + [Tick(pass.now)] + [step], Next(t1, step), more, u);
    steps, t := steps0 + [Tick(pass.now)] + [step] + more, u;
  }

  lemma NothingUpheld(runs: map<RunId, Run>, retries: map<JobId, nat>, cands: map<RunId, Time>, batch: nat, pass: Pass, ev: Event)
    requires JobsKnown(runs, retries)
    ensures Upholds(runs, runs, retries, cands, batch, Statement(pass.now, pass.locked, false, {}), ev)
  {
    assert Touch(runs, retries, pass.now, All({}, ev)) == runs;
  }

  method ReapOnce(c: Config, p: Process, table: RunTable, broker: Broker, pass: Pass,
                  ghost s: System, ghost steps0: seq<Step>, ghost t0: System, ghost unfailing: bool)
      returns (ghost steps: seq<Step>, ghost t: System, ghost st: Statement)
    requires table.Valid() && Agrees(t0, table, broker) && Maintained(c, p, s, steps0, t0, unfailing) && t0.now <= pass.now
    modifies table`runs, broker
    ensures table.Valid() && Agrees(t, table, broker) && t.now == pass.now
    ensures Maintained(c, p, s, steps, t, unfailing && Unfailing(pass))
    ensures st.now == pass.now && st.locked == pass.locked && (st.reached <==> !pass.call.NotReached?)
    ensures Upholds(t0.runs, t.runs, t0.retries, StaleKeys(t0.runs, pass.now, c.staleAfter), c.batch, st, Reaped)
    ensures t.retries == t0.retries && t0.bag <= t.bag && (pass.call.NotReached? ==> t.runs == t0.runs)
    ensures Unfailing(pass) ==> InFlight(st.picked, t)
  {
    hide Maintained, Owed, Enabled, Next, JobsKnown, StepOf, UniqueKeys, StaleKeys, Picks;
    if pass.call.NotReached? {
      NoStatement(c, p, s, steps0, t0, unfailing, pass.now);
      NothingUpheld(t0.runs, t0.retries, StaleKeys(t0.runs, pass.now, c.staleAfter), c.batch, pass, Reaped);
      return steps0 + [Tick(pass.now)], t0.(now := pass.now), Statement(pass.now, pass.locked, false, {});
    }
    var out := table.ReapStale(c.staleAfter, c.batch, pass.locked, pass.now);
    ReapIsStep(c, t0.(now := pass.now), p, pass.locked, table.runs, out);
    steps, t := Dispatched(c, p, table, broker, Reap(p, Ids(out), pass.locked), out, pass, s, steps0, t0, unfailing);
    st := Statement(pass.now, pass.locked, true, Ids(out));
    assert forall id | id in st.picked :: exists i :: 0 <= i < |out| && out[i].runId == id;
  }

  method ReturnOnce(c: Config, p: Process, table: RunTable, broker: Broker, pass: Pass,
                    ghost s: System, ghost steps0: seq<Step>, ghost t0: System, ghost unfailing: bool)
      returns (ghost steps: seq<Step>, ghost t: System, ghost st: Statement)
    requires table.Valid() && Agrees(t0, table, broker) && Maintained(c, p, s, steps0, t0, unfailing) && t0.now <= pass.now
    modifies table`runs, broker
    ensures table.Valid() && Agrees(t, table, broker) && t.now == pass.now
    ensures Maintained(c, p, s, steps, t, unfailing && Unfailing(pass))
    ensures st.now == pass.now && st.locked == pass.locked && (st.reached <==> !pass.call.NotReached?)
    ensures Upholds(t0.runs, t.runs, t0.retries, DueKeys(t0.runs, pass.now), c.batch, st, DueReturned)
    ensures t.retries == t0.retries && t0.bag <= t.bag && (pass.call.NotReached? ==> t.runs == t0.runs)
    ensures Unfailing(pass) ==> InFlight(st.picked, t)
  {
    hide Maintained, Owed, Enabled, Next, JobsKnown, StepOf, UniqueKeys, DueKeys, Picks;
    if pass.call.NotReached? {
      NoStatement(c, p, s, steps0, t0, unfailing, pass.now);
      NothingUpheld(t0.runs, t0.retries, DueKeys(t0.runs, pass.now), c.batch, pass, DueReturned);
      return steps0 + [Tick(pass.now)], t0.(now := pass.now), Statement(pass.now, pass.locked, false, {});
    }
    var out := table.DueRetries(c.batch, pass.locked, pass.now);
    ReturnDueIsStep(c, t0.(now := pass.now), p, pass.locked, table.runs, out);
    steps, t := Dispatched(c, p, table, broker, ReturnDue(p, Ids(out), pass.locked), out, pass, s, steps0, t0, unfailing);
    st := Statement(pass.now, pass.locked, true, Ids(out));
    assert forall id | id in st.picked :: exists i :: 0 <= i < |out| && out[i].runId == id;
  }

  method SweepOnce(c: Config, p: Process, table: RunTable, broker: Broker, pass: Pass,
                   ghost s: System, ghost steps0: seq<Step>, ghost t0: System, ghost unfailing: bool)
      returns (ghost steps: seq<Step>, ghost t: System, ghost st: Statement)
    requires table.Valid() && Agrees(t0, table, broker) && Maintained(c, p, s, steps0, t0, unfailing) && t0.now <= pass.now
    modifies table`runs, broker
    ensures table.Valid() && Agrees(t, table, broker) && t.now == pass.now
    ensures Maintained(c, p, s, steps, t, unfailing && Unfailing(pass))
    ensures st.now == pass.now && st.locked == pass.locked && (st.reached <==> !pass.call.NotReached?)
    ensures Upholds(t0.runs, t.runs, t0.retries, StuckKeys(t0.runs, pass.now, c.sweepAfter), c.batch, st, Swept)
    ensures t.retries == t0.retries && t0.bag <= t.bag && (pass.call.NotReached? ==> t.runs == t0.runs)
    ensures Unfailing(pass) ==> InFlight(st.picked, t)
  {
    hide Maintained, Owed, Enabled, Next, JobsKnown, StepOf, UniqueKeys, StuckKeys, Picks;
    if pass.call.NotReached? {
      NoStatement(c, p, s, steps0, t0, unfailing, pass.now);
      NothingUpheld(t0.runs, t0.retries, StuckKeys(t0.runs, pass.now, c.sweepAfter), c.batch, pass, Swept);
      return steps0 + [Tick(pass.now)], t0.(now := pass.now), Statement(pass.now, pass.locked, false, {});
    }
    var out := table.SweepQueued(c.sweepAfter, c.batch, pass.locked, pass.now);
    SweepIsStep(c, t0.(now := pass.now), p, pass.locked, table.runs, out);
    steps, t := Dispatched(c, p, table, broker, Sweep(p, Ids(out), pass.locked), out, pass, s, steps0, t0, unfailing);
    st := Statement(pass.now, pass.locked, true, Ids(out));
    assert forall id | id in st.picked :: exists i :: 0 <= i < |out| && out[i].runId == id;
  }

  // maintain, one tick of its timer: reap, return due retries, sweep, and
  // dispatch whatever each of them left QUEUED.
  method MaintainOnce(c: Config, p: Process, table: RunTable, broker: Broker, reap: Pass, due: Pass, sweep: Pass, ghost s: System)
      returns (ghost steps: seq<Step>, ghost t: System)
    requires table.Valid() && Agrees(s, table, broker)
    requires s.now <= reap.now <= due.now <= sweep.now
    modifies table`runs, broker
    ensures table.Valid() && Agrees(t, table, broker) && Leads(c, s, steps, t)
    ensures forall x | x in steps :: Maintaining(p, x)
    ensures t.outbox == s.outbox && t.now == sweep.now && t.tickets == s.tickets
    ensures Unfailing(reap) && Unfailing(due) && Unfailing(sweep) ==> forall x | x in steps :: !x.LoseDispatch?
    ensures Reaps(s.runs, t.runs, s.retries, reap.now - c.staleAfter, Share(reap, c.batch))
    ensures Inv(c, s) ==> Returns(s.runs, t.runs, due.now, sweep.now, Share(due, c.batch))
    ensures InTime(c, reap, sweep) ==> Sweeps(s.runs, t.runs, due.now, sweep.now, c.sweepAfter, Share(sweep, c.batch))
    ensures Unfailing(reap) && Unfailing(due) && Unfailing(sweep) ==>
              && InFlight(TakenBack(SilentRuns(s.runs, reap.now - c.staleAfter), s.runs, t.runs), t)
              && (Inv(c, s) ==> InFlight(LetGo(OwedRetries(s.runs, due.now), t.runs), t))
              && (InTime(c, reap, sweep) ==>
                    InFlight(Refreshed(IdleRuns(s.runs, sweep.now - c.sweepAfter, sweep.now), t.runs), t))
    ensures reap.call.NotReached? && due.call.NotReached? && sweep.call.NotReached? ==> t.runs == s.runs
  {
    hide Leads, Maintaining, JobsKnown, UniqueKeys, Unfailing, Inv, Upholds, Reaps, Returns, Sweeps, Settled, InFlight;
    hide StaleKeys, DueKeys, StuckKeys, SilentRuns, OwedRetries, IdleRuns, TakenBack, LetGo, Refreshed;
    LeadsNowhere(c, s);
    ghost var st1, st2, st3: Statement;
    steps, t, st1 := ReapOnce(c, p, table, broker, reap, s, [], s, true);
    ghost var u1 := t;
    steps, t, st2 := ReturnOnce(c, p, table, broker, due, s, steps, t, Unfailing(reap));
    ghost var u2 := t;
    steps, t, st3 := SweepOnce(c, p, table, broker, sweep, s, steps, t, Unfailing(reap) && Unfailing(due));
    PassDone(c, s, u1, u2, t, reap, due, sweep, st1, st2, st3);
  }

  lemma PassDone(c: Config, s: System, u1: System, u2: System, t: System, reap: Pass, due: Pass, sweep: Pass,
                 st1: Statement, st2: Statement, st3: Statement)
    requires s.now <= reap.now <= due.now <= sweep.now
    requires st1.now == reap.now && st1.locked == reap.locked && (st1.reached <==> !reap.call.NotReached?)
    requires st2.now == due.now && st2.locked == due.locked && (st2.reached <==> !due.call.NotReached?)
    requires st3.now == sweep.now && st3.locked == sweep.locked && (st3.reached <==> !sweep.call.NotReached?)
    requires IsPass(s.runs, u1.runs, u2.runs, t.runs, s.retries, c.staleAfter, c.sweepAfter, c.batch, st1, st2, st3)
    requires u1.bag <= u2.bag <= t.bag
    requires Unfailing(reap) ==> InFlight(st1.picked, u1)
    requires Unfailing(due) ==> InFlight(st2.picked, u2)
    requires Unfailing(sweep) ==> InFlight(st3.picked, t)
    ensures Reaps(s.runs, t.runs, s.retries, reap.now - c.staleAfter, Share(reap, c.batch))
    ensures Inv(c, s) ==> Returns(s.runs, t.runs, due.now, sweep.now, Share(due, c.batch))
    ensures InTime(c, reap, sweep) ==> Sweeps(s.runs, t.runs, due.now, sweep.now, c.sweepAfter, Share(sweep, c.batch))
    ensures Unfailing(reap) && Unfailing(due) && Unfailing(sweep) ==>
              && InFlight(TakenBack(SilentRuns(s.runs, reap.now - c.staleAfter), s.runs, t.runs), t)
              && (Inv(c, s) ==> InFlight(LetGo(OwedRetries(s.runs, due.now), t.runs), t))
              && (InTime(c, reap, sweep) ==>
                    InFlight(Refreshed(IdleRuns(s.runs, sweep.now - c.sweepAfter, sweep.now), t.runs), t))
  {
    hide IsPass, Inv, Reaps, Returns, Sweeps, Settled, Unfailing, TakenBack, LetGo, Refreshed, SilentRuns, OwedRetries, IdleRuns;
    var runs, r1, r2, r3 := s.runs, u1.runs, u2.runs, t.runs;
    PassReaps(runs, r1, r2, r3, s.retries, c.staleAfter, c.sweepAfter, c.batch, st1, st2, st3);
    if Inv(c, s) {
      InvSettles(c, s, reap.now);
      PassReturns(runs, r1, r2, r3, s.retries, c.staleAfter, c.sweepAfter, c.batch, st1, st2, st3);
    }
    if InTime(c, reap, sweep) {
      PassSweeps(runs, r1, r2, r3, s.retries, c.staleAfter, c.sweepAfter, c.batch, st1, st2, st3);
    }
  }

  // How many rows a statement takes if nothing hinders it.
  function Share(pass: Pass, batch: nat): Option<nat> {
    if pass.call.NotReached? || pass.locked != {} then None else Some(batch)
  }

  // The pass is over before what it queued itself has been idle for too long.
  predicate InTime(c: Config, reap: Pass, sweep: Pass) {
    c.sweepAfter >= 0 && sweep.now - c.sweepAfter <= reap.now
  }

  // Those left QUEUED have a message in flight.
  ghost predicate InFlight(ids: set<RunId>, t: System) {
    forall id | id in ids && id in t.runs && t.runs[id].status.Queued? :: id in t.bag
  }

  lemma InvSettles(c: Config, s: System, now: Time)
    requires Inv(c, s) && s.now <= now
    ensures Settled(s.runs, now)
  {
    hide FaithfulAt;
    forall id | id in s.runs ensures s.runs[id].queuedAt <= now && (s.runs[id].status.Running? ==> s.runs[id].nextAttemptAt.None?) {
      KnownAt(c, s, id);
    }
  }

  // ---- A message arrives ----

  lemma TouchNothing(s: System, who: Process)
    requires WellFormed(s)
    ensures Touch(s.runs, s.retries, s.now, map[]) == s.runs && Applied(s, who, map[]) == s
  {
  }

  lemma ClaimIsStep(c: Config, s: System, p: Process, id: RunId, replyLost: bool)
    requires WellFormed(s) && id in s.bag
    ensures var t := Next(s, Claim(p, id, replyLost));
            && Enabled(c, s, Claim(p, id, replyLost))
            && t == s.(runs := t.runs, hist := t.hist, tickets := s.tickets + Earned(s, p, id, replyLost))
            && (id in s.runs ==> id in t.runs && t.runs[id].attempt == s.runs[id].attempt)
            && t.runs == if id in s.runs && Admits(s.runs[id], s.now, Claimed(p.name))
                         then Touch(s.runs, s.retries, s.now, map[id := Claimed(p.name)]) else s.runs
  {
    TouchNothing(s, p);
    if id in s.runs {
      ClaimKeepsAttempt(s, p, id);
    }
    hide After, Touch;
  }

  lemma ClaimKeepsAttempt(s: System, p: Process, id: RunId)
    requires WellFormed(s) && id in s.runs
    ensures Touch(s.runs, s.retries, s.now, map[id := Claimed(p.name)])[id].attempt == s.runs[id].attempt
  {
  }

  // A run waiting for a worker, its backoff over.
  predicate Claimable(s: System, id: RunId, now: Time) {
    && id in s.runs && s.runs[id].status.Queued?
    && (s.runs[id].nextAttemptAt.Some? ==> s.runs[id].nextAttemptAt.value <= now)
  }

  // The run is the worker's from now on, at the attempt it waited for, and no other
  // row has changed.
  ghost predicate IsClaimed(runs: map<RunId, Run>, runs': map<RunId, Run>, id: RunId, worker: WorkerId, now: Time) {
    && id in runs && id in runs' && runs' == runs[id := runs'[id]]
    && var r, r' := runs[id], runs'[id];
    && r'.status.Running? && r'.attempt == r.attempt && r'.workerId == Some(worker) && r'.startedAt == Some(now)
    && r'.lastHeartbeatAt == Some(now) && r'.nextAttemptAt.None?
  }

  lemma ClaimWrites(s: System, id: RunId, worker: WorkerId, now: Time)
    requires WellFormed(s)
    ensures Claimable(s, id, now) <==> id in s.runs && Admits(s.runs[id], now, Claimed(worker))
    ensures id in s.runs ==> IsClaimed(s.runs, Touch(s.runs, s.retries, now, map[id := Claimed(worker)]), id, worker, now)
  {
  }

  // claim: a run only if the database said so. An error leaves the claim unknown.
  method ClaimMessage(c: Config, p: Process, table: RunTable, broker: Broker, id: RunId, now: Time, call: Call, ghost s: System)
      returns (got: Option<Run>, ghost steps: seq<Step>, ghost t: System)
    requires table.Valid() && Agrees(s, table, broker) && s.now <= now && id in broker.bag
    modifies table`runs
    ensures table.Valid() && Agrees(t, table, broker) && Leads(c, s, steps, t)
    ensures got.Some? <==> call.Replied? && Claimable(s, id, now)
    ensures if call.NotReached? || !Claimable(s, id, now) then t.runs == s.runs else IsClaimed(s.runs, t.runs, id, p.name, now)
    ensures got.Some? ==> t.runs[id] == got.value
    ensures t.tickets == s.tickets + if got.Some? then {Ticket(p, id, got.value.attempt)} else {}
    ensures t.outbox == s.outbox && t.bag == s.bag
  {
    hide Legal, Play, Leads, JobsKnown, UniqueKeys, Touch, After;
    LeadsNowhere(c, s);
    if call.NotReached? {
      return None, [], s;
    }
    ClaimWrites(s, id, p.name, now);
    Later(c, s, [], s, now);
    ghost var s1 := s.(now := now);
    ghost var step := Claim(p, id, call.ReplyLost?);
    ClaimIsStep(c, s1, p, id, call.ReplyLost?);
    got := table.ClaimRun(id, p.name, now);
    LeadsOn(c, s, [] + [Tick(now)], s1, step);
    steps, t := [] + [Tick(now)] + [step], Next(s1, step);
    if call.ReplyLost? {
      got := None;
    }
  }

  // consume, one message: claim its run, and commit the message whether or not
  // the claim succeeded. An uncommitted message is delivered again.
  method Consume(c: Config, p: Process, table: RunTable, broker: Broker, id: RunId, now: Time, call: Call, committed: bool,
                 ghost s: System)
      returns (got: Option<Run>, ghost steps: seq<Step>, ghost t: System)
    requires table.Valid() && Agrees(s, table, broker) && s.now <= now && id in broker.bag
    modifies table`runs, broker
    ensures table.Valid() && Agrees(t, table, broker) && Leads(c, s, steps, t)
    ensures got.Some? <==> call.Replied? && Claimable(s, id, now)
    ensures if call.NotReached? || !Claimable(s, id, now) then t.runs == s.runs else IsClaimed(s.runs, t.runs, id, p.name, now)
    ensures got.Some? ==> t.runs[id] == got.value
    ensures t.tickets == s.tickets + if got.Some? then {Ticket(p, id, got.value.attempt)} else {}
    ensures t.outbox == s.outbox && t.bag == if committed then s.bag - multiset{id} else s.bag
  {
    hide Legal, Play, Leads, JobsKnown, UniqueKeys, Touch, After, IsClaimed;
    got, steps, t := ClaimMessage(c, p, table, broker, id, now, call, s);
    if committed {
      LeadsOn(c, s, steps, t, Drop(id));
      broker.bag := broker.bag - multiset{id};
      steps, t := steps + [Drop(id)], Next(t, Drop(id));
    }
  }

  // ---- An attempt ends ----

  // Why the job's context was cancelled, if it was.
  datatype Cause = NoCause | LostRun | Shutdown | TimedOut(seconds: nat)

  function ErrorText(e: Job.JobError): string {
    if e.Stopped? then "context canceled" else e.message
  }

  function TimeoutText(seconds: nat): string {
    "timed out after " + Digits(seconds) + "s"
  }

  function ReleaseReason(worker: WorkerId): string {
    "released by " + worker + " shutting down"
  }

  // What the attempt's claimant writes. An attempt that ran to its end counts as
  // a success even if its context was cancelled meanwhile; one stopped because
  // another attempt owns the run writes nothing.
  function EndingOf(c: Config, tk: Ticket, result: Job.Outcome, cause: Cause): Option<Event> {
    if result.Ok? then Some(Finished(Succeeded, Some(result.output), None))
    else match cause
      case LostRun => None
      case Shutdown => Some(Released(ReleaseReason(tk.owner.name)))
      case TimedOut(seconds) => Some(FailedAttempt(TimeoutText(seconds), c.policy.Wait(tk.attempt)))
      case NoCause => Some(FailedAttempt(ErrorText(result.error), c.policy.Wait(tk.attempt)))
  }

  predicate Owned(s: System, tk: Ticket) {
    tk.run in s.runs && Owns(s.runs[tk.run], tk.owner.name, tk.attempt)
  }

  lemma WriteIsStep(c: Config, s: System, tk: Ticket, ev: Event)
    requires WellFormed(s) && tk in s.tickets && OwnWrite(c, tk, ev)
    ensures var t := Next(s, Write(tk, ev));
            && Enabled(c, s, Write(tk, ev))
            && t.now == s.now && t.retries == s.retries && t.bag == s.bag && t.tickets == s.tickets
            && t.runs == (if Owned(s, tk) then Touch(s.runs, s.retries, s.now, map[tk.run := ev]) else s.runs)
            && t.outbox == s.outbox + if Owned(s, tk) && ev.Released? then multiset{tk.run} else multiset{}
  {
    TouchNothing(s, tk.owner);
    if Owned(s, tk) && ev.Released? {
      var t := Touch(s.runs, s.retries, s.now, map[tk.run := ev]);
      var left := set id | id in map[tk.run := ev] && id in t && t[id].status.Queued?;
      assert left == {tk.run};
    }
    hide After, Touch;
  }

  // What the steps write of the attempt: nothing, or its one ending.
  ghost predicate Writes(steps: seq<Step>, tk: Ticket, ending: Option<Event>) {
    && (ending.None? ==> steps == [])
    && (ending.Some? ==> |steps| >= 2 && steps[0].Tick? && steps[1] == Write(tk, ending.value)
                         && forall i | 2 <= i < |steps| :: steps[i].Dispatch? || steps[i].LoseDispatch?)
  }

  // One write of the attempt's owner is behind it.
  lemma OneWrite(c: Config, s: System, now: Time, tk: Ticket, ev: Event)
    requires WellFormed(s) && s.now <= now && tk in s.tickets && OwnWrite(c, tk, ev)
    ensures WellFormed(s.(now := now))
    ensures Leads(c, s, [Tick(now), Write(tk, ev)], Next(s.(now := now), Write(tk, ev)))
    ensures WellFormed(Next(s.(now := now), Write(tk, ev)))
  {
    hide Legal, Play, Leads, Next, JobsKnown, OwnWrite;
    LeadsNowhere(c, s);
    Later(c, s, [], s, now);
    WriteIsStep(c, s.(now := now), tk, ev);
    LeadsOn(c, s, [] + [Tick(now)], s.(now := now), Write(tk, ev));
    assert [] + [Tick(now)] + [Write(tk, ev)] == [Tick(now), Write(tk, ev)];
  }

  // The ending a call makes: none if it does not reach the database.
  function Made(ending: Option<Event>, call: Call): Option<Event> {
    if call.NotReached? then None else ending
  }

  // ---- What an ending does to the run, column by column ----

  ghost predicate IsDone(r: Run, r': Run, output: string, now: Time) {
    && r'.status.Succeeded? && r'.attempt == r.attempt
    && r'.output == Some(output) && r'.error.None? && r'.finishedAt == Some(now)
  }

  // For good if it had no retries left, and else until `wait` is over.
  ghost predicate IsFailed(r: Run, r': Run, maxRetries: nat, text: string, wait: Time, now: Time) {
    && r'.error == Some(text)
    && (if r.attempt > maxRetries then
          r'.status.Failed? && r'.attempt == r.attempt && r'.finishedAt == Some(now) && r'.nextAttemptAt.None?
        else
          && r'.status.Queued? && r'.attempt == r.attempt + 1 && r'.workerId.None? && r'.finishedAt.None?
          && r'.nextAttemptAt == Some(now + wait))
  }

  // At once, whatever its attempt.
  ghost predicate IsHandedBack(r: Run, r': Run, reason: string, now: Time) {
    && r'.error == Some(reason)
    && r'.status.Queued? && r'.attempt == r.attempt + 1 && r'.workerId.None? && r'.queuedAt == now
    && (r.nextAttemptAt.None? ==> r'.nextAttemptAt.None?)
  }

  // No row has changed but that of the attempt's run.
  ghost predicate OnlyItsRun(s: System, runs: map<RunId, Run>, tk: Ticket) {
    && tk.run in s.runs && tk.run in runs && s.runs[tk.run].jobId in s.retries
    && runs == s.runs[tk.run := runs[tk.run]]
  }

  // One statement of the attempt's owner that took effect.
  lemma WroteRow(s: System, t: System, tk: Ticket, ev: Event, now: Time)
    requires WellFormed(s) && tk.run in s.runs && t.runs == Touch(s.runs, s.retries, now, map[tk.run := ev])
    ensures OnlyItsRun(s, t.runs, tk)
    ensures t.runs[tk.run] == After(s.runs[tk.run], s.retries[s.runs[tk.run].jobId], now, ev)
  {
    hide After;
  }

  lemma SucceedWrites(s: System, t: System, tk: Ticket, output: string, now: Time)
    requires WellFormed(s) && tk.run in s.runs
    requires t.runs == Touch(s.runs, s.retries, now, map[tk.run := Finished(Succeeded, Some(output), None)])
    ensures OnlyItsRun(s, t.runs, tk) && IsDone(s.runs[tk.run], t.runs[tk.run], output, now)
  {
    hide Touch;
    WroteRow(s, t, tk, Finished(Succeeded, Some(output), None), now);
  }

  lemma FailWrites(s: System, t: System, tk: Ticket, text: string, wait: Time, now: Time)
    requires WellFormed(s) && tk.run in s.runs
    requires t.runs == Touch(s.runs, s.retries, now, map[tk.run := FailedAttempt(text, wait)])
    ensures OnlyItsRun(s, t.runs, tk)
    ensures IsFailed(s.runs[tk.run], t.runs[tk.run], s.retries[s.runs[tk.run].jobId], text, wait, now)
  {
    hide Touch;
    WroteRow(s, t, tk, FailedAttempt(text, wait), now);
  }

  lemma ReleaseWrites(s: System, t: System, tk: Ticket, reason: string, now: Time)
    requires WellFormed(s) && tk.run in s.runs
    requires t.runs == Touch(s.runs, s.retries, now, map[tk.run := Released(reason)])
    ensures OnlyItsRun(s, t.runs, tk) && IsHandedBack(s.runs[tk.run], t.runs[tk.run], reason, now)
  {
    hide Touch;
    WroteRow(s, t, tk, Released(reason), now);
  }

  // A result counts however the attempt was cancelled meanwhile; a failed attempt is
  // handed back on shutdown, is left to the new owner if it was lost, and fails
  // otherwise.
  ghost predicate Concludes(c: Config, s: System, t: System, tk: Ticket, result: Job.Outcome, cause: Cause, now: Time) {
    if result.Err? && cause.LostRun? then t.runs == s.runs
    else
      && OnlyItsRun(s, t.runs, tk)
      && var r, r', maxRetries, wait := s.runs[tk.run], t.runs[tk.run], s.retries[s.runs[tk.run].jobId], c.policy.Wait(tk.attempt);
      && (result.Ok? ==> IsDone(r, r', result.output, now))
      && (result.Err? && cause.Shutdown? ==> IsHandedBack(r, r', "released by " + tk.owner.name + " shutting down", now))
      && (result.Err? && cause.TimedOut? ==>
            exists text :: IsFailed(r, r', maxRetries, text, wait, now) && Job.Names(text, "timed out after ", cause.seconds, "s"))
      && (result.Err? && cause.NoCause? ==>
            IsFailed(r, r', maxRetries, if result.error.Deliberate? then result.error.message else "context canceled", wait, now))
  }

  // A message goes out for a run known to have been handed back.
  function Announced(s: System, tk: Ticket, result: Job.Outcome, cause: Cause, call: Call, delivery: Delivery): multiset<RunId> {
    if result.Err? && cause.Shutdown? && Owned(s, tk) && call.Replied? && !delivery.NotSent? then multiset{tk.run} else multiset{}
  }

  // The call reaches the database while the attempt is still the worker's.
  ghost predicate TakesEffect(s: System, tk: Ticket, call: Call) {
    !call.NotReached? && Owned(s, tk)
  }

  // heartbeat, one tick: the attempt is given up only if the database says that it
  // is somebody else's; an error is only logged.
  method BeatOnce(c: Config, table: RunTable, broker: Broker, tk: Ticket, now: Time, call: Call, ghost s: System)
      returns (lost: bool, ghost steps: seq<Step>, ghost t: System)
    requires table.Valid() && Agrees(s, table, broker) && s.now <= now && tk in s.tickets
    modifies table`runs
    ensures table.Valid() && Agrees(t, table, broker) && Leads(c, s, steps, t)
    ensures Writes(steps, tk, Made(Some(Beat), call))
    ensures lost <==> call.Replied? && !Owned(s, tk)
    ensures TakesEffect(s, tk, call) ==>
              OnlyItsRun(s, t.runs, tk) && t.runs[tk.run] == s.runs[tk.run].(lastHeartbeatAt := Some(now))
    ensures (!TakesEffect(s, tk, call) ==> t.runs == s.runs) && t.bag == s.bag && t.outbox == s.outbox && t.tickets == s.tickets
  {
    hide Legal, Play, Leads, Next, JobsKnown, UniqueKeys, Touch, Owns;
    LeadsNowhere(c, s);
    if call.NotReached? {
      return false, [], s;
    }
    WriteIsStep(c, s.(now := now), tk, Beat);
    OneWrite(c, s, now, tk, Beat);
    var ok := table.Heartbeat(tk.run, tk.owner.name, tk.attempt, now);
    lost := call.Replied? && !ok;
    steps, t := [Tick(now), Write(tk, Beat)], Next(s.(now := now), Write(tk, Beat));
    if ok {
      WroteRow(s, t, tk, Beat, now);
    }
  }

  method Succeed(c: Config, table: RunTable, broker: Broker, tk: Ticket, output: string, now: Time, call: Call, ghost s: System)
      returns (ghost steps: seq<Step>, ghost t: System)
    requires table.Valid() && Agrees(s, table, broker) && s.now <= now && tk in s.tickets
    modifies table`runs
    ensures table.Valid() && Agrees(t, table, broker) && Leads(c, s, steps, t)
    ensures Writes(steps, tk, Made(Some(Finished(Succeeded, Some(output), None)), call))
    ensures t.outbox == s.outbox && t.tickets == s.tickets
    ensures TakesEffect(s, tk, call) ==> OnlyItsRun(s, t.runs, tk) && IsDone(s.runs[tk.run], t.runs[tk.run], output, now)
    ensures (!TakesEffect(s, tk, call) ==> t.runs == s.runs) && t.bag == s.bag
  {
    hide Legal, Play, Leads, Next, JobsKnown, UniqueKeys, Touch, After, Owns;
    LeadsNowhere(c, s);
    if call.NotReached? {
      return [], s;
    }
    ghost var ev := Finished(Succeeded, Some(output), None);
    WriteIsStep(c, s.(now := now), tk, ev);
    OneWrite(c, s, now, tk, ev);
    var ok := table.FinishRun(tk.run, tk.owner.name, tk.attempt, Succeeded, Some(output), None, now);
    steps, t := [Tick(now), Write(tk, ev)], Next(s.(now := now), Write(tk, ev));
    if Owned(s, tk) {
      SucceedWrites(s, t, tk, output, now);
    }
  }

  method Fail(c: Config, table: RunTable, broker: Broker, tk: Ticket, errMsg: string, now: Time, call: Call, ghost s: System)
      returns (ghost steps: seq<Step>, ghost t: System)
    requires table.Valid() && Agrees(s, table, broker) && s.now <= now && tk in s.tickets && c.policy.Valid()
    modifies table`runs
    ensures table.Valid() && Agrees(t, table, broker) && Leads(c, s, steps, t)
    ensures Writes(steps, tk, Made(Some(FailedAttempt(errMsg, c.policy.Wait(tk.attempt))), call))
    ensures t.outbox == s.outbox && t.tickets == s.tickets
    ensures TakesEffect(s, tk, call) ==>
              OnlyItsRun(s, t.runs, tk) && IsFailed(s.runs[tk.run], t.runs[tk.run], s.retries[s.runs[tk.run].jobId], errMsg, c.policy.Wait(tk.attempt), now)
    ensures (!TakesEffect(s, tk, call) ==> t.runs == s.runs) && t.bag == s.bag
  {
    hide Legal, Play, Leads, Next, JobsKnown, UniqueKeys, Touch, After, Owns;
    LeadsNowhere(c, s);
    if call.NotReached? {
      return [], s;
    }
    ghost var ev := FailedAttempt(errMsg, c.policy.Wait(tk.attempt));
    WriteIsStep(c, s.(now := now), tk, ev);
    OneWrite(c, s, now, tk, ev);
    var d, _ := Backoff.RetryDelay(c.policy.base, c.policy.max, tk.attempt);
    var status := table.FailOrRetry(tk.run, tk.owner.name, tk.attempt, errMsg, d as int, now);
    steps, t := [Tick(now), Write(tk, ev)], Next(s.(now := now), Write(tk, ev));
    if Owned(s, tk) {
      FailWrites(s, t, tk, errMsg, c.policy.Wait(tk.attempt), now);
    }
  }

  // release: hand the attempt back and, if it is known to have owned it,
  // re-dispatch the run.
  method Release(c: Config, table: RunTable, broker: Broker, tk: Ticket, now: Time, call: Call, delivery: Delivery, ghost s: System)
      returns (ghost steps: seq<Step>, ghost t: System)
    requires table.Valid() && Agrees(s, table, broker) && s.now <= now && tk in s.tickets
    modifies table`runs, broker
    ensures table.Valid() && Agrees(t, table, broker) && Leads(c, s, steps, t)
    ensures Writes(steps, tk, Made(Some(Released(ReleaseReason(tk.owner.name))), call))
    ensures call.ReplyLost? ==> t.bag == s.bag
    ensures t.outbox == s.outbox && t.tickets == s.tickets
    ensures TakesEffect(s, tk, call) ==> OnlyItsRun(s, t.runs, tk) && IsHandedBack(s.runs[tk.run], t.runs[tk.run], ReleaseReason(tk.owner.name), now)
    ensures !TakesEffect(s, tk, call) ==> t.runs == s.runs
    ensures t.bag == s.bag + if Owned(s, tk) && call.Replied? && !delivery.NotSent? then multiset{tk.run} else multiset{}
  {
    hide Legal, Play, Leads, Next, JobsKnown, UniqueKeys, Owned, OnlyItsRun, IsHandedBack;
    LeadsNowhere(c, s);
    if call.NotReached? {
      return [], s;
    }
    assert s.bag + multiset{} == s.bag;
    var ok;
    ok, steps, t := HandBack(c, table, broker, tk, now, s);
    if ok {
      var d := if call.Replied? then delivery else NotSent;
      ghost var step := DispatchStep(d, tk.run);
      DispatchOne(c, s, steps, t, step, s.outbox, tk.run);
      if call.Replied? {
        var sent := broker.Dispatch(tk.run, delivery);
      }
      steps, t := steps + [step], Next(t, step);
    }
  }

  // The release itself.
  method HandBack(c: Config, table: RunTable, broker: Broker, tk: Ticket, now: Time, ghost s: System)
      returns (ok: bool, ghost steps: seq<Step>, ghost t: System)
    requires table.Valid() && Agrees(s, table, broker) && s.now <= now && tk in s.tickets
    modifies table`runs
    ensures table.Valid() && Agrees(t, table, broker) && Leads(c, s, steps, t)
    ensures (ok <==> Owned(s, tk)) && steps == [Tick(now), Write(tk, Released(ReleaseReason(tk.owner.name)))]
    ensures t.outbox == s.outbox + (if ok then multiset{tk.run} else multiset{}) && t.tickets == s.tickets && t.bag == s.bag
    ensures if ok then OnlyItsRun(s, t.runs, tk) && IsHandedBack(s.runs[tk.run], t.runs[tk.run], ReleaseReason(tk.owner.name), now) else t.runs == s.runs
  {
    hide Legal, Play, Leads, Next, JobsKnown, UniqueKeys, Touch, After, Owns;
    ghost var ev := Released(ReleaseReason(tk.owner.name));
    WriteIsStep(c, s.(now := now), tk, ev);
    OneWrite(c, s, now, tk, ev);
    ok := table.ReleaseRun(tk.run, tk.owner.name, tk.attempt, ReleaseReason(tk.owner.name), now);
    steps, t := [Tick(now), Write(tk, ev)], Next(s.(now := now), Write(tk, ev));
    if ok {
      ReleaseWrites(s, t, tk, ReleaseReason(tk.owner.name), now);
    }
  }

  // execute, once the job has returned and its log is closed.
  method Record(c: Config, table: RunTable, broker: Broker, logger: RunLogger, tk: Ticket,
                result: Job.Outcome, cause: Cause, now: Time, call: Call, delivery: Delivery, ghost s: System)
      returns (ghost steps: seq<Step>, ghost t: System)
    requires table.Valid() && Agrees(s, table, broker) && s.now <= now && tk in s.tickets && c.policy.Valid()
    requires logger.Valid() && logger.phase.Closed? && logger.runId == tk.run && logger.attempt == tk.attempt
    modifies table`runs, broker
    ensures table.Valid() && Agrees(t, table, broker) && Leads(c, s, steps, t)
    ensures Writes(steps, tk, Made(EndingOf(c, tk, result, cause), call))
    ensures t.outbox == s.outbox && t.tickets == s.tickets
    ensures TakesEffect(s, tk, call) ==> Concludes(c, s, t, tk, result, cause, now)
    ensures !TakesEffect(s, tk, call) ==> t.runs == s.runs
    ensures t.bag == s.bag + Announced(s, tk, result, cause, call, delivery)
  {
    hide Legal, Play, Leads, WellFormed, UniqueKeys, OnlyItsRun, IsDone, IsFailed, IsHandedBack;
    assert s.bag + multiset{} == s.bag;
    match (result, cause) {
      case (Ok(output), _) =>
        steps, t := Succeed(c, table, broker, tk, output, now, call, s);
      case (Err(_), LostRun) =>
        LeadsNowhere(c, s);
        steps, t := [], s;
      case (Err(_), Shutdown) =>
        steps, t := Release(c, table, broker, tk, now, call, delivery, s);
      case (Err(_), TimedOut(seconds)) =>
        Job.DigitsName("timed out after ", seconds, "s");
        steps, t := Fail(c, table, broker, tk, TimeoutText(seconds), now, call, s);
      case (Err(error), NoCause) =>
        steps, t := Fail(c, table, broker, tk, ErrorText(error), now, call, s);
    }
  }

  // What a worker running the payload writes is what Outcome assumes of it.
  lemma EndingsFollowTheJob(c: Config, p: Job.Payload, s: System, tk: Ticket, cancelled: Option<nat>, cause: Cause, step: Step)
    requires p.Valid() && WellFormed(s)
    requires EndingOf(c, tk, Job.Result(p, tk.attempt, cancelled), cause).Some?
    requires step == Write(tk, EndingOf(c, tk, Job.Result(p, tk.attempt, cancelled), cause).value)
    ensures Outcome.FinishesAsRun(p, s, step, tk.run)
    ensures cancelled.None? && cause.NoCause? ==> Outcome.Uneventful(p, s, step, tk.run)
  {
    hide Job.Numbered, Digits;
  }

  function LoadText(why: string): string {
    "load job: " + why
  }

  // What execute writes: the job could not be loaded, or it was run.
  function Ending(c: Config, tk: Ticket, job: Loaded, cancelled: Option<nat>, cause: Cause): Option<Event>
    requires job.Job? ==> job.payload.Valid()
  {
    match job
    case NotLoaded(why) => Some(FailedAttempt(LoadText(why), c.policy.Wait(tk.attempt)))
    case Job(p) => EndingOf(c, tk, Job.Result(p, tk.attempt, cancelled), cause)
  }

  datatype Loaded = NotLoaded(why: string) | Job(payload: Job.Payload)

  // The lines of an attempt that has closed its log, all of them written.
  ghost predicate Persisted(logger: RunLogger)
    reads logger, logger.table
  {
    && (forall q: nat :: LogKey(logger.runId, logger.attempt, q) in logger.table.lines <==> 1 <= q <= |logger.Logged()|)
    && forall x | 0 <= x < |logger.Logged()| ::
         var k := LogKey(logger.runId, logger.attempt, x + 1);
         k in logger.table.lines && logger.table.lines[k] == logger.Logged()[x]
  }

  // execute: run the job, which logs as it goes, close the log, and only then
  // record how the attempt ended. `script` interleaves the job's goroutine and
  // the ticker as far as it goes.
  method Execute(c: Config, table: RunTable, broker: Broker, logger: RunLogger, tk: Ticket, job: Loaded,
                 cancelled: Option<nat>, cause: Cause, script: seq<Move>, reaches: bool,
                 now: Time, call: Call, delivery: Delivery, ghost s: System)
      returns (ghost steps: seq<Step>, ghost t: System)
    requires table.Valid() && Agrees(s, table, broker) && s.now <= now && tk in s.tickets && c.policy.Valid()
    requires job.Job? ==> job.payload.Valid()
    requires logger.Valid() && logger.runId == tk.run && logger.attempt == tk.attempt
    requires logger.phase.Logging? && logger.Logged() == [] && logger.lastSeq == 0 && logger.stored == logger.settled
    modifies table`runs, broker, logger, logger.table`lines
    ensures table.Valid() && Agrees(t, table, broker) && Leads(c, s, steps, t)
    ensures Writes(steps, tk, Made(Ending(c, tk, job, cancelled, cause), call))
    ensures TakesEffect(s, tk, call) ==>
              match job
              case NotLoaded(why) =>
                && OnlyItsRun(s, t.runs, tk)
                && IsFailed(s.runs[tk.run], t.runs[tk.run], s.retries[s.runs[tk.run].jobId], "load job: " + why, c.policy.Wait(tk.attempt), now)
              case Job(p) => Concludes(c, s, t, tk, Job.Result(p, tk.attempt, cancelled), cause, now)
    ensures !TakesEffect(s, tk, call) ==> t.runs == s.runs
    ensures job.Job? ==> t.bag == s.bag + Announced(s, tk, Job.Result(job.payload, tk.attempt, cancelled), cause, call, delivery)
    ensures t.outbox == s.outbox && t.tickets == s.tickets
    ensures logger.Valid() && AddsTo(old(logger.table.lines), logger.table.lines, tk.run, tk.attempt)
    ensures job.Job? ==> logger.phase.Closed?
    ensures job.Job? ==>
              Logs(logger.Logged(), tk.attempt,
                   if Job.Result(job.payload, tk.attempt, cancelled) == Job.Err(Job.Stopped) then Job.StoppedLog(job.payload, cancelled)
                   else Job.FullLog(job.payload, tk.attempt))
    ensures job.Job? && logger.alone && reaches && (forall m | m in script :: Reaches(m)) ==> Persisted(logger)
  {
    hide Legal, Play, Leads, WellFormed, UniqueKeys, Flat, RunLog.Numbered, Holds, Logs, Writes, EndingOf, Job.Result, Job.FullLog, Job.StoppedLog, Concludes, Announced, OnlyItsRun, IsFailed;
    hide RunLogger.Buffered, RunLogger.Tracked, RunLogger.OneFlusher, AddsTo, AddsLater;
    AddsNothing(logger.table.lines, tk.run, tk.attempt);
    match job {
      case NotLoaded(why) =>
        steps, t := Fail(c, table, broker, tk, LoadText(why), now, call, s);
      case Job(p) =>
        var result, messages := Job.Generate(p, tk.attempt, cancelled);
        SpeaksFirst(logger, messages);
        logger.Play(messages, script);
        ghost var before := logger.table.lines;
        logger.Finish(messages, now, reaches);
        AddsMore(old(logger.table.lines), before, logger.table.lines, tk.run, tk.attempt);
        SpeaksLast(logger, messages);
        steps, t := Record(c, table, broker, logger, tk, result, cause, now, call, delivery, s);
        if logger.alone && logger.stored == logger.settled {
          LoggedIsPersisted(logger);
        }
    }
  }

  lemma SpeaksFirst(logger: RunLogger, messages: seq<Message>)
    requires logger.phase.Logging? && logger.Logged() == [] && logger.lastSeq == 0
    ensures logger.Speaks(messages)
  {
  }

  lemma SpeaksLast(logger: RunLogger, messages: seq<Message>)
    requires logger.Speaks(messages) && logger.phase.Closed?
    ensures Logs(logger.Logged(), logger.attempt, messages)
  {
    assert messages[..|messages|] == messages;
  }

  lemma LoggedIsPersisted(logger: RunLogger)
    requires logger.Valid() && logger.alone && logger.phase.Closed? && logger.stored == logger.settled
    ensures Persisted(logger)
  {
    hide Flat, RunLog.Numbered, Holds;
    ClosedLogIsPersisted(logger);
  }

  // ---- The API's manual run ----

  datatype Response = Accepted | NoSuchJob | InternalError | BadGateway

  // handleRunJob: create the run and dispatch it, or fail it so that it is not
  // left QUEUED with no message to wake a worker.
  method RunJob(c: Config, p: Process, table: RunTable, broker: Broker, id: RunId, job: JobId,
                now: Time, clock: Time, create: Call, delivery: Delivery, fail: Call, ghost s: System)
      returns (res: Response, ghost steps: seq<Step>, ghost t: System)
    requires table.Valid() && Agrees(s, table, broker) && s.now <= now && id !in table.runs
    modifies table`runs, broker
    ensures table.Valid() && Agrees(t, table, broker) && Leads(c, s, steps, t)
    ensures t.outbox == s.outbox && t.tickets == s.tickets
    ensures res == if job !in s.retries then NoSuchJob
                   else if KeyTaken(s.runs, job, clock) || !create.Replied? then InternalError
                   else if delivery.Sent? then Accepted else BadGateway
    ensures id in t.runs <==> job in s.retries && !KeyTaken(s.runs, job, clock) && !create.NotReached?
    ensures t.runs.Keys == s.runs.Keys + if id in t.runs then {id} else {}
    ensures id in t.runs ==>
              && t.runs[id].status == (if res.BadGateway? && !fail.NotReached? then Failed else Queued)
              && t.runs[id].jobId == job && t.runs[id].scheduledTime == clock && t.runs[id].trigger.Manual? && t.runs[id].attempt == 1
    ensures forall x | x in s.runs :: x in t.runs && t.runs[x] == s.runs[x]
    ensures t.bag == s.bag + if (res.Accepted? || res.BadGateway?) && !delivery.NotSent? then multiset{id} else multiset{}
  {
    hide Legal, Play, Leads, JobsKnown, UniqueKeys, Next, KeyTaken, Touch, After;
    LeadsNowhere(c, s);
    if job !in table.retries {
      return NoSuchJob, [], s;  // GetJob
    }
    if create.NotReached? {
      return InternalError, [], s;
    }
    var r := table.CreateManualRun(id, job, now, clock);
    if r.Err? {
      return InternalError, [], s;
    }
    Later(c, s, [], s, now);
    ghost var s1 := s.(now := now);
    CreateIsStep(c, s1, id, job, clock);
    LeadsOn(c, s, [] + [Tick(now)], s1, Create(id, job, clock, Manual));
    steps, t := [] + [Tick(now)] + [Create(id, job, clock, Manual)], Next(s1, Create(id, job, clock, Manual));

    var d := if create.Replied? then delivery else NotSent;
    ghost var step := if d.NotSent? then LoseDispatch(id) else Step.Dispatch(id);
    DispatchOne(c, s, steps, t, step, s.outbox, id);
    steps, t := steps + [step], Next(t, step);
    if create.ReplyLost? {
      return InternalError, steps, t;
    }
    var sent := broker.Dispatch(id, delivery);
    res := Accepted;
    if !sent {
      res := BadGateway;
      if !fail.NotReached? {
        FailQueuedIsStep(c, t, p, id);
        LeadsOn(c, s, steps, t, FailQueued(p, id, "dispatch failed"));
        table.FailQueuedRun(id, "dispatch failed", now);
        steps, t := steps + [FailQueued(p, id, "dispatch failed")], Next(t, FailQueued(p, id, "dispatch failed"));
      }
    }
  }

  lemma CreateIsStep(c: Config, s: System, id: RunId, job: JobId, clock: Time)
    requires WellFormed(s) && id !in s.runs && job in s.retries && !KeyTaken(s.runs, job, clock)
    ensures var t := Next(s, Create(id, job, clock, Manual));
            && Enabled(c, s, Create(id, job, clock, Manual))
            && t == s.(runs := s.runs[id := NewRun(job, clock, Manual, s.now)], hist := t.hist, outbox := s.outbox + multiset{id})
  {
  }

  lemma FailQueuedIsStep(c: Config, s: System, p: Process, id: RunId)
    requires WellFormed(s) && id in s.runs && s.runs[id].status.Queued? && s.runs[id].trigger.Manual?
    ensures var t := Next(s, FailQueued(p, id, "dispatch failed"));
            && Enabled(c, s, FailQueued(p, id, "dispatch failed"))
            && t == s.(runs := t.runs, hist := t.hist)
            && t.runs == Touch(s.runs, s.retries, s.now, map[id := FailedQueued("dispatch failed")])
            && t.runs.Keys == s.runs.Keys && t.runs == s.runs[id := t.runs[id]]
            && var r, r' := s.runs[id], t.runs[id];
            && r'.status.Failed? && r'.jobId == r.jobId && r'.scheduledTime == r.scheduledTime && r'.trigger == r.trigger && r'.attempt == r.attempt
  {
  }
}
