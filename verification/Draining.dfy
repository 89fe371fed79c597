// Scheduler.Tick: FireDueJobs again and again until a pass fires less than a
// whole batch, at one reading of the database clock.
module Draining {
  import opened Basics
  import opened Picking
  import opened Firing
  import opened Schedule
  import opened Queue

  // Every answer of `next` lies after the database's now().
  ghost predicate Later(next: Schedules, now: Time) {
    forall j: JobId :: next(j).Some? ==> now < next(j).value
  }

  predicate Distinct(due: seq<Due>) {
    forall i, j | 0 <= i < j < |due| :: due[i].job != due[j].job
  }

  // Of m due jobs, how many the full passes before the last one handle.
  function Boundary(m: nat, batch: nat): (b: nat)
    requires batch > 0
    ensures b <= m && (m > 0 ==> b < m <= b + batch)
  {
    if m <= batch then 0 else batch + Boundary(m - batch, batch)
  }

  // ---- Every tick ends, whatever `next` answers ----

  // The occurrences a tick can try: each job's next_run_at, then next's answer.
  function Reachable(jobs: map<JobId, JobRow>, next: Schedules): set<Due> {
    (set j | j in jobs && jobs[j].nextRunAt.Some? :: Due(j, jobs[j].nextRunAt.value))
    + (set j | j in jobs && next(j).Some? :: Due(j, next(j).value))
  }

  function Untaken(keys: set<Due>, runs: map<RunId, RunRow>): set<Due> {
    set o | o in keys && !Taken(runs, o)
  }

  // Each job is as the tick found it, or advanced to next's answer.
  ghost predicate Moves(before: map<JobId, JobRow>, after: map<JobId, JobRow>, next: Schedules) {
    && after.Keys == before.Keys
    && forall j | j in after :: after[j] == before[j] || after[j] == before[j].(nextRunAt := next(j))
  }

  lemma PassMoves(first: map<JobId, JobRow>, jobs: map<JobId, JobRow>, now: Time, batch: nat, next: Schedules, due: seq<Due>)
    requires Moves(first, jobs, next) && Selects(jobs, now, {}, batch, due)
    ensures Moves(first, Advanced(jobs, Answers(due, next)), next)
    ensures forall o | o in due :: o in Reachable(first, next)
  {
    forall o | o in due ensures o in Reachable(first, next) {
      var i :| 0 <= i < |due| && due[i] == o;
      assert o.job in JobsOf(due);
      assert o.job in DueTimes(jobs, now);
    }
  }

  // Jobs and runs since the tick began, `fired` the runs added.
  ghost predicate Grown(jobs: map<JobId, JobRow>, runs: map<RunId, RunRow>, next: Schedules,
                        jobs': map<JobId, JobRow>, runs': map<RunId, RunRow>, fired: seq<RunId>) {
    && Moves(jobs, jobs', next)
    && NoDup(fired) && Elems(fired) == runs'.Keys - runs.Keys
    && forall id | id in runs :: id in runs' && runs'[id] == runs[id]
  }

  lemma PassGrows(jobs: map<JobId, JobRow>, runs: map<RunId, RunRow>, now: Time, batch: nat, next: Schedules,
                  jobs1: map<JobId, JobRow>, runs1: map<RunId, RunRow>, due: seq<Due>, runs2: map<RunId, RunRow>, fired: seq<RunId>, more: seq<RunId>)
    requires Grown(jobs, runs, next, jobs1, runs1, fired) && Selects(jobs1, now, {}, batch, due)
    requires NoDup(more) && Elems(more) == runs2.Keys - runs1.Keys
    requires forall id | id in runs1 :: id in runs2 && runs2[id] == runs1[id]
    ensures Grown(jobs, runs, next, Advanced(jobs1, Answers(due, next)), runs2, fired + more)
  {
    hide Moves, Selects, NoDup, Elems, Advanced, Answers;
    PassMoves(jobs, jobs1, now, batch, next, due);
    FiredMore(runs, runs1, runs2, fired, more);
  }

  // A pass that fires uses up one of them.
  lemma PassTakes(jobs: map<JobId, JobRow>, runs: map<RunId, RunRow>, now: Time, batch: nat, next: Schedules, jobs1: map<JobId, JobRow>,
                  before: map<RunId, RunRow>, after: map<RunId, RunRow>, due: seq<Due>, earlier: seq<RunId>, fired: seq<RunId>)
    requires Grown(jobs, runs, next, jobs1, before, earlier) && Selects(jobs1, now, {}, batch, due)
    requires forall o :: Taken(after, o) <==> Taken(before, o) || o in due
    requires Unique(after) && (forall id | id in before :: id in after && after[id] == before[id])
    requires fired != [] && Elems(fired) == after.Keys - before.Keys
    requires forall id | id in fired :: id in after && Occurrence(after[id]) in due
    ensures Untaken(Reachable(jobs, next), after) < Untaken(Reachable(jobs, next), before)
  {
    PassMoves(jobs, jobs1, now, batch, next, due);
    hide Selects, Moves, Reachable;
    var id := fired[0];
    assert id in Elems(fired);
    var o := Occurrence(after[id]);
    assert !Taken(before, o);
    assert Taken(after, o);
    assert o in Untaken(Reachable(jobs, next), before) && o !in Untaken(Reachable(jobs, next), after);
  }

  // ---- With `next` in the future, the passes work through the due jobs ----

  // `order` is the oldest of the due jobs `all`, each once, oldest first.
  ghost predicate OldestFirst(all: map<JobId, Time>, order: seq<Due>) {
    && Distinct(order) && Ordered(order)
    && (forall i | 0 <= i < |order| :: order[i].job in all && all[order[i].job] == order[i].at)
    && forall i, j | 0 <= i < |order| && j in all && j !in JobsOf(order) :: order[i].at <= all[j]
  }

  lemma StillDue(jobs: map<JobId, JobRow>, now: Time, order: seq<Due>, next: Schedules)
    requires Later(next, now)
    ensures DueTimes(Advanced(jobs, Answers(order, next)), now) == DueTimes(jobs, now) - JobsOf(order)
  {
  }

  lemma JobsOfBoth(a: seq<Due>, b: seq<Due>)
    ensures JobsOf(a + b) == JobsOf(a) + JobsOf(b)
  {
    forall j | j in JobsOf(a) + JobsOf(b) ensures j in JobsOf(a + b) {
      if j in JobsOf(a) {
        var i :| 0 <= i < |a| && a[i].job == j;
        assert (a + b)[i].job == j;
      } else {
        var i :| 0 <= i < |b| && b[i].job == j;
        assert (a + b)[|a| + i].job == j;
      }
    }
  }

  lemma AdvancedBoth(jobs: map<JobId, JobRow>, a: seq<Due>, b: seq<Due>, next: Schedules)
    ensures Advanced(Advanced(jobs, Answers(a, next)), Answers(b, next)) == Advanced(jobs, Answers(a + b, next))
  {
    JobsOfBoth(a, b);
  }

  lemma PicksOldest(left: map<JobId, Time>, batch: nat, picked: set<JobId>)
    requires Picks(left, {}, batch, picked)
    ensures forall j | j in picked :: j in left
    ensures forall i, j | i in picked && j in left && j !in picked :: left[i] <= left[j]
    ensures |picked| < batch ==> picked == left.Keys
  {
    assert left.Keys - {} == left.Keys;
  }

  // One pass extends `order` by the oldest of what is left.
  lemma PassExtends(all: map<JobId, Time>, order: seq<Due>, due: seq<Due>, batch: nat)
    requires OldestFirst(all, order) && Distinct(due) && Ordered(due)
    requires Picks(all - JobsOf(order), {}, batch, JobsOf(due))
    requires forall i | 0 <= i < |due| :: due[i].job in all && due[i].at == all[due[i].job]
    ensures OldestFirst(all, order + due)
    ensures |due| < batch ==> JobsOf(order + due) == all.Keys
  {
    hide OldestFirst, Ordered, Picks;
    PicksOldest(all - JobsOf(order), batch, JobsOf(due));
    assert forall i | 0 <= i < |due| :: due[i].job in JobsOf(due);
    hide JobsOf;
    Interleave(all, all - JobsOf(order), order, due);
    if |due| < batch {
      JobsOfSize(due);
      OrderSize(all, order);
      JobsOfBoth(order, due);
      RestOf(all, JobsOf(order));
    }
  }

  lemma RestOf(all: map<JobId, Time>, some: set<JobId>)
    requires some <= all.Keys
    ensures some + (all - some).Keys == all.Keys
    ensures all - some == map[] <==> some == all.Keys
  {
    assert all - some == map[] ==> forall j | j in all :: j in some || j in all - some;
  }

  lemma Interleave(all: map<JobId, Time>, left: map<JobId, Time>, order: seq<Due>, due: seq<Due>)
    requires OldestFirst(all, order) && Distinct(due) && Ordered(due) && left == all - JobsOf(order)
    requires forall i | 0 <= i < |due| :: due[i].job in left && due[i].at == all[due[i].job]
    requires forall i, j | 0 <= i < |due| && j in left && j !in JobsOf(due) :: due[i].at <= all[j]
    ensures OldestFirst(all, order + due)
  {
    JobsOfBoth(order, due);
    assert forall i | 0 <= i < |order| :: order[i].job in JobsOf(order);
    hide JobsOf;
    var both := order + due;
    forall i, j | 0 <= i < j < |both| ensures both[i].job != both[j].job && both[i].at <= both[j].at {
      if j >= |order| {
        assert both[j] == due[j - |order|];
        if i >= |order| {
          assert both[i] == due[i - |order|];
        }
      }
    }
    forall i, j | 0 <= i < |both| && j in all && j !in JobsOf(both) ensures both[i].at <= all[j] {
      if i >= |order| {
        assert both[i] == due[i - |order|] && j in left;
      }
    }
  }

  lemma PassHandles(jobs: map<JobId, JobRow>, now: Time, batch: nat, next: Schedules, order: seq<Due>,
                    jobs': map<JobId, JobRow>, due: seq<Due>)
    requires Later(next, now) && OldestFirst(DueTimes(jobs, now), order) && jobs' == Advanced(jobs, Answers(order, next))
    requires Selects(jobs', now, {}, batch, due) && Ordered(due)
    ensures OldestFirst(DueTimes(jobs, now), order + due)
    ensures Advanced(jobs', Answers(due, next)) == Advanced(jobs, Answers(order + due, next))
    ensures |due| < batch ==> JobsOf(order + due) == DueTimes(jobs, now).Keys
  {
    var all := DueTimes(jobs, now);
    StillDue(jobs, now, order, next);
    AdvancedBoth(jobs, order, due, next);
    forall i | 0 <= i < |due| ensures due[i].job in all && due[i].at == all[due[i].job] {
      hide Answers, Advanced;
      assert due[i].job in JobsOf(due);
      assert due[i].job in DueTimes(jobs', now);
    }
    hide Later, OldestFirst, Answers, Advanced, Ordered, DueTimes, Picks;
    PassExtends(all, order, due, batch);
  }

  lemma OrderSize(all: map<JobId, Time>, order: seq<Due>)
    requires OldestFirst(all, order)
    ensures |order| <= |all| && JobsOf(order) <= all.Keys
    ensures |order| == |all| <==> JobsOf(order) == all.Keys
  {
    JobsOfSize(order);
    SubsetSize(JobsOf(order), all.Keys);
  }

  // Whatever is left can be put in order too.
  lemma {:induction false} OrderExists(all: map<JobId, Time>, order: seq<Due>) returns (whole: seq<Due>)
    requires OldestFirst(all, order)
    ensures order <= whole && OldestFirst(all, whole) && JobsOf(whole) == all.Keys
    decreases |all| - |order|
  {
    OrderSize(all, order);
    var rest := all.Keys - JobsOf(order);
    whole := order;
    if rest == {} {
      assert forall j | j in all :: j in rest || j in JobsOf(order);
    } else {
      var j := OldestExists(all, rest);
      OneMoreOldest(all, order, j);
      OrderSize(all, order + [Due(j, all[j])]);
      whole := OrderExists(all, order + [Due(j, all[j])]);
    }
  }

  lemma OneMoreOldest(all: map<JobId, Time>, order: seq<Due>, j: JobId)
    requires OldestFirst(all, order)
    requires j in all && j !in JobsOf(order) && forall x | x in all.Keys - JobsOf(order) :: all[j] <= all[x]
    ensures OldestFirst(all, order + [Due(j, all[j])])
  {
    JobsOfBoth(order, [Due(j, all[j])]);
    assert JobsOf([Due(j, all[j])]) == {j} by {
      assert [Due(j, all[j])][0].job == j;
    }
    assert forall i | 0 <= i < |order| :: order[i].job in JobsOf(order);
    hide JobsOf;
  }

  // ---- The loop ----

  // What the passes so far have done, if `next` answers with times to come.
  ghost predicate Underway(jobs: map<JobId, JobRow>, runs: map<RunId, RunRow>, now: Time, next: Schedules,
                           handled: seq<Due>, jobs': map<JobId, JobRow>, runs': map<RunId, RunRow>) {
    && OldestFirst(DueTimes(jobs, now), handled)
    && jobs' == Advanced(jobs, Answers(handled, next))
    && forall o :: Taken(runs', o) <==> Taken(runs, o) || o in handled
  }

  lemma UnderwayKept(jobs: map<JobId, JobRow>, runs: map<RunId, RunRow>, now: Time, batch: nat, next: Schedules, handled: seq<Due>,
                     jobs1: map<JobId, JobRow>, runs1: map<RunId, RunRow>, due: seq<Due>, runs2: map<RunId, RunRow>)
    requires Later(next, now) && Underway(jobs, runs, now, next, handled, jobs1, runs1)
    requires Selects(jobs1, now, {}, batch, due) && Ordered(due)
    requires forall o :: Taken(runs2, o) <==> Taken(runs1, o) || o in due
    ensures Underway(jobs, runs, now, next, handled + due, Advanced(jobs1, Answers(due, next)), runs2)
    ensures |due| < batch ==> JobsOf(handled + due) == DueTimes(jobs, now).Keys
    ensures OldestFirst(DueTimes(jobs, now), handled + due)
    ensures NoneTaken(runs1, due) <==> NoneTaken(runs, due)
  {
    hide Taken, Selects, DueTimes, Later, Answers, Advanced, JobsOf;
    PassHandles(jobs, now, batch, next, handled, jobs1, due);
    forall i, k | 0 <= i < |due| && 0 <= k < |handled| ensures due[i] != handled[k] {
      assert (handled + due)[k] == handled[k] && (handled + due)[|handled| + i] == due[i];
    }
  }

  // At each loop head the full passes so far fired everything they handled.
  ghost predicate AllFull(m: nat, batch: nat, n: nat)
    requires batch > 0
  {
    n <= m && (n < m ==> Boundary(m, batch) == n + Boundary(m - n, batch))
  }

  lemma NoneTakenBoth(runs: map<RunId, RunRow>, a: seq<Due>, b: seq<Due>)
    ensures NoneTaken(runs, a + b) <==> NoneTaken(runs, a) && NoneTaken(runs, b)
  {
    assert forall i | 0 <= i < |a| :: (a + b)[i] == a[i];
    assert forall i | 0 <= i < |b| :: (a + b)[|a| + i] == b[i];
  }

  // The last pass: it leaves nothing behind, unless it, a full pass with jobs
  // behind it, met an occurrence that already had a row.
  lemma LastPass(runs: map<RunId, RunRow>, batch: nat, order: seq<Due>, n: nat, due: seq<Due>)
    requires batch > 0 && AllFull(|order|, batch, n) && |due| <= batch
    requires n + |due| <= |order| && order[n..n + |due|] == due
    requires NoneTaken(runs, order[..n])
    requires |due| < batch ==> n + |due| == |order|
    requires |due| == batch ==> !NoneTaken(runs, due)
    ensures n + |due| == |order| <==> NoneTaken(runs, order[..Boundary(|order|, batch)])
  {
    hide NoneTaken;
    var b := Boundary(|order|, batch);
    if n + |due| == |order| {
      assert b <= n;
      NoneTakenBoth(runs, order[..b], order[b..n]);
      assert order[..n] == order[..b] + order[b..n];
    } else {
      NoneTakenBoth(runs, order[..n], due);
      NoneTakenBoth(runs, order[..n] + due, order[n + batch..b]);
      assert order[..b] == order[..n] + due + order[n + batch..b];
    }
  }

  lemma AnotherFullPass(m: nat, batch: nat, n: nat)
    requires batch > 0 && AllFull(m, batch, n) && n + batch <= m
    ensures AllFull(m, batch, n + batch)
  {
  }

  lemma UnderwayStarts(jobs: map<JobId, JobRow>, runs: map<RunId, RunRow>, now: Time, next: Schedules)
    ensures Underway(jobs, runs, now, next, [], jobs, runs)
  {
    assert JobsOf([]) == {};
  }

  lemma FiredMore(first: map<RunId, RunRow>, before: map<RunId, RunRow>, after: map<RunId, RunRow>, fired: seq<RunId>, more: seq<RunId>)
    requires first.Keys <= before.Keys <= after.Keys
    requires NoDup(fired) && Elems(fired) == before.Keys - first.Keys
    requires NoDup(more) && Elems(more) == after.Keys - before.Keys
    ensures NoDup(fired + more) && Elems(fired + more) == after.Keys - first.Keys
  {
    var both := fired + more;
    assert forall id | id in more :: id in Elems(more);
    assert forall id | id in fired :: id in Elems(fired);
    assert Elems(both) == Elems(fired) + Elems(more);
    forall i, j | 0 <= i < j < |both| ensures both[i] != both[j] {
      if i < |fired| <= j {
        assert both[i] in fired && both[j] in more;
      }
    }
  }

  lemma TickEnds(jobs: map<JobId, JobRow>, runs: map<RunId, RunRow>, now: Time, batch: nat, next: Schedules,
                 seen: seq<Due>, due: seq<Due>, jobs': map<JobId, JobRow>, runs': map<RunId, RunRow>)
      returns (order: seq<Due>)
    requires Later(next, now) && Underway(jobs, runs, now, next, seen + due, jobs', runs')
    requires batch > 0 && |due| <= batch && AllFull(|DueTimes(jobs, now)|, batch, |seen|) && NoneTaken(runs, seen)
    requires |due| < batch ==> JobsOf(seen + due) == DueTimes(jobs, now).Keys
    requires |due| == batch ==> !NoneTaken(runs, due)
    ensures OldestFirst(DueTimes(jobs, now), order) && JobsOf(order) == DueTimes(jobs, now).Keys
    ensures |seen| + |due| <= |order| && order[..|seen| + |due|] == seen + due
    ensures jobs' == Advanced(jobs, Answers(seen + due, next))
    ensures forall o :: Taken(runs', o) <==> Taken(runs, o) || o in seen + due
    ensures DueTimes(jobs', now) == map[] <==> |seen| + |due| == |order|
    ensures DueTimes(jobs', now) == map[] <==> NoneTaken(runs, order[..Boundary(|order|, batch)])
    ensures NoneTaken(runs, order) ==> |seen| + |due| == |order| && NoneTaken(runs, due)
  {
    hide Taken, Later, NoneTaken, OldestFirst, JobsOf, DueTimes, Advanced, Answers;
    var all := DueTimes(jobs, now);
    order := OrderExists(all, seen + due);
    OrderSize(all, order);
    OrderSize(all, seen + due);
    StillDue(jobs, now, seen + due, next);
    RestOf(all, JobsOf(seen + due));
    TickOrder(runs, batch, seen, due, order);
  }

  lemma TickOrder(runs: map<RunId, RunRow>, batch: nat, seen: seq<Due>, due: seq<Due>, order: seq<Due>)
    requires seen + due <= order && batch > 0 && |due| <= batch && AllFull(|order|, batch, |seen|) && NoneTaken(runs, seen)
    requires |due| < batch ==> |seen| + |due| == |order|
    requires |due| == batch ==> !NoneTaken(runs, due)
    ensures |seen| + |due| == |order| <==> NoneTaken(runs, order[..Boundary(|order|, batch)])
    ensures NoneTaken(runs, order) ==> |seen| + |due| == |order| && NoneTaken(runs, due)
  {
    hide NoneTaken;
    var n := |seen| + |due|;
    assert order[..|seen|] == seen && order[|seen|..n] == due;
    LastPass(runs, batch, order, |seen|, due);
    assert order == seen + due + order[n..];
    NoneTakenBoth(runs, seen + due, order[n..]);
    NoneTakenBoth(runs, seen, due);
    var b := Boundary(|order|, batch);
    NoneTakenBoth(runs, order[..b], order[b..]);
    assert order == order[..b] + order[b..];
  }

  // ---- In terms of the input alone ----

  predicate Untied(all: map<JobId, Time>) {
    forall i, j | i in all && j in all && i != j :: all[i] != all[j]
  }

  function Sooner(all: map<JobId, Time>, t: Time): set<JobId> {
    set j | j in all && all[j] < t
  }

  // Of m due jobs, none that the full passes before the last one reach has an
  // occurrence with a row already.
  ghost predicate Clear(runs: map<RunId, RunRow>, all: map<JobId, Time>, batch: nat)
    requires batch > 0
  {
    forall j | j in all && |Sooner(all, all[j])| < Boundary(|all|, batch) :: !Taken(runs, Due(j, all[j]))
  }

  // With no two due times the same, a job's place is the number of sooner ones.
  lemma PlaceOf(all: map<JobId, Time>, order: seq<Due>, i: nat)
    requires OldestFirst(all, order) && JobsOf(order) == all.Keys && Untied(all) && i < |order|
    ensures |Sooner(all, all[order[i].job])| == i
  {
    var first := order[..i];
    forall j | j in Sooner(all, order[i].at) ensures j in JobsOf(first) {
      assert j in JobsOf(order);
      var x :| 0 <= x < |order| && order[x].job == j;
      assert first[x].job == j;
    }
    forall j | j in JobsOf(first) ensures j in Sooner(all, order[i].at) {
      var x :| 0 <= x < |first| && first[x].job == j;
      assert order[x].job != order[i].job;
    }
    assert Sooner(all, order[i].at) == JobsOf(first);
    JobsOfSize(first);
  }

  // Job j's place in the order.
  lemma PlaceFound(all: map<JobId, Time>, order: seq<Due>, j: JobId) returns (i: nat)
    requires OldestFirst(all, order) && JobsOf(order) == all.Keys && Untied(all) && j in all
    ensures i < |order| && order[i] == Due(j, all[j]) && |Sooner(all, all[j])| == i
  {
    assert j in JobsOf(order);
    i :| 0 <= i < |order| && order[i].job == j;
    PlaceOf(all, order, i);
  }

  lemma ClearIsNoneTaken(runs: map<RunId, RunRow>, all: map<JobId, Time>, batch: nat, order: seq<Due>)
    requires OldestFirst(all, order) && JobsOf(order) == all.Keys && Untied(all) && batch > 0
    ensures NoneTaken(runs, order[..Boundary(|order|, batch)]) <==> Clear(runs, all, batch)
  {
    OrderSize(all, order);
    var b := Boundary(|order|, batch);
    hide Taken, Boundary, Untied, Sooner, JobsOf;
    if NoneTaken(runs, order[..b]) {
      hide OldestFirst;
      forall j | j in all && |Sooner(all, all[j])| < b ensures !Taken(runs, Due(j, all[j])) {
        var i := PlaceFound(all, order, j);
        assert order[..b][i] == order[i];
      }
    }
    if Clear(runs, all, batch) {
      forall i | 0 <= i < b ensures !Taken(runs, order[..b][i]) {
        PlaceOf(all, order, i);
        assert order[..b][i] == order[i] == Due(order[i].job, all[order[i].job]);
      }
    }
  }

  // The dispatcher is told of every run of a pass; a failure is only logged.
  method DispatchFired(broker: Broker, fired: seq<RunId>, deliveries: RunId -> Delivery)
    modifies broker
    ensures broker.bag == old(broker.bag) + Arrived(fired, deliveries)
  {
    for i := 0 to |fired|
      invariant broker.bag == old(broker.bag) + Arrived(fired[..i], deliveries)
    {
      assert fired[..i + 1][..i] == fired[..i];
      var ok := broker.Dispatch(fired[i], deliveries(fired[i]));
    }
    assert fired[..|fired|] == fired;
  }

  // The messages of the runs whose dispatch reached the topic.
  ghost function Arrived(fired: seq<RunId>, deliveries: RunId -> Delivery): multiset<RunId> {
    if fired == [] then multiset{}
    else
      var last := fired[|fired| - 1];
      Arrived(fired[..|fired| - 1], deliveries) + if deliveries(last).NotSent? then multiset{} else multiset{last}
  }

  lemma {:induction false} ArrivedBoth(a: seq<RunId>, b: seq<RunId>, deliveries: RunId -> Delivery)
    ensures Arrived(a + b, deliveries) == Arrived(a, deliveries) + Arrived(b, deliveries)
    decreases |b|
  {
    if b == [] {
      assert a + b == a;
    } else {
      assert (a + b)[..|a + b| - 1] == a + b[..|b| - 1];
      ArrivedBoth(a, b[..|b| - 1], deliveries);
    }
  }

  // With each run dispatched once, one message for every dispatch that worked.
  lemma {:induction false} ArrivedOnce(fired: seq<RunId>, deliveries: RunId -> Delivery, id: RunId)
    requires NoDup(fired)
    ensures Arrived(fired, deliveries)[id] == if id in fired && !deliveries(id).NotSent? then 1 else 0
  {
    if fired != [] {
      var init, last := fired[..|fired| - 1], fired[|fired| - 1];
      ArrivedOnce(init, deliveries, id);
      assert fired == init + [last];
      assert last !in init;
    }
  }

  lemma NoDupPart(a: seq<RunId>, b: seq<RunId>)
    requires NoDup(a + b)
    ensures NoDup(a)
  {
    assert forall i | 0 <= i < |a| :: a[i] == (a + b)[i];
  }

  ghost predicate OneMessageEach(bag: multiset<RunId>, bag': multiset<RunId>, fired: seq<RunId>, deliveries: RunId -> Delivery) {
    forall id :: bag'[id] == bag[id] + if id in fired && !deliveries(id).NotSent? then 1 else 0
  }

  lemma AllArrivedOnce(runs: map<RunId, RunRow>, jobs: map<JobId, JobRow>, next: Schedules, jobs': map<JobId, JobRow>,
                       runs': map<RunId, RunRow>, fired: seq<RunId>, more: seq<RunId>, deliveries: RunId -> Delivery,
                       bag: multiset<RunId>, bag': multiset<RunId>)
    requires Grown(jobs, runs, next, jobs', runs', fired + more) && bag' == bag + Arrived(fired, deliveries)
    ensures OneMessageEach(bag, bag', fired, deliveries)
  {
    NoDupPart(fired, more);
    forall id ensures Arrived(fired, deliveries)[id] == if id in fired && !deliveries(id).NotSent? then 1 else 0 {
      ArrivedOnce(fired, deliveries, id);
    }
  }

  // Every pass ends in a reply.
  ghost predicate Replies(calls: nat -> Call) {
    forall i :: calls(i).Replied?
  }

  // `order` is the due jobs in the order the passes take them, of which they
  // handled the first `handled`. calls(i) says what became of pass i's
  // transaction: one that ends in an error ends the tick, and what it may have
  // committed, `unreported`, is left to the sweeper.
  method Tick(t: Tables, broker: Broker, now: Time, batch: nat, next: Schedules,
              calls: nat -> Call, deliveries: RunId -> Delivery)
      returns (fired: seq<RunId>, ghost unreported: seq<RunId>, ghost order: seq<Due>, ghost handled: nat)
    requires t.Valid() && batch > 0
    modifies t, broker
    ensures t.Valid()
    ensures Grown(old(t.jobs), old(t.runs), next, t.jobs, t.runs, fired + unreported)
    ensures OneMessageEach(old(broker.bag), broker.bag, fired, deliveries)
    ensures (forall i :: !calls(i).ReplyLost?) ==> unreported == []
    ensures Later(next, now) && Replies(calls) ==>
              Drained(old(t.jobs), old(t.runs), now, batch, next, order, handled, t.jobs, t.runs, |fired|)
  {
    hide Taken, Selects, Untaken, Reachable, Moves, DueTimes, Advanced, Answers, Later, NoneTaken, Ordered, Arrived, Unique, Quiet,
      Grown, Progress, Drained, NoDup, Elems, OneMessageEach;
    ghost var jobs0, runs0 := t.jobs, t.runs;
    ghost var seen: seq<Due> := [];
    ghost var sure := Later(next, now) && Replies(calls);
    fired, unreported, order, handled := [], [], [], 0;
    TickStarts(jobs0, runs0, now, batch, next, deliveries);
    var pass := 0;
    while true
      invariant t.Valid() && Grown(jobs0, runs0, next, t.jobs, t.runs, fired)
      invariant broker.bag == old(broker.bag) + Arrived(fired, deliveries)
      invariant sure ==> Progress(jobs0, runs0, now, batch, next, seen, t.jobs, t.runs, |fired|)
      decreases Untaken(Reachable(jobs0, next), t.runs)
    {
      if calls(pass).NotReached? {
        break;
      }
      ghost var jobs1, runs1 := t.jobs, t.runs;
      var more, due := t.FireDueJobs(now, {}, batch, next);
      PassGrows(jobs0, runs0, now, batch, next, jobs1, runs1, due, t.runs, fired, more);
      if calls(pass).ReplyLost? {
        unreported := more;
        break;
      }
      DispatchFired(broker, more, deliveries);
      ArrivedBoth(fired, more, deliveries);
      ghost var fired1 := fired;
      fired := fired + more;
      if |more| < batch {
        if sure {
          order := PassEnds(jobs0, runs0, now, batch, next, seen, jobs1, runs1, due, t.runs, |fired|, |more|);
          handled := |seen| + |due|;
        }
        break;
      }
      if sure {
        PassGoesOn(jobs0, runs0, now, batch, next, seen, jobs1, runs1, due, t.runs, |fired|, |more|);
      }
      PassTakes(jobs0, runs0, now, batch, next, jobs1, runs1, t.runs, due, fired1, more);
      seen := seen + due;
      pass := pass + 1;
    }
    assert fired + [] == fired;
    AllArrivedOnce(runs0, jobs0, next, t.jobs, t.runs, fired, unreported, deliveries, old(broker.bag), broker.bag);
  }

  // No job that is on has a next run that has come.
  predicate NothingDue(jobs: map<JobId, JobRow>, now: Time) {
    forall j | j in jobs && jobs[j].enabled && jobs[j].hasCron && jobs[j].nextRunAt.Some? :: now < jobs[j].nextRunAt.value
  }

  lemma NothingDueIs(jobs: map<JobId, JobRow>, now: Time)
    ensures NothingDue(jobs, now) <==> DueTimes(jobs, now) == map[]
  {
    if NothingDue(jobs, now) {
      assert forall j :: j !in DueTimes(jobs, now);
    } else {
      var j :| j in jobs && jobs[j].enabled && jobs[j].hasCron && jobs[j].nextRunAt.Some? && jobs[j].nextRunAt.value <= now;
      assert j in DueTimes(jobs, now);
    }
  }

  // Every due job was handled exactly when none that the full passes before the
  // last one reach has a row for its occurrence.
  ghost predicate Drained(jobs: map<JobId, JobRow>, runs: map<RunId, RunRow>, now: Time, batch: nat, next: Schedules, order: seq<Due>,
                          handled: nat, jobs': map<JobId, JobRow>, runs': map<RunId, RunRow>, fired: nat)
    requires batch > 0
  {
    && OldestFirst(DueTimes(jobs, now), order) && JobsOf(order) == DueTimes(jobs, now).Keys
    && handled <= |order| && jobs' == Advanced(jobs, Answers(order[..handled], next))
    && (forall o :: Taken(runs', o) <==> Taken(runs, o) || o in order[..handled])
    && (NothingDue(jobs', now) <==> handled == |order|)
    && (NothingDue(jobs', now) <==> NoneTaken(runs, order[..Boundary(|order|, batch)]))
    && (Untied(DueTimes(jobs, now)) ==> (NothingDue(jobs', now) <==> Clear(runs, DueTimes(jobs, now), batch)))
    && (NoneTaken(runs, order) ==> fired == |order|)
  }

  // So far every pass was full and fired all it handled.
  ghost predicate Progress(jobs: map<JobId, JobRow>, runs: map<RunId, RunRow>, now: Time, batch: nat, next: Schedules,
                           seen: seq<Due>, jobs': map<JobId, JobRow>, runs': map<RunId, RunRow>, fired: nat)
    requires batch > 0
  {
    && Underway(jobs, runs, now, next, seen, jobs', runs') && NoneTaken(runs, seen) && fired == |seen|
    && AllFull(|DueTimes(jobs, now)|, batch, |seen|)
  }

  // A pass that fires a whole batch: `fired` counts all runs so far, `more` this pass's.
  lemma PassGoesOn(jobs: map<JobId, JobRow>, runs: map<RunId, RunRow>, now: Time, batch: nat, next: Schedules, seen: seq<Due>,
                   jobs1: map<JobId, JobRow>, runs1: map<RunId, RunRow>, due: seq<Due>, runs2: map<RunId, RunRow>, fired: nat, more: nat)
    requires batch > 0 && Later(next, now) && fired >= more >= batch
    requires Progress(jobs, runs, now, batch, next, seen, jobs1, runs1, fired - more)
    requires Selects(jobs1, now, {}, batch, due) && Ordered(due)
    requires forall o :: Taken(runs2, o) <==> Taken(runs1, o) || o in due
    requires more <= |due| && (more == |due| <==> NoneTaken(runs1, due))
    ensures Progress(jobs, runs, now, batch, next, seen + due, Advanced(jobs1, Answers(due, next)), runs2, fired)
  {
    hide Underway, NoneTaken, AllFull, DueTimes, Later, Advanced, Answers, Taken;
    SelectsJobs(jobs1, now, {}, batch, due);
    UnderwayKept(jobs, runs, now, batch, next, seen, jobs1, runs1, due, runs2);
    NoneTakenBoth(runs, seen, due);
    FullPass(jobs, now, batch, seen, due);
  }

  // A pass that fires less, the last.
  lemma PassEnds(jobs: map<JobId, JobRow>, runs: map<RunId, RunRow>, now: Time, batch: nat, next: Schedules, seen: seq<Due>,
                 jobs1: map<JobId, JobRow>, runs1: map<RunId, RunRow>, due: seq<Due>, runs2: map<RunId, RunRow>, fired: nat, more: nat)
      returns (order: seq<Due>)
    requires batch > 0 && Later(next, now) && fired >= more && more < batch
    requires Progress(jobs, runs, now, batch, next, seen, jobs1, runs1, fired - more)
    requires Selects(jobs1, now, {}, batch, due) && Ordered(due)
    requires forall o :: Taken(runs2, o) <==> Taken(runs1, o) || o in due
    requires more <= |due| && (more == |due| <==> NoneTaken(runs1, due))
    ensures Drained(jobs, runs, now, batch, next, order, |seen| + |due|, Advanced(jobs1, Answers(due, next)), runs2, fired)
  {
    hide Underway, NoneTaken, AllFull, DueTimes, Later, Advanced, Answers, Taken, OldestFirst, JobsOf, Clear, Untied, Boundary, Selects, NothingDue;
    SelectsJobs(jobs1, now, {}, batch, due);
    UnderwayKept(jobs, runs, now, batch, next, seen, jobs1, runs1, due, runs2);
    order := TickEnds(jobs, runs, now, batch, next, seen, due, Advanced(jobs1, Answers(due, next)), runs2);
    NothingDueIs(Advanced(jobs1, Answers(due, next)), now);
    if Untied(DueTimes(jobs, now)) {
      ClearIsNoneTaken(runs, DueTimes(jobs, now), batch, order);
    }
  }

  lemma TickStarts(jobs: map<JobId, JobRow>, runs: map<RunId, RunRow>, now: Time, batch: nat, next: Schedules, deliveries: RunId -> Delivery)
    requires batch > 0
    ensures Progress(jobs, runs, now, batch, next, [], jobs, runs, 0) && Grown(jobs, runs, next, jobs, runs, [])
    ensures Arrived([], deliveries) == multiset{}
  {
    UnderwayStarts(jobs, runs, now, next);
  }

  lemma FullPass(jobs: map<JobId, JobRow>, now: Time, batch: nat, seen: seq<Due>, due: seq<Due>)
    requires batch > 0 && |due| == batch && AllFull(|DueTimes(jobs, now)|, batch, |seen|)
    requires OldestFirst(DueTimes(jobs, now), seen + due)
    ensures AllFull(|DueTimes(jobs, now)|, batch, |seen + due|)
  {
    OrderSize(DueTimes(jobs, now), seen + due);
    AnotherFullPass(|DueTimes(jobs, now)|, batch, |seen|);
  }
}
