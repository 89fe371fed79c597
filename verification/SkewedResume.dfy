// How a tick comes to stop with a job still due: a paused job is resumed by a
// replica whose clock lags, so its next run is an occurrence it has already fired.
module SkewedResume {
  import opened Basics
  import opened Rows
  import opened Firing
  import opened Schedule
  import opened Queue
  import opened Draining

  function Cron(at: Time): JobRow {
    JobRow(true, true, Some(at))
  }

  function Fired0(): map<RunId, RunRow> {
    map[0 := RunRow(0, 1, Schedule)]
  }

  lemma Cons(s: System, step: Step, rest: seq<Step>)
    requires Enabled(s, step) && Legal(Next(s, step), rest)
    ensures Legal(s, [step] + rest) && Play(s, [step] + rest) == Play(Next(s, step), rest)
  {
    hide Enabled, Next;
    assert ([step] + rest)[1..] == rest;
  }

  // One scheduler fires the occurrence of job 0 at time 1.
  lemma FiresOne(s: System)
    requires s.now == 1 && s.jobs == map[0 := Cron(1)] && s.runs == map[] && s.txs == map[]
    requires s.passed == {} && s.returned == {}
    ensures var steps := [Begin(0)] + ([Lock(0, [Due(0, 1)], {}, 1)] + ([Fire(0, 0, Some(100))] + ([Commit(0, false)] + [])));
            && Legal(s, steps)
            && Play(s, steps) == s.(jobs := map[0 := Cron(100)], runs := Fired0(), passed := {Due(0, 1)}, returned := {0})
  {
    var s1 := s.(txs := map[0 := Begun(1)]);
    var s2 := s.(txs := map[0 := Holding(1, [Due(0, 1)], 0, map[], map[])]);
    var s3 := s.(txs := map[0 := Holding(1, [Due(0, 1)], 1, Fired0(), map[0 := Some(100)])]);
    var s4 := s.(jobs := map[0 := Cron(100)], runs := Fired0(), passed := {Due(0, 1)}, returned := {0});
    Locks0(s1);
    Fires0(s2);
    Commits0(s3);
    assert Legal(s4, []) && Play(s4, []) == s4;
    hide Enabled, Next, Legal, Play, Fired0;
    Cons(s3, Commit(0, false), []);
    Cons(s2, Fire(0, 0, Some(100)), [Commit(0, false)] + []);
    Cons(s1, Lock(0, [Due(0, 1)], {}, 1), [Fire(0, 0, Some(100))] + ([Commit(0, false)] + []));
    Begins0(s);
    Cons(s, Begin(0), [Lock(0, [Due(0, 1)], {}, 1)] + ([Fire(0, 0, Some(100))] + ([Commit(0, false)] + [])));
  }

  lemma Begins0(s: System)
    requires s.txs == map[] && s.now == 1
    ensures Enabled(s, Begin(0)) && Next(s, Begin(0)) == s.(txs := map[0 := Begun(1)])
  {
  }

  lemma Locks0(s: System)
    requires s.now == 1 && s.jobs == map[0 := Cron(1)] && s.txs == map[0 := Begun(1)]
    ensures Enabled(s, Lock(0, [Due(0, 1)], {}, 1))
    ensures Next(s, Lock(0, [Due(0, 1)], {}, 1)) == s.(txs := map[0 := Holding(1, [Due(0, 1)], 0, map[], map[])])
  {
    var due := [Due(0, 1)];
    assert due[0].job == 0;
    assert JobsOf(due) == {0};
    assert DueTimes(s.jobs, 1) == map[0 := 1];
    assert map[0 := 1].Keys - {} == {0};
  }

  lemma Fires0(s: System)
    requires s.runs == map[] && s.txs == map[0 := Holding(1, [Due(0, 1)], 0, map[], map[])]
    ensures Enabled(s, Fire(0, 0, Some(100)))
    ensures Next(s, Fire(0, 0, Some(100))) == s.(txs := map[0 := Holding(1, [Due(0, 1)], 1, Fired0(), map[0 := Some(100)])])
  {
  }

  lemma Commits0(s: System)
    requires s.jobs == map[0 := Cron(1)] && s.runs == map[] && s.passed == {} && s.returned == {}
    requires s.txs == map[0 := Holding(1, [Due(0, 1)], 1, Fired0(), map[0 := Some(100)])]
    ensures Enabled(s, Commit(0, false))
    ensures Next(s, Commit(0, false))
         == s.(jobs := map[0 := Cron(100)], runs := Fired0(), passed := {Due(0, 1)}, returned := {0}, txs := map[])
  {
    var due := [Due(0, 1)];
    assert (set i | 0 <= i < |due| :: due[i]) == {due[0]};
    assert s.txs - {0} == map[];
    assert map[] + Fired0() == Fired0();
    assert Advanced(s.jobs, map[0 := Some(100)]) == map[0 := Cron(100)];
  }

  function Round(): seq<Step> {
    [Begin(0)] + ([Lock(0, [Due(0, 1)], {}, 1)] + ([Fire(0, 0, Some(100))] + ([Commit(0, false)] + [])))
  }

  function Numbers(n: nat): (ns: set<nat>)
    ensures |ns| == n && forall j: nat :: j in ns <==> j < n
  {
    if n == 0 then {} else Numbers(n - 1) + {n - 1}
  }

  // Jobs 0 to n - 1, job j due at j + 1.
  function Jobs(n: nat): map<JobId, JobRow> {
    map j | j in Numbers(n) :: Cron(j + 1)
  }

  lemma JobsGrow(n: nat)
    requires n > 0
    ensures Jobs(n) == Jobs(n - 1)[n - 1 := Cron(n)] && n - 1 !in Jobs(n - 1)
    ensures n == 1 ==> Jobs(n) == map[0 := Cron(1)]
  {
    hide Numbers;
    assert n == 1 ==> Jobs(n - 1) == map[];
  }

  lemma JobsDue(n: nat)
    ensures DueTimes(Jobs(n), n).Keys == Numbers(n) && forall j | j in Numbers(n) :: DueTimes(Jobs(n), n)[j] == j + 1
  {
    hide Numbers;
  }

  // Firing job 0's occurrence at time 1, its pause, its resume for time 1 again and
  // the creation of the other jobs get there.
  lemma Reachable0(s0: System, batch: nat) returns (steps: seq<Step>)
    requires Initial(s0) && s0.now == 0
    ensures Legal(s0, steps)
    ensures var s := Play(s0, steps); s.now == batch + 1 && s.jobs == Jobs(batch + 1) && s.runs == Fired0() && s.txs == map[]
  {
    var s2 := s0.(jobs := map[0 := Cron(1)], now := 1);
    var s3 := s2.(jobs := map[0 := Cron(100)], runs := Fired0(), passed := {Due(0, 1)}, returned := {0});
    var first := [CreateJob(0, Cron(1))] + ([Tick(1)] + Round());
    FiresOne(s2);
    assert Next(s0.(jobs := map[0 := Cron(1)]), Tick(1)) == s2;
    assert Enabled(s0, CreateJob(0, Cron(1))) && Next(s0, CreateJob(0, Cron(1))) == s0.(jobs := map[0 := Cron(1)]);
    var last := Resumes(s3, batch);
    hide Enabled, Next, Legal, Play, Round;
    Cons(s0.(jobs := map[0 := Cron(1)]), Tick(1), Round());
    Cons(s0, CreateJob(0, Cron(1)), [Tick(1)] + Round());
    PlayAppend(s0, first, last);
    steps := first + last;
  }

  lemma {:induction false} PlayAppend(s: System, xs: seq<Step>, ys: seq<Step>)
    requires Legal(s, xs) && Legal(Play(s, xs), ys)
    ensures Legal(s, xs + ys) && Play(s, xs + ys) == Play(Play(s, xs), ys)
    decreases |xs|
  {
    hide Enabled, Next;
    if xs == [] {
      assert xs + ys == ys;
    } else {
      assert (xs + ys)[1..] == xs[1..] + ys;
      PlayAppend(Next(s, xs[0]), xs[1..], ys);
    }
  }

  lemma Resumes(s: System, batch: nat) returns (steps: seq<Step>)
    requires s.now == 1 && s.jobs == map[0 := Cron(100)] && s.txs == map[]
    ensures Legal(s, steps) && Play(s, steps) == s.(jobs := Jobs(batch + 1), now := batch + 1)
  {
    hide Jobs, Numbers;
    var s1 := s.(jobs := map[0 := JobRow(false, true, None)]);
    var s2 := s.(jobs := Jobs(1));
    var s3 := s.(jobs := Jobs(batch + 1));
    var s4 := s3.(now := batch + 1);
    JobsGrow(1);
    assert Enabled(s, SetEnabled(0, false, None)) && Next(s, SetEnabled(0, false, None)) == s1;
    assert Enabled(s1, SetEnabled(0, true, Some(1))) && Next(s1, SetEnabled(0, true, Some(1))) == s2;
    assert Enabled(s3, Tick(batch + 1)) && Next(s3, Tick(batch + 1)) == s4;
    assert Legal(s4, []) && Play(s4, []) == s4;
    var creates := CreatesJobs(s2, batch + 1);
    hide Enabled, Next, Legal, Play;
    Cons(s3, Tick(batch + 1), []);
    PlayAppend(s2, creates, [Tick(batch + 1)] + []);
    steps := creates + ([Tick(batch + 1)] + []);
    Cons(s1, SetEnabled(0, true, Some(1)), steps);
    Cons(s, SetEnabled(0, false, None), [SetEnabled(0, true, Some(1))] + steps);
    steps := [SetEnabled(0, false, None)] + ([SetEnabled(0, true, Some(1))] + steps);
  }

  lemma {:induction false} CreatesJobs(s: System, n: nat) returns (steps: seq<Step>)
    requires n > 0 && s.jobs == Jobs(1)
    ensures Legal(s, steps) && Play(s, steps) == s.(jobs := Jobs(n))
  {
    if n == 1 {
      steps := [];
    } else {
      hide Jobs, Numbers;
      var step := CreateJob(n - 1, Cron(n));
      JobsGrow(n);
      var made := s.(jobs := Jobs(n - 1));
      steps := CreatesJobs(s, n - 1);
      assert Enabled(made, step);
      assert Next(made, step).jobs == Jobs(n);
      assert Legal(Next(made, step), []);
      Cons(made, step, []);
      PlayAppend(s, steps, [step] + []);
      steps := steps + ([step] + []);
    }
  }

  // At batch + 1 every job is due, the jobs in order, and job 0's occurrence is
  // one the first pass meets.
  lemma AllAreDue(batch: nat)
    requires batch > 0
    ensures var all := DueTimes(Jobs(batch + 1), batch + 1);
            && batch in all && |all| == batch + 1 && Untied(all) && |Sooner(all, all[batch])| == batch
            && !Clear(Fired0(), all, batch)
  {
    hide Jobs, Numbers, DueTimes, Fired0;
    var n := batch + 1;
    var all := DueTimes(Jobs(n), n);
    JobsDue(n);
    assert Sooner(all, all[batch]) == Numbers(batch);
    assert Sooner(all, all[0]) == {};
    assert Boundary(n, batch) == batch + Boundary(1, batch);
    TakesFirst();
  }

  lemma TakesFirst()
    ensures Taken(Fired0(), Due(0, 1))
  {
    assert Occurrence(Fired0()[0]) == Due(0, 1);
  }

  lemma UnhandledStaysDue(jobs: map<JobId, JobRow>, now: Time, done: seq<Due>, next: Schedules, j: JobId)
    requires j in DueTimes(jobs, now) && forall i | 0 <= i < |done| :: done[i].job != j
    ensures j in DueTimes(Advanced(jobs, Answers(done, next)), now)
  {
  }

  // Whatever drains these tables leaves the last job due.
  lemma LastStaysDue(batch: nat, next: Schedules, order: seq<Due>, handled: nat, jobs: map<JobId, JobRow>,
                     runs: map<RunId, RunRow>, fired: nat)
    requires batch > 0 && Drained(Jobs(batch + 1), Fired0(), batch + 1, batch, next, order, handled, jobs, runs, fired)
    ensures batch in DueTimes(jobs, batch + 1)
  {
    hide Clear, Untied, Sooner, DueTimes, NothingDue, Jobs, Fired0, Answers, Advanced, NoneTaken, Taken, JobsOf, Ordered, Boundary;
    var all := DueTimes(Jobs(batch + 1), batch + 1);
    AllAreDue(batch);
    OrderSize(all, order);
    var i := PlaceFound(all, order, batch);
    UnhandledStaysDue(Jobs(batch + 1), batch + 1, order[..handled], next, batch);
  }

  // There a tick with any batch, its answers all in the future and nothing failing,
  // stops with the last job still due.
  method TickLeavesJobDue(t: Tables, broker: Broker, batch: nat, next: Schedules, deliveries: RunId -> Delivery)
    requires t.Valid() && t.jobs == Jobs(batch + 1) && t.runs == Fired0()
    requires batch > 0 && Later(next, batch + 1)
    modifies t, broker
    ensures batch in DueTimes(t.jobs, batch + 1)
  {
    hide Drained;
    var fired, unreported, order, handled := Draining.Tick(t, broker, batch + 1, batch, next, i => Replied, deliveries);
    LastStaysDue(batch, next, order, handled, t.jobs, t.runs, |fired|);
  }
}
