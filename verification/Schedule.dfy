// The jobs and job_runs tables as one scheduler's transactions change them:
// FireDueJobs at one reading of the clock, and pausing and resuming a job.
module Schedule {
  import opened Basics
  import opened Rows
  import opened Picking
  import opened Firing

  // next's answer for each job; None is an error, which clears next_run_at.
  type Schedules = JobId -> Option<Time>

  datatype SetResult = Updated(row: JobRow) | NoSuchJob | NeverFires

  function Answers(due: seq<Due>, next: Schedules): map<JobId, Option<Time>> {
    map j | j in JobsOf(due) :: next(j)
  }

  predicate Ordered(due: seq<Due>) {
    forall i, j | 0 <= i < j < |due| :: due[i].at <= due[j].at
  }

  predicate NoneTaken(runs: map<RunId, RunRow>, due: seq<Due>) {
    forall i | 0 <= i < |due| :: !Taken(runs, due[i])
  }

  class Tables {
    var jobs: map<JobId, JobRow>
    var runs: map<RunId, RunRow>
    var nextId: nat  // NewID: every run so far has a smaller id

    ghost predicate Valid()
      reads this
    {
      Unique(runs) && Quiet(jobs) && forall id | id in runs :: id < nextId
    }

    constructor (jobs: map<JobId, JobRow>)
      requires Quiet(jobs)
      ensures Valid() && this.jobs == jobs && runs == map[]
    {
      this.jobs := jobs;
      runs := map[];
      nextId := 0;
    }

    // SetJobEnabled: one UPDATE of one row.
    method SetJobEnabled(job: JobId, enabled: bool, nextAt: Option<Time>) returns (row: Option<JobRow>)
      requires Valid()
      modifies this`jobs
      ensures Valid() <==> (nextAt.Some? && job in old(jobs) ==> enabled && old(jobs)[job].hasCron)
      ensures row.Some? <==> job in old(jobs)
      ensures row.Some? ==> row.value == old(jobs)[job].(enabled := enabled, nextRunAt := nextAt)
      ensures jobs == if row.Some? then old(jobs)[job := row.value] else old(jobs)
    {
      if job !in jobs {
        return None;
      }
      row := Some(jobs[job].(enabled := enabled, nextRunAt := nextAt));
      jobs := jobs[job := row.value];
      assert row.value == jobs[job];
    }

    // handleSetEnabled: resuming a cron job schedules next's answer, and anything
    // else leaves the job without a next run. `read` is the job as GetJob returned
    // it; since then everything about it but its cron expression may have changed.
    method SetEnabled(job: JobId, enabled: bool, read: Option<JobRow>, next: Schedules) returns (res: SetResult)
      requires Valid() && (read.Some? && job in jobs ==> read.value.hasCron == jobs[job].hasCron)
      modifies this`jobs
      ensures Valid()
      ensures res.NeverFires? <==> read.Some? && enabled && read.value.hasCron && next(job).None?
      ensures res.Updated? <==> read.Some? && !res.NeverFires? && job in old(jobs)
      ensures jobs == if res.Updated? then old(jobs)[job := res.row] else old(jobs)
      ensures res.Updated? ==>
                && res.row.enabled == enabled && res.row.hasCron == old(jobs)[job].hasCron
                && (res.row.nextRunAt.Some? <==> enabled && res.row.hasCron)
                && (res.row.nextRunAt.Some? ==> res.row.nextRunAt == next(job))
    {
      if read.None? {
        return NoSuchJob;
      }
      var nextAt := None;
      if enabled && read.value.hasCron {
        nextAt := next(job);
        if nextAt.None? {
          return NeverFires;
        }
      }
      var row := SetJobEnabled(job, enabled, nextAt);
      return if row.Some? then Updated(row.value) else NoSuchJob;
    }

    // The locking query: `busy` are the jobs other transactions hold.
    method SelectDue(now: Time, busy: set<JobId>, batch: nat) returns (due: seq<Due>)
      ensures Selects(jobs, now, busy, batch, due) && Ordered(due)
    {
      var cands := DueTimes(jobs, now);
      var picked := PickOldest(cands, busy, batch);
      due := [];
      for i := 0 to |picked|
        invariant |due| == i
        invariant forall k | 0 <= k < i :: due[k] == Due(picked[k], cands[picked[k]])
      {
        due := due + [Due(picked[i], cands[picked[i]])];
      }
      SelectsPicked(jobs, now, busy, batch, picked, due);
    }

    // FireDueJobs, committed: `due` is what its query selected. Every selected
    // job is advanced to next's answer, every occurrence without a row gets one,
    // and exactly the new rows are returned.
    method FireDueJobs(now: Time, busy: set<JobId>, batch: nat, next: Schedules)
        returns (fired: seq<RunId>, ghost due: seq<Due>)
      requires Valid()
      modifies this
      ensures Valid()
      ensures Selects(old(jobs), now, busy, batch, due) && Ordered(due)
      ensures jobs == Advanced(old(jobs), Answers(due, next))
      ensures forall id | id in old(runs) :: id in runs && runs[id] == old(runs)[id]
      ensures forall o :: Taken(runs, o) <==> Taken(old(runs), o) || o in due
      ensures NoDup(fired) && Elems(fired) == runs.Keys - old(runs).Keys
      ensures forall id | id in fired :: id in runs && runs[id].trigger.Schedule? && Occurrence(runs[id]) in due
      ensures |fired| <= |due| && (|fired| == |due| <==> NoneTaken(old(runs), due))
    {
      var found := SelectDue(now, busy, batch);
      due := found;
      hide Selects, Taken, Inserts, Unique, Quiet, Half, Ordered, NoDup, NoneTaken, Answers, Advanced;
      var inserted: map<RunId, RunRow> := map[];
      var advanced: map<JobId, Option<Time>> := map[];
      fired := [];
      ghost var tx := Holding(now, found, 0, map[], map[]);
      HalfStarts(runs, tx, next, nextId);
      SelectsJobs(jobs, now, busy, batch, found);
      for i := 0 to |found|
        invariant jobs == old(jobs) && runs == old(runs)
        invariant forall id | id in runs :: id < nextId
        invariant tx == Holding(now, found, i, inserted, advanced) && Half(runs, tx, next, fired, nextId)
      {
        var j := found[i];
        HalfStep(runs, tx, next, fired, nextId);
        tx := Fired(tx, runs, nextId, next(j.job));
        if !Taken(runs, j) {
          inserted := inserted[nextId := RunRow(j.job, j.at, Schedule)];
          fired := fired + [nextId];
          nextId := nextId + 1;
        }
        advanced := advanced[j.job := next(j.job)];
      }
      HalfDone(jobs, runs, tx, next, fired, nextId);
      jobs := Advanced(jobs, advanced);
      runs := runs + inserted;
    }
  }

  // Half-way through the transaction's loop, its first t.done jobs fired.
  ghost predicate Half(runs: map<RunId, RunRow>, t: Tx, next: Schedules, fired: seq<RunId>, nextId: nat) {
    && t.Holding? && t.done <= |t.due|
    && Inserts(runs, t)
    && t.advanced == Answers(t.due[..t.done], next)
    && (forall id | id in t.inserted :: id !in runs && id < nextId)
    && NoDup(fired) && Elems(fired) == t.inserted.Keys
    && |fired| <= t.done && (|fired| == t.done <==> NoneTaken(runs, t.due[..t.done]))
  }

  lemma HalfStarts(runs: map<RunId, RunRow>, t: Tx, next: Schedules, nextId: nat)
    requires t.Holding? && t.done == 0 && t.inserted == map[] && t.advanced == map[]
    ensures Half(runs, t, next, [], nextId)
  {
    assert JobsOf(t.due[..0]) == {};
  }

  lemma HalfStep(runs: map<RunId, RunRow>, t: Tx, next: Schedules, fired: seq<RunId>, nextId: nat)
    requires Half(runs, t, next, fired, nextId) && t.done < |t.due| && forall id | id in runs :: id < nextId
    requires forall i, j | 0 <= i < j < |t.due| :: t.due[i].job != t.due[j].job
    ensures var o := t.due[t.done];
            Half(runs, Fired(t, runs, nextId, next(o.job)), next,
                 if Taken(runs, o) then fired else fired + [nextId],
                 if Taken(runs, o) then nextId else nextId + 1)
  {
    hide Taken, Inserts, NoneTaken, Answers;
    var o := t.due[t.done];
    FireInserts(runs, t, nextId, next(o.job));
    assert t.due[..t.done + 1] == t.due[..t.done] + [o];
    OneMoreAnswer(t.due[..t.done], o, next);
    OneMoreFree(runs, t.due[..t.done], o);
  }

  lemma HalfDone(jobs: map<JobId, JobRow>, runs: map<RunId, RunRow>, t: Tx, next: Schedules, fired: seq<RunId>, nextId: nat)
    requires Unique(runs) && Quiet(jobs) && Half(runs, t, next, fired, nextId) && t.done == |t.due|
    requires forall id | id in runs :: id < nextId
    requires forall i | 0 <= i < |t.due| :: t.due[i].job in jobs && jobs[t.due[i].job].enabled && jobs[t.due[i].job].hasCron
    ensures t.advanced == Answers(t.due, next)
    ensures Unique(runs + t.inserted) && Quiet(Advanced(jobs, t.advanced))
    ensures forall id | id in runs + t.inserted :: id < nextId
    ensures forall o :: Taken(runs + t.inserted, o) <==> Taken(runs, o) || o in t.due
    ensures NoDup(fired) && Elems(fired) == (runs + t.inserted).Keys - runs.Keys
    ensures forall id | id in runs :: id !in t.inserted
    ensures forall id | id in fired :: id in t.inserted && t.inserted[id].trigger.Schedule? && Occurrence(t.inserted[id]) in t.due
    ensures |fired| <= |t.due| && (|fired| == |t.due| <==> NoneTaken(runs, t.due))
  {
    assert t.due[..t.done] == t.due;
    CommitAlone(jobs, runs, t, next);
    hide Inserts, Taken, Unique, Quiet, Answers, NoneTaken, Advanced;
    assert forall id | id in fired :: id in Elems(fired);
  }

  lemma SelectsJobs(jobs: map<JobId, JobRow>, now: Time, busy: set<JobId>, batch: nat, due: seq<Due>)
    requires Selects(jobs, now, busy, batch, due)
    ensures forall i, j | 0 <= i < j < |due| :: due[i].job != due[j].job
    ensures forall i | 0 <= i < |due| :: due[i].job in jobs && jobs[due[i].job].enabled && jobs[due[i].job].hasCron
    ensures |due| <= batch
  {
    assert forall i | 0 <= i < |due| :: due[i].job in JobsOf(due);
    JobsOfSize(due);
  }

  lemma {:induction false} JobsOfSize(due: seq<Due>)
    requires forall i, j | 0 <= i < j < |due| :: due[i].job != due[j].job
    ensures |JobsOf(due)| == |due|
  {
    if due != [] {
      var p := due[..|due| - 1];
      JobsOfSize(p);
      var last := due[|due| - 1].job;
      assert JobsOf(due) == JobsOf(p) + {last} by {
        assert forall i | 0 <= i < |p| :: due[i] == p[i];
      }
    }
  }

  lemma SelectsPicked(jobs: map<JobId, JobRow>, now: Time, busy: set<JobId>, batch: nat, picked: seq<JobId>, due: seq<Due>)
    requires NoDup(picked) && (forall k | k in picked :: k in DueTimes(jobs, now)) && Sorted(DueTimes(jobs, now), picked)
    requires Picks(DueTimes(jobs, now), busy, batch, Elems(picked))
    requires |due| == |picked|
    requires forall i | 0 <= i < |due| :: due[i] == Due(picked[i], DueTimes(jobs, now)[picked[i]])
    ensures Selects(jobs, now, busy, batch, due) && Ordered(due)
  {
    hide Picks;
    SameJobs(picked, due);
    assert forall i | 0 <= i < |picked| :: picked[i] in picked;
    assert forall i | 0 <= i < |due| :: due[i].job in jobs && jobs[due[i].job].nextRunAt == Some(due[i].at);
  }

  lemma SameJobs(picked: seq<JobId>, due: seq<Due>)
    requires |due| == |picked| && forall i | 0 <= i < |due| :: due[i].job == picked[i]
    ensures JobsOf(due) == Elems(picked)
  {
    forall j | j in Elems(picked) ensures j in JobsOf(due) {
      var i :| 0 <= i < |picked| && picked[i] == j;
      assert due[i].job == j;
    }
  }

  lemma OneMoreAnswer(due: seq<Due>, o: Due, next: Schedules)
    ensures Answers(due + [o], next) == Answers(due, next)[o.job := next(o.job)]
  {
    assert forall j :: j in JobsOf(due + [o]) <==> j in JobsOf(due) || j == o.job by {
      forall j | j in JobsOf(due) || j == o.job ensures j in JobsOf(due + [o]) {
        if j == o.job {
          assert (due + [o])[|due|].job == j;
        } else {
          var i :| 0 <= i < |due| && due[i].job == j;
          assert (due + [o])[i].job == j;
        }
      }
    }
  }

  lemma OneMoreFree(runs: map<RunId, RunRow>, due: seq<Due>, o: Due)
    ensures NoneTaken(runs, due + [o]) <==> NoneTaken(runs, due) && !Taken(runs, o)
  {
    assert (due + [o])[|due|] == o;
    assert forall i | 0 <= i < |due| :: (due + [o])[i] == due[i];
  }

  lemma CommitAlone(jobs: map<JobId, JobRow>, runs: map<RunId, RunRow>, t: Tx, next: Schedules)
    requires Unique(runs) && Quiet(jobs) && t.Holding? && t.done == |t.due| && Inserts(runs, t)
    requires t.advanced == Answers(t.due, next)
    requires forall i | 0 <= i < |t.due| :: t.due[i].job in jobs && jobs[t.due[i].job].enabled && jobs[t.due[i].job].hasCron
    ensures Unique(runs + t.inserted) && Quiet(Advanced(jobs, t.advanced))
    ensures forall o :: Taken(runs + t.inserted, o) <==> Taken(runs, o) || o in t.due
    ensures forall id | id in t.inserted :: t.inserted[id].trigger.Schedule? && Occurrence(t.inserted[id]) in t.due
    ensures t.inserted.Keys !! runs.Keys
  {
    TakenMore(runs, t.inserted);
    assert t.due[..t.done] == t.due;
    assert forall a | a in runs :: Taken(runs, Occurrence(runs[a]));
    forall o | o in t.due ensures Taken(runs + t.inserted, o) {
      var i :| 0 <= i < |t.due| && t.due[i] == o;
    }
  }
}
