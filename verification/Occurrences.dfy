// The two views of job_runs are one table: the scheduler's, of a run's occurrence,
// is part of the workers'.
module Occurrences {
  import opened Basics
  import opened Rows
  import opened Store
  import opened Protocol
  import opened Safety
  import F = Firing

  function Columns(runs: map<RunId, Run>): map<RunId, F.RunRow> {
    map id | id in runs :: F.RunRow(runs[id].jobId, runs[id].scheduledTime, runs[id].trigger)
  }

  lemma KeysAgree(runs: map<RunId, Run>, job: JobId, scheduledTime: Time)
    ensures KeyTaken(runs, job, scheduledTime) <==> F.Taken(Columns(runs), F.Due(job, scheduledTime))
    ensures UniqueKeys(runs) <==> F.Unique(Columns(runs))
  {
    if KeyTaken(runs, job, scheduledTime) {
      var id :| id in runs && runs[id].jobId == job && runs[id].scheduledTime == scheduledTime;
      assert F.Occurrence(Columns(runs)[id]) == F.Due(job, scheduledTime);
    }
    if UniqueKeys(runs) {
      forall a, b | a in runs && b in runs && F.Occurrence(Columns(runs)[a]) == F.Occurrence(Columns(runs)[b]) ensures a == b {
      }
    }
    if F.Unique(Columns(runs)) {
      forall a, b | a in runs && b in runs && a != b
        ensures runs[a].jobId != runs[b].jobId || runs[a].scheduledTime != runs[b].scheduledTime
      {
        assert F.Occurrence(Columns(runs)[a]) != F.Occurrence(Columns(runs)[b]);
      }
    }
  }

  // Once a run is created, nothing the workers do changes its occurrence.
  lemma StepsKeepOccurrences(c: Config, s: System, step: Step)
    requires WellFormed(s) && Enabled(c, s, step)
    ensures Columns(Next(s, step).runs) == if step.Create?
              then Columns(s.runs)[step.id := F.RunRow(step.job, step.scheduledTime, step.trigger)] else Columns(s.runs)
  {
    hide Touched, After, Enabled;
    if !step.Create? {
      forall id | id in s.runs
        ensures id in Next(s, step).runs && Columns(Next(s, step).runs)[id] == Columns(s.runs)[id]
      {
        KeepsOccurrence(c, s, step, id);
      }
      SameRuns(c, s, step);
    }
  }

  lemma KeepsOccurrence(c: Config, s: System, step: Step, id: RunId)
    requires WellFormed(s) && Enabled(c, s, step) && id in s.runs
    ensures id in Next(s, step).runs
    ensures var r, r' := s.runs[id], Next(s, step).runs[id];
            r'.jobId == r.jobId && r'.scheduledTime == r.scheduledTime && r'.trigger == r.trigger
  {
    hide Enabled, Next, Touched;
    StepOnRow(c, s, step, id);
  }

  lemma SameRuns(c: Config, s: System, step: Step)
    requires WellFormed(s) && Enabled(c, s, step) && !step.Create?
    ensures Next(s, step).runs.Keys == s.runs.Keys
  {
    hide Touched, After;
  }

  // A run a scheduler's transaction is about to commit is one the protocol can
  // create: its id is unused and its occurrence has no run.
  lemma InsertsAreCreates(c: Config, s: System, f: F.System, tx: F.TxId, id: RunId)
    requires WellFormed(s) && F.Inv(f) && f.runs == Columns(s.runs)
    requires tx in f.txs && f.txs[tx].Holding? && id in f.txs[tx].inserted
    requires f.txs[tx].inserted[id].job in s.retries
    ensures var row := f.txs[tx].inserted[id];
            Enabled(c, s, Create(id, row.job, row.scheduledTime, Schedule))
            && Columns(Next(s, Create(id, row.job, row.scheduledTime, Schedule)).runs) == f.runs[id := row]
  {
    var row := f.txs[tx].inserted[id];
    assert F.Sound(f.jobs, f.runs, f.txs[tx]);
    hide F.Holds, F.Taken, KeyTaken;
    assert id !in f.runs && !F.Taken(f.runs, F.Occurrence(row)) && row.trigger.Schedule?;
    hide F.Inserts;
    KeysAgree(s.runs, row.job, row.scheduledTime);
    StepsKeepOccurrences(c, s, Create(id, row.job, row.scheduledTime, Schedule));
  }
}
