// FireDueJobs as the database sees it: any number of schedulers, each inside a
// transaction that locks due jobs, inserts one run per job, advances the job and
// commits or aborts, among pauses, resumes and manual runs.
module Firing {
  import opened Basics
  import opened Rows
  import opened Picking

  datatype JobRow = JobRow(enabled: bool, hasCron: bool, nextRunAt: Option<Time>)

  // The columns of job_runs this protocol is about.
  datatype RunRow = RunRow(job: JobId, scheduledTime: Time, trigger: Trigger)

  datatype Due = Due(job: JobId, at: Time)

  // A transaction: begun (its now() is fixed then), or holding its locked jobs,
  // of which the first `done` are fired. Its writes are its own until it commits.
  datatype Tx =
    | Begun(start: Time)
    | Holding(start: Time, due: seq<Due>, done: nat, inserted: map<RunId, RunRow>, advanced: map<JobId, Option<Time>>)

  type TxId = nat

  datatype System = System(
    now: Time,
    jobs: map<JobId, JobRow>,
    runs: map<RunId, RunRow>,
    txs: map<TxId, Tx>,
    passed: set<Due>,         // occurrences a committed transaction advanced past
    returned: set<RunId>,     // runs a committed transaction returned for dispatch
    unreported: set<RunId>)   // runs of a commit that took effect and ended in an error

  datatype Step =
    | CreateJob(job: JobId, row: JobRow)
    | SetEnabled(job: JobId, enabled: bool, next: Option<Time>)
    | ManualRun(id: RunId, job: JobId, scheduledTime: Time)
    | Begin(tx: TxId)
    | Lock(tx: TxId, due: seq<Due>, busy: set<JobId>, batch: nat)
    | Fire(tx: TxId, id: RunId, next: Option<Time>)
    | Commit(tx: TxId, replyLost: bool)
    | Abort(tx: TxId)
    | Tick(later: Time)

  function Occurrence(r: RunRow): Due {
    Due(r.job, r.scheduledTime)
  }

  predicate Taken(runs: map<RunId, RunRow>, o: Due) {
    exists id | id in runs :: Occurrence(runs[id]) == o
  }

  function JobsOf(due: seq<Due>): set<JobId> {
    set i | 0 <= i < |due| :: due[i].job
  }

  function Locks(t: Tx): set<JobId> {
    if t.Holding? then JobsOf(t.due) else {}
  }

  predicate Locked(txs: map<TxId, Tx>, job: JobId) {
    exists t | t in txs :: job in Locks(txs[t])
  }

  function Pending(t: Tx): map<RunId, RunRow> {
    if t.Holding? then t.inserted else map[]
  }

  // enabled AND cron_expr IS NOT NULL AND next_run_at <= now()
  predicate IsDue(r: JobRow, now: Time) {
    r.enabled && r.hasCron && r.nextRunAt.Some? && r.nextRunAt.value <= now
  }

  function DueTimes(jobs: map<JobId, JobRow>, now: Time): map<JobId, Time> {
    map j | j in jobs && IsDue(jobs[j], now) :: jobs[j].nextRunAt.value
  }

  // The rows the locking query returns: each picked job once, at its next_run_at.
  ghost predicate Selects(jobs: map<JobId, JobRow>, start: Time, busy: set<JobId>, batch: nat, due: seq<Due>) {
    && Picks(DueTimes(jobs, start), busy, batch, JobsOf(due))
    && (forall i, j | 0 <= i < j < |due| :: due[i].job != due[j].job)
    && forall i | 0 <= i < |due| :: due[i].job in jobs && jobs[due[i].job].nextRunAt == Some(due[i].at)
  }

  ghost predicate Enabled(s: System, step: Step) {
    match step
    case CreateJob(job, row) => job !in s.jobs && row.enabled && (row.hasCron <==> row.nextRunAt.Some?)
    // The handler computes a time exactly for a resumed cron job; the UPDATE
    // waits for the job's lock.
    case SetEnabled(job, enabled, next) =>
      job in s.jobs && !Locked(s.txs, job) && (next.Some? <==> enabled && s.jobs[job].hasCron)
    // The INSERT fails on a taken key, and waits while a transaction holds it.
    case ManualRun(id, job, scheduledTime) =>
      && job in s.jobs && id !in s.runs && !Taken(s.runs, Due(job, scheduledTime))
      && forall t | t in s.txs :: id !in Pending(s.txs[t]) && !Taken(Pending(s.txs[t]), Due(job, scheduledTime))
    case Begin(tx) => tx !in s.txs
    case Lock(tx, due, busy, batch) =>
      && tx in s.txs && s.txs[tx].Begun?
      && (forall j | Locked(s.txs, j) :: j in busy)
      && Selects(s.jobs, s.txs[tx].start, busy, batch, due)
    case Fire(tx, id, _) =>
      && tx in s.txs && s.txs[tx].Holding? && s.txs[tx].done < |s.txs[tx].due|
      && id !in s.runs && forall t | t in s.txs :: id !in Pending(s.txs[t])
    case Commit(tx, _) => tx in s.txs && s.txs[tx].Holding? && s.txs[tx].done == |s.txs[tx].due|
    case Abort(tx) => tx in s.txs
    case Tick(later) => s.now <= later
  }

  // INSERT ... ON CONFLICT DO NOTHING, then UPDATE jobs SET next_run_at.
  function Fired(t: Tx, runs: map<RunId, RunRow>, id: RunId, next: Option<Time>): Tx
    requires t.Holding? && t.done < |t.due|
  {
    var o := t.due[t.done];
    t.(inserted := if Taken(runs, o) then t.inserted else t.inserted[id := RunRow(o.job, o.at, Schedule)],
       advanced := t.advanced[o.job := next],
       done := t.done + 1)
  }

  function Advanced(jobs: map<JobId, JobRow>, advanced: map<JobId, Option<Time>>): map<JobId, JobRow> {
    map j | j in jobs :: if j in advanced then jobs[j].(nextRunAt := advanced[j]) else jobs[j]
  }

  function Next(s: System, step: Step): System
    requires Enabled(s, step)
  {
    match step
    case CreateJob(job, row) => s.(jobs := s.jobs[job := row])
    case SetEnabled(job, enabled, next) =>
      s.(jobs := s.jobs[job := s.jobs[job].(enabled := enabled, nextRunAt := next)])
    case ManualRun(id, job, scheduledTime) => s.(runs := s.runs[id := RunRow(job, scheduledTime, Manual)])
    case Begin(tx) => s.(txs := s.txs[tx := Begun(s.now)])
    case Lock(tx, due, _, _) => s.(txs := s.txs[tx := Holding(s.txs[tx].start, due, 0, map[], map[])])
    case Fire(tx, id, next) => s.(txs := s.txs[tx := Fired(s.txs[tx], s.runs, id, next)])
    case Commit(tx, replyLost) =>
      var t := s.txs[tx];
      s.(jobs := Advanced(s.jobs, t.advanced),
         runs := s.runs + t.inserted,
         passed := s.passed + (set i | 0 <= i < |t.due| :: t.due[i]),
         returned := s.returned + (if replyLost then {} else t.inserted.Keys),
         unreported := s.unreported + (if replyLost then t.inserted.Keys else {}),
         txs := s.txs - {tx})
    case Abort(tx) => s.(txs := s.txs - {tx})
    case Tick(later) => s.(now := later)
  }

  ghost predicate Initial(s: System) {
    s.jobs == map[] && s.runs == map[] && s.txs == map[] && s.passed == {} && s.returned == {} && s.unreported == {}
  }

  // ---- The invariant ----

  // A key has at most one row (job_runs_occurrence_uniq).
  ghost predicate Unique(runs: map<RunId, RunRow>) {
    forall a, b | a in runs && b in runs && Occurrence(runs[a]) == Occurrence(runs[b]) :: a == b
  }

  // A paused job has no next run; only cron jobs have one.
  ghost predicate Quiet(jobs: map<JobId, JobRow>) {
    forall j | j in jobs && jobs[j].nextRunAt.Some? :: jobs[j].enabled && jobs[j].hasCron
  }

  // A transaction's jobs stay as it found them while it holds them.
  ghost predicate Holds(jobs: map<JobId, JobRow>, t: Tx) {
    t.Holding? ==>
      && t.done <= |t.due|
      && (forall i, j | 0 <= i < j < |t.due| :: t.due[i].job != t.due[j].job)
      && (forall i | 0 <= i < |t.due| ::
            t.due[i].job in jobs && jobs[t.due[i].job].enabled && jobs[t.due[i].job].hasCron
            && jobs[t.due[i].job].nextRunAt == Some(t.due[i].at))
      && (forall j | j in t.advanced :: j in Locks(t))
  }

  // Its inserts are of occurrences it has fired and nobody else has taken, and
  // every occurrence it has fired is taken, by itself or before it.
  ghost predicate Inserts(runs: map<RunId, RunRow>, t: Tx) {
    t.Holding? ==>
      && t.done <= |t.due|
      && (forall id | id in t.inserted ::
            id !in runs && !Taken(runs, Occurrence(t.inserted[id])) && t.inserted[id].trigger.Schedule?
            && Occurrence(t.inserted[id]) in t.due[..t.done])
      && Unique(t.inserted)
      && forall i | 0 <= i < t.done :: Taken(runs, t.due[i]) || Taken(t.inserted, t.due[i])
  }

  ghost predicate Sound(jobs: map<JobId, JobRow>, runs: map<RunId, RunRow>, t: Tx) {
    Holds(jobs, t) && Inserts(runs, t)
  }

  // No two transactions hold the same job, nor insert under the same id.
  ghost predicate Apart(txs: map<TxId, Tx>) {
    forall a, b | a in txs && b in txs && a != b ::
      Locks(txs[a]) !! Locks(txs[b]) && Pending(txs[a]).Keys !! Pending(txs[b]).Keys
  }

  ghost predicate Inv(s: System) {
    && Unique(s.runs)
    && Quiet(s.jobs)
    && (forall t | t in s.txs :: Sound(s.jobs, s.runs, s.txs[t]))
    && Apart(s.txs)
    && (forall o | o in s.passed :: Taken(s.runs, o))
    && (forall id | id in s.runs :: s.runs[id].trigger.Schedule? <==> id in s.returned || id in s.unreported)
    && s.returned <= s.runs.Keys && s.unreported <= s.runs.Keys && s.returned !! s.unreported
  }

  // ---- Every step keeps it ----

  lemma SetEnabledKept(s: System, step: Step)
    requires Inv(s) && Enabled(s, step) && step.SetEnabled?
    ensures Inv(Next(s, step))
  {
    hide Inserts;
    var s' := Next(s, step);
    forall t | t in s'.txs ensures Sound(s'.jobs, s'.runs, s'.txs[t]) {
      assert Sound(s.jobs, s.runs, s.txs[t]);
      assert step.job !in Locks(s.txs[t]);
      if s.txs[t].Holding? {
        assert forall i | 0 <= i < |s.txs[t].due| :: s.txs[t].due[i].job in Locks(s.txs[t]);
      }
    }
  }

  // Adding rows takes their occurrences, and no others.
  lemma TakenMore(runs: map<RunId, RunRow>, more: map<RunId, RunRow>)
    requires runs.Keys !! more.Keys
    ensures forall o :: Taken(runs + more, o) <==> Taken(runs, o) || Taken(more, o)
  {
    forall o ensures Taken(runs + more, o) <==> Taken(runs, o) || Taken(more, o) {
      if Taken(runs, o) {
        var id :| id in runs && Occurrence(runs[id]) == o;
        assert Occurrence((runs + more)[id]) == o;
      }
      if Taken(more, o) {
        var id :| id in more && Occurrence(more[id]) == o;
        assert Occurrence((runs + more)[id]) == o;
      }
    }
  }

  lemma TakenOne(id: RunId, row: RunRow)
    ensures forall o :: Taken(map[id := row], o) <==> o == Occurrence(row)
  {
    assert Occurrence(map[id := row][id]) == Occurrence(row);
  }

  lemma InsertsKept(runs: map<RunId, RunRow>, more: map<RunId, RunRow>, t: Tx)
    requires Inserts(runs, t) && runs.Keys !! more.Keys && more.Keys !! Pending(t).Keys
    requires forall id | id in Pending(t) :: !Taken(more, Occurrence(Pending(t)[id]))
    ensures Inserts(runs + more, t)
  {
    TakenMore(runs, more);
    hide Taken;
  }

  lemma ManualRunKept(s: System, step: Step)
    requires Inv(s) && Enabled(s, step) && step.ManualRun?
    ensures Inv(Next(s, step))
  {
    hide Holds, Inserts;
    var s' := Next(s, step);
    var row := RunRow(step.job, step.scheduledTime, Manual);
    TakenMore(s.runs, map[step.id := row]);
    TakenOne(step.id, row);
    assert s'.runs == s.runs + map[step.id := row];
    forall t | t in s'.txs ensures Sound(s'.jobs, s'.runs, s'.txs[t]) {
      assert Sound(s.jobs, s.runs, s.txs[t]);
      assert forall id | id in Pending(s.txs[t]) :: Taken(Pending(s.txs[t]), Occurrence(Pending(s.txs[t])[id]));
      InsertsKept(s.runs, map[step.id := row], s.txs[t]);
    }
  }

  lemma LockSound(s: System, step: Step)
    requires Inv(s) && Enabled(s, step) && step.Lock?
    ensures Sound(s.jobs, s.runs, Holding(s.txs[step.tx].start, step.due, 0, map[], map[]))
    ensures JobsOf(step.due) !! step.busy
  {
    var cands := DueTimes(s.jobs, s.txs[step.tx].start);
    assert forall i | 0 <= i < |step.due| :: step.due[i].job in JobsOf(step.due);
    assert forall j | j in JobsOf(step.due) :: j in cands && j !in step.busy;
  }

  lemma ApartAfterLock(txs: map<TxId, Tx>, tx: TxId, start: Time, due: seq<Due>, busy: set<JobId>)
    requires Apart(txs) && tx in txs && JobsOf(due) !! busy && forall j | Locked(txs, j) :: j in busy
    ensures Apart(txs[tx := Holding(start, due, 0, map[], map[])])
  {
    forall t | t in txs ensures Locks(txs[t]) !! JobsOf(due) {
      assert forall j | j in Locks(txs[t]) :: Locked(txs, j);
    }
    hide JobsOf;
  }

  lemma LockKept(s: System, step: Step)
    requires Inv(s) && Enabled(s, step) && step.Lock?
    ensures Inv(Next(s, step))
  {
    LockSound(s, step);
    ApartAfterLock(s.txs, step.tx, s.txs[step.tx].start, step.due, step.busy);
    hide Holds, Inserts, Selects, Unique, Quiet, Apart, Taken, JobsOf, Locked;
    var s' := Next(s, step);
    forall t | t in s'.txs ensures Sound(s'.jobs, s'.runs, s'.txs[t]) {
      if t != step.tx {
        assert Sound(s.jobs, s.runs, s.txs[t]);
      }
    }
  }

  lemma NewOccurrence(runs: map<RunId, RunRow>, t: Tx)
    requires Inserts(runs, t) && t.Holding? && t.done < |t.due|
    requires forall i, j | 0 <= i < j < |t.due| :: t.due[i].job != t.due[j].job
    ensures !Taken(t.inserted, t.due[t.done])
  {
    forall x | x in t.inserted ensures Occurrence(t.inserted[x]) != t.due[t.done] {
      var k :| 0 <= k < t.done && t.due[..t.done][k] == Occurrence(t.inserted[x]);
      assert t.due[k].job != t.due[t.done].job;
    }
  }

  lemma UniqueOneMore(rows: map<RunId, RunRow>, id: RunId, row: RunRow)
    requires Unique(rows) && id !in rows && !Taken(rows, Occurrence(row))
    ensures Unique(rows[id := row])
  {
  }

  lemma FireNew(runs: map<RunId, RunRow>, t: Tx, id: RunId, next: Option<Time>)
    requires Inserts(runs, t) && t.Holding? && t.done < |t.due| && id !in runs && id !in t.inserted
    requires !Taken(runs, t.due[t.done]) && !Taken(t.inserted, t.due[t.done])
    ensures Inserts(runs, Fired(t, runs, id, next))
  {
    hide Taken, Unique;
    var u := Fired(t, runs, id, next);
    var o := t.due[t.done];
    var row := RunRow(o.job, o.at, Schedule);
    UniqueOneMore(t.inserted, id, row);
    assert u.inserted == t.inserted + map[id := row];
    TakenMore(t.inserted, map[id := row]);
    TakenOne(id, row);
    assert u.due[..u.done] == t.due[..t.done] + [o];
  }

  lemma FireInserts(runs: map<RunId, RunRow>, t: Tx, id: RunId, next: Option<Time>)
    requires Inserts(runs, t) && t.Holding? && t.done < |t.due| && id !in runs && id !in t.inserted
    requires forall i, j | 0 <= i < j < |t.due| :: t.due[i].job != t.due[j].job
    ensures Inserts(runs, Fired(t, runs, id, next))
  {
    hide Taken, Unique;
    NewOccurrence(runs, t);
    if Taken(runs, t.due[t.done]) {
      assert t.due[..t.done + 1] == t.due[..t.done] + [t.due[t.done]];
    } else {
      FireNew(runs, t, id, next);
    }
  }

  lemma FireKept(s: System, step: Step)
    requires Inv(s) && Enabled(s, step) && step.Fire?
    ensures Inv(Next(s, step))
  {
    hide Inserts, Taken;
    var s' := Next(s, step);
    var t := s.txs[step.tx];
    assert step.id !in Pending(t);
    assert Sound(s.jobs, s.runs, t);
    FireInserts(s.runs, t, step.id, step.next);
    assert t.due[t.done].job in Locks(t);
    forall x | x in s'.txs ensures Sound(s'.jobs, s'.runs, s'.txs[x]) {
      if x != step.tx {
        assert Sound(s.jobs, s.runs, s.txs[x]);
      }
    }
  }

  lemma InsertedAreLocked(runs: map<RunId, RunRow>, t: Tx)
    requires Inserts(runs, t) && t.Holding?
    ensures forall id | id in t.inserted :: t.inserted[id].job in Locks(t) && t.inserted[id].trigger.Schedule?
    ensures forall o | Taken(t.inserted, o) :: o.job in Locks(t)
  {
    forall id | id in t.inserted ensures t.inserted[id].job in Locks(t) {
      var k :| 0 <= k < t.done && t.due[..t.done][k] == Occurrence(t.inserted[id]);
      assert t.due[k].job in Locks(t);
    }
  }

  // What another transaction relies on survives a commit.
  lemma CommitSound(s: System, t: Tx, u: Tx)
    requires Sound(s.jobs, s.runs, t) && Sound(s.jobs, s.runs, u) && t.Holding?
    requires Locks(t) !! Locks(u) && Pending(t).Keys !! Pending(u).Keys
    ensures Sound(Advanced(s.jobs, t.advanced), s.runs + t.inserted, u)
  {
    if u.Holding? {
      InsertedAreLocked(s.runs, t);
      InsertedAreLocked(s.runs, u);
      InsertsKept(s.runs, t.inserted, u);
      hide Inserts;
      assert forall i | 0 <= i < |u.due| :: u.due[i].job in Locks(u);
    }
  }

  lemma CommitRows(s: System, t: Tx)
    requires Inv(s) && Sound(s.jobs, s.runs, t) && t.Holding? && t.done == |t.due|
    ensures Unique(s.runs + t.inserted)
    ensures forall i | 0 <= i < |t.due| :: Taken(s.runs + t.inserted, t.due[i])
    ensures forall o | Taken(s.runs, o) :: Taken(s.runs + t.inserted, o)
    ensures t.inserted.Keys !! s.runs.Keys && t.inserted.Keys !! s.returned && t.inserted.Keys !! s.unreported
    ensures forall id | id in t.inserted :: t.inserted[id].trigger.Schedule?
  {
    TakenMore(s.runs, t.inserted);
    assert forall a | a in s.runs :: Taken(s.runs, Occurrence(s.runs[a]));
  }

  lemma CommitJobs(s: System, t: Tx)
    requires Quiet(s.jobs) && Holds(s.jobs, t) && t.Holding?
    ensures Quiet(Advanced(s.jobs, t.advanced))
  {
  }

  lemma CommitKept(s: System, step: Step)
    requires Inv(s) && Enabled(s, step) && step.Commit?
    ensures Inv(Next(s, step))
  {
    hide Holds, Inserts, Taken, Unique, Quiet, Locks;
    var s' := Next(s, step);
    var t := s.txs[step.tx];
    assert Sound(s.jobs, s.runs, t);
    CommitRows(s, t);
    CommitJobs(s, t);
    assert s'.jobs == Advanced(s.jobs, t.advanced) && s'.runs == s.runs + t.inserted;
    forall u | u in s'.txs ensures Sound(s'.jobs, s'.runs, s'.txs[u]) {
      assert Sound(s.jobs, s.runs, s.txs[u]);
      CommitSound(s, t, s.txs[u]);
    }
  }

  lemma BeginSound(jobs: map<JobId, JobRow>, runs: map<RunId, RunRow>, now: Time)
    ensures Sound(jobs, runs, Begun(now))
  {
  }

  lemma OtherKept(s: System, step: Step)
    requires Inv(s) && Enabled(s, step) && (step.CreateJob? || step.Begin? || step.Abort? || step.Tick?)
    ensures Inv(Next(s, step))
  {
    hide Taken, Unique, Inserts;
    BeginSound(s.jobs, s.runs, s.now);
    var s' := Next(s, step);
    forall t | t in s'.txs ensures Sound(s'.jobs, s'.runs, s'.txs[t]) {
      if t in s.txs && !(step.Begin? && t == step.tx) {
        assert Sound(s.jobs, s.runs, s.txs[t]);
      }
    }
  }

  lemma InvKept(s: System, step: Step)
    requires Inv(s) && Enabled(s, step)
    ensures Inv(Next(s, step))
  {
    hide Inv, Enabled, Next;
    match step
    case SetEnabled(_, _, _) => SetEnabledKept(s, step);
    case ManualRun(_, _, _) => ManualRunKept(s, step);
    case Lock(_, _, _, _) => LockKept(s, step);
    case Fire(_, _, _) => FireKept(s, step);
    case Commit(_, _) => CommitKept(s, step);
    case _ => OtherKept(s, step);
  }

  // ---- Whole runs ----

  ghost predicate Legal(s: System, steps: seq<Step>)
    decreases |steps|
  {
    steps == [] || (Enabled(s, steps[0]) && Legal(Next(s, steps[0]), steps[1..]))
  }

  ghost function Play(s: System, steps: seq<Step>): System
    requires Legal(s, steps)
    decreases |steps|
  {
    if steps == [] then s else Play(Next(s, steps[0]), steps[1..])
  }

  lemma {:induction false} InvThrough(s: System, steps: seq<Step>)
    requires Inv(s) && Legal(s, steps)
    ensures Inv(Play(s, steps))
    decreases |steps|
  {
    hide Inv, Enabled, Next;
    if steps != [] {
      InvKept(s, steps[0]);
      InvThrough(Next(s, steps[0]), steps[1..]);
    }
  }

  // However many schedulers interleave, and whatever times `next` answers: an
  // occurrence a committed transaction advanced past has one run row, and no
  // occurrence has two; no job is held twice; a paused job has no next run; and a
  // scheduled run was returned for dispatch, unless its commit ended in an error.
  lemma EachOccurrenceFiresOnce(s0: System, steps: seq<Step>)
    requires Initial(s0) && Legal(s0, steps)
    ensures var s := Play(s0, steps);
            && (forall o | o in s.passed :: exists id :: id in s.runs && Occurrence(s.runs[id]) == o)
            && (forall a, b | a in s.runs && b in s.runs && Occurrence(s.runs[a]) == Occurrence(s.runs[b]) :: a == b)
            && (forall a, b | a in s.txs && b in s.txs && a != b :: Locks(s.txs[a]) !! Locks(s.txs[b]))
            && (forall j | j in s.jobs && !s.jobs[j].enabled :: s.jobs[j].nextRunAt.None?)
            && (forall id | id in s.runs && s.runs[id].trigger.Schedule? :: id in s.returned || id in s.unreported)
            && s.returned !! s.unreported
  {
    InvThrough(s0, steps);
  }

  // ---- Never early ----

  ghost predicate TxOnTime(t: Tx, now: Time) {
    && t.start <= now
    && (t.Holding? ==>
          && (forall i | 0 <= i < |t.due| :: t.due[i].at <= t.start)
          && forall id | id in t.inserted :: t.inserted[id].scheduledTime <= t.start)
  }

  ghost predicate OnTime(s: System) {
    && (forall t | t in s.txs :: TxOnTime(s.txs[t], s.now))
    && (forall o | o in s.passed :: o.at <= s.now)
    && forall id | id in s.runs && s.runs[id].trigger.Schedule? :: s.runs[id].scheduledTime <= s.now
  }

  lemma SelectedAreDue(jobs: map<JobId, JobRow>, start: Time, busy: set<JobId>, batch: nat, due: seq<Due>)
    requires Selects(jobs, start, busy, batch, due)
    ensures forall i | 0 <= i < |due| :: due[i].at <= start
  {
    forall i | 0 <= i < |due| ensures due[i].at <= start {
      assert due[i].job in JobsOf(due);
      assert due[i].job in DueTimes(jobs, start);
    }
  }

  lemma OnTimeKept(s: System, step: Step)
    requires OnTime(s) && Enabled(s, step)
    ensures OnTime(Next(s, step))
  {
    hide Taken, Selects, Locked;
    var s' := Next(s, step);
    if step.Lock? {
      LockedAreDue(s, step);
    }
    forall t | t in s'.txs ensures TxOnTime(s'.txs[t], s'.now) {
      assert t in s.txs ==> TxOnTime(s.txs[t], s.now);
    }
    if step.Commit? {
      assert TxOnTime(s.txs[step.tx], s.now);
    }
  }

  lemma LockedAreDue(s: System, step: Step)
    requires Enabled(s, step) && step.Lock?
    ensures step.tx in s.txs && forall i | 0 <= i < |step.due| :: step.due[i].at <= s.txs[step.tx].start
  {
    SelectedAreDue(s.jobs, s.txs[step.tx].start, step.busy, step.batch, step.due);
  }

  lemma {:induction false} OnTimeThrough(s: System, steps: seq<Step>)
    requires OnTime(s) && Legal(s, steps)
    ensures OnTime(Play(s, steps))
    decreases |steps|
  {
    hide OnTime, Enabled, Next;
    if steps != [] {
      OnTimeKept(s, steps[0]);
      OnTimeThrough(Next(s, steps[0]), steps[1..]);
    }
  }

  // No occurrence is fired, or passed over, before its time.
  lemma NeverEarly(s0: System, steps: seq<Step>)
    requires Initial(s0) && Legal(s0, steps)
    ensures var s := Play(s0, steps);
            && (forall o | o in s.passed :: o.at <= s.now)
            && forall id | id in s.runs && s.runs[id].trigger.Schedule? :: s.runs[id].scheduledTime <= s.now
  {
    OnTimeThrough(s0, steps);
  }

  // A commit returns each run for dispatch for the first time.
  lemma CommitReturnsNewRuns(s0: System, steps: seq<Step>, tx: TxId, replyLost: bool)
    requires Initial(s0) && Legal(s0, steps) && Enabled(Play(s0, steps), Commit(tx, replyLost))
    ensures var s := Play(s0, steps); Pending(s.txs[tx]).Keys !! s.returned && Pending(s.txs[tx]).Keys !! s.unreported
  {
    hide Legal, Play;
    InvThrough(s0, steps);
    CommitRows(Play(s0, steps), Play(s0, steps).txs[tx]);
  }

  lemma {:induction false} NoneUnreported(s: System, steps: seq<Step>)
    requires Legal(s, steps) && s.unreported == {}
    requires forall i | 0 <= i < |steps| :: steps[i].Commit? ==> !steps[i].replyLost
    ensures Play(s, steps).unreported == {}
    decreases |steps|
  {
    if steps != [] {
      NextUnreported(s, steps[0]);
      hide Enabled, Next;
      NoneUnreported(Next(s, steps[0]), steps[1..]);
    }
  }

  lemma NextUnreported(s: System, step: Step)
    requires Enabled(s, step) && (step.Commit? ==> !step.replyLost)
    ensures Next(s, step).unreported == s.unreported
  {
  }

  // If every commit that takes effect is known to have, every scheduled run is
  // returned for dispatch.
  lemma RepliesReturnEveryRun(s0: System, steps: seq<Step>)
    requires Initial(s0) && Legal(s0, steps)
    requires forall i | 0 <= i < |steps| :: steps[i].Commit? ==> !steps[i].replyLost
    ensures var s := Play(s0, steps); forall id | id in s.runs && s.runs[id].trigger.Schedule? :: id in s.returned
  {
    hide Legal, Play;
    NoneUnreported(s0, steps);
    InvThrough(s0, steps);
  }
}
