// The protocol and the log table together: which log lines a run's claimants can
// write and when, and what that means for the streams that follow the run.
module Following {
  import opened Basics
  import opened Rows
  import opened History
  import opened Protocol
  import opened Safety
  import opened LogPages
  import opened Stream
  import opened StreamProofs
  import opened Completeness

  datatype LogSystem = LogSystem(sys: System, logs: map<LogKey, LogLine>)

  // AppendLogs has no fence: whoever claimed an attempt may write its log, at any
  // time after.
  datatype LogStep =
    | Do(step: Step)
    | Append(t: Ticket, lines: seq<LogLine>)

  ghost predicate CanStep(c: Config, x: LogSystem, step: LogStep) {
    match step
    case Do(s) => Enabled(c, x.sys, s)
    case Append(t, lines) => t in x.sys.tickets && forall l | l in lines :: l.attempt == t.attempt && l.seqNo >= 1
  }

  function Stepped(x: LogSystem, step: LogStep): LogSystem
    requires WellFormed(x.sys)
  {
    match step
    case Do(s) => x.(sys := Next(x.sys, s))
    case Append(t, lines) => x.(logs := Appended(x.logs, t.run, t.attempt, lines))
  }

  ghost predicate LegalLog(c: Config, x: LogSystem, steps: seq<LogStep>)
    decreases |steps|
  {
    WellFormed(x.sys) && (steps == [] || (CanStep(c, x, steps[0]) && LegalLog(c, Stepped(x, steps[0]), steps[1..])))
  }

  ghost function PlayLog(c: Config, x: LogSystem, steps: seq<LogStep>): LogSystem
    requires LegalLog(c, x, steps)
    decreases |steps|
  {
    if steps == [] then x else PlayLog(c, Stepped(x, steps[0]), steps[1..])
  }

  ghost predicate Untouched(x: LogSystem) {
    Initial(x.sys) && x.logs == map[]
  }

  // ---- Only claimed attempts have lines ----

  ghost predicate ClaimedLine(x: LogSystem, k: LogKey)
    requires k in x.logs
  {
    && k.run in x.sys.hist && 1 <= k.attempt <= |Tenures(x.sys.hist[k.run].entries)|
    && k.seqNo >= 1 && x.logs[k].attempt == k.attempt && x.logs[k].seqNo == k.seqNo
  }

  ghost predicate LogInv(c: Config, x: LogSystem) {
    Inv(c, x.sys) && forall k | k in x.logs :: ClaimedLine(x, k)
  }

  lemma TenuresStay(c: Config, s: System, step: Step, id: RunId)
    requires WellFormed(s) && Enabled(c, s, step) && id in s.hist
    ensures id in Next(s, step).hist && |Tenures(s.hist[id].entries)| <= |Tenures(Next(s, step).hist[id].entries)|
  {
    hide Enabled, Next, Touched, After, EntryOf, Tenures;
    StepOnRow(c, s, step, id);
    if id in Touched(s, step) {
      TenuresMore(s.hist[id].entries, EntryOf(s, id, Issuer(step), Touched(s, step)[id]));
    }
  }

  lemma LogInvKept(c: Config, x: LogSystem, step: LogStep)
    requires c.Valid() && LogInv(c, x) && CanStep(c, x, step)
    ensures LogInv(c, Stepped(x, step))
  {
    hide Inv, Enabled, Next, Tenures, Appended;
    InvBacks(c, x.sys);
    match step {
      case Do(s) =>
        InvKept(c, x.sys, s);
        forall k | k in x.logs ensures ClaimedLine(Stepped(x, step), k) {
          TenuresStay(c, x.sys, s, k.run);
        }
      case Append(t, lines) =>
        AppendedIs(x.logs, t.run, t.attempt, lines);
    }
  }

  lemma InvBacks(c: Config, s: System)
    requires Inv(c, s)
    ensures WellFormed(s) && forall t | t in s.tickets :: Backed(t, s.hist)
  {
  }

  lemma {:induction false} LogInvThrough(c: Config, x: LogSystem, steps: seq<LogStep>)
    requires c.Valid() && LogInv(c, x) && LegalLog(c, x, steps)
    ensures LogInv(c, PlayLog(c, x, steps))
    decreases |steps|
  {
    hide LogInv, CanStep, Stepped;
    if steps != [] {
      LogInvKept(c, x, steps[0]);
      LogInvThrough(c, Stepped(x, steps[0]), steps[1..]);
    }
  }

  lemma StartsClean(c: Config, x: LogSystem)
    requires Untouched(x)
    ensures LogInv(c, x)
  {
  }

  lemma ClaimsOf(c: Config, s: System, id: RunId)
    requires Inv(c, s) && id in s.runs
    ensures WellFormed(s) && |Tenures(s.hist[id].entries)| == Started(s.runs[id])
    ensures s.runs[id].attempt >= 1 && (s.runs[id].status.Queued? ==> s.runs[id].workerId.None?)
    ensures s.runs[id].status.Running? ==> s.runs[id].workerId.Some?
    ensures !s.runs[id].status.Cancelled?
  {
    assert FaithfulAt(c, s, id);
    KnownAt(c, s, id);
  }

  // A claim finds no line of the attempt it starts: the claimant's logger begins
  // with a log nobody has written.
  lemma NewClaimHasNoLines(c: Config, x: LogSystem, p: Process, id: RunId, t: Ticket)
    requires LogInv(c, x) && CanStep(c, x, Do(Claim(p, id, false)))
    requires t in Stepped(x, Do(Claim(p, id, false))).sys.tickets && t !in x.sys.tickets
    ensures forall k | k in x.logs :: k.run != t.run || k.attempt != t.attempt
  {
    hide Inv, Tenures;
    assert t in Earned(x.sys, p, id, false);
    ClaimsOf(c, x.sys, id);
  }

  // ---- What a stream sees of it ----

  function LinesOfRun(logs: map<LogKey, LogLine>, id: RunId): map<LineKey, string> {
    map k | k in logs && k.run == id :: LineKey(k.attempt, k.seqNo) := logs[k].line
  }

  function WorldOf(x: LogSystem, id: RunId): World
    requires id in x.sys.runs
  {
    World(x.sys.runs[id].attempt, x.sys.runs[id].status, LinesOfRun(x.logs, id))
  }

  lemma LinesAre(logs: map<LogKey, LogLine>, id: RunId)
    ensures forall a, q :: LineKey(a, q) in LinesOfRun(logs, id) <==> LogKey(id, a, q) in logs
    ensures forall a, q | LogKey(id, a, q) in logs :: LinesOfRun(logs, id)[LineKey(a, q)] == logs[LogKey(id, a, q)].line
  {
    forall a, q | LogKey(id, a, q) in logs
      ensures LineKey(a, q) in LinesOfRun(logs, id) && LinesOfRun(logs, id)[LineKey(a, q)] == logs[LogKey(id, a, q)].line
    {
      var k := LogKey(id, a, q);
      assert k in logs && k.run == id && LineKey(k.attempt, k.seqNo) == LineKey(a, q);
    }
  }

  lemma LinesOfWorld(x: LogSystem, id: RunId)
    requires id in x.sys.runs
    ensures forall a, q :: LineKey(a, q) in WorldOf(x, id).lines <==> LogKey(id, a, q) in x.logs
    ensures forall a, q | LogKey(id, a, q) in x.logs :: WorldOf(x, id).lines[LineKey(a, q)] == x.logs[LogKey(id, a, q)].line
  {
    LinesAre(x.logs, id);
  }

  // The states of one run and its log, from its creation on.
  ghost function Worlds(c: Config, x: LogSystem, steps: seq<LogStep>, id: RunId): seq<World>
    requires LegalLog(c, x, steps)
    decreases |steps|
  {
    (if id in x.sys.runs then [WorldOf(x, id)] else [])
    + if steps == [] then [] else Worlds(c, Stepped(x, steps[0]), steps[1..], id)
  }

  // b may follow a: lines stay, attempts advance, and a final row stays.
  ghost predicate Follows(a: World, b: World) {
    Extends(a, b) && a.attempt <= b.attempt && (IsFinal(a.status) ==> IsFinal(b.status) && b.attempt == a.attempt)
  }

  ghost predicate Sane(a: World) {
    forall k | k in a.lines :: k.seqNo >= 1 && 1 <= k.attempt <= a.attempt
  }

  lemma WorldIsSane(c: Config, x: LogSystem, id: RunId)
    requires LogInv(c, x) && id in x.sys.runs
    ensures Sane(WorldOf(x, id))
  {
    hide Inv, Tenures;
    ClaimsOf(c, x.sys, id);
    LinesOfWorld(x, id);
    forall k | k in WorldOf(x, id).lines ensures k.seqNo >= 1 && 1 <= k.attempt <= WorldOf(x, id).attempt {
      assert k == LineKey(k.attempt, k.seqNo);
      assert ClaimedLine(x, LogKey(id, k.attempt, k.seqNo));
    }
  }

  lemma StepFollows(c: Config, x: LogSystem, step: LogStep, id: RunId)
    requires LogInv(c, x) && CanStep(c, x, step) && id in x.sys.runs
    ensures id in Stepped(x, step).sys.runs && Follows(WorldOf(x, id), WorldOf(Stepped(x, step), id))
  {
    hide Inv, Tenures, Appended, Enabled, Next, Touched, ClaimedLine;
    InvBacks(c, x.sys);
    WorldIsSane(c, x, id);
    LinesOfWorld(x, id);
    match step {
      case Do(s) =>
        StepOnRow(c, x.sys, s, id);
        LinesOfWorld(Stepped(x, step), id);
      case Append(t, lines) =>
        AppendedIs(x.logs, t.run, t.attempt, lines);
        LinesOfWorld(Stepped(x, step), id);
    }
  }

  lemma WorldsUnfold(c: Config, x: LogSystem, steps: seq<LogStep>, id: RunId)
    requires LegalLog(c, x, steps) && steps != []
    ensures WellFormed(x.sys) && CanStep(c, x, steps[0]) && LegalLog(c, Stepped(x, steps[0]), steps[1..])
    ensures PlayLog(c, x, steps) == PlayLog(c, Stepped(x, steps[0]), steps[1..])
    ensures Worlds(c, x, steps, id)
         == (if id in x.sys.runs then [WorldOf(x, id)] else []) + Worlds(c, Stepped(x, steps[0]), steps[1..], id)
  {
    hide CanStep, Stepped, WorldOf, WellFormed;
  }

  lemma WorldsEnd(c: Config, x: LogSystem, steps: seq<LogStep>, id: RunId)
    requires LegalLog(c, x, steps) && steps == []
    ensures PlayLog(c, x, steps) == x
    ensures Worlds(c, x, steps, id) == if id in x.sys.runs then [WorldOf(x, id)] else []
  {
    hide CanStep, Stepped, WorldOf, WellFormed;
  }

  // Each world is sane, and follows the one before.
  ghost predicate Lived(w: seq<World>) {
    && (forall i | 0 <= i < |w| :: Sane(w[i]))
    && forall i | 0 <= i < |w| - 1 :: Follows(w[i], w[i + 1])
  }

  lemma ConsLived(a: World, rest: seq<World>)
    requires Sane(a) && Lived(rest) && (rest != [] ==> Follows(a, rest[0]))
    ensures Lived([a] + rest)
  {
    hide Sane, Follows;
    var w := [a] + rest;
    forall i | 0 <= i < |w| - 1 ensures Follows(w[i], w[i + 1]) {
      if i > 0 {
        assert Follows(rest[i - 1], rest[i - 1 + 1]);
      }
    }
  }

  // The first world is the run's as it is, the last as it comes to be.
  lemma {:induction false} WorldsFollow(c: Config, x: LogSystem, steps: seq<LogStep>, id: RunId)
    requires c.Valid() && LogInv(c, x) && LegalLog(c, x, steps)
    ensures var w := Worlds(c, x, steps, id);
            && (id in x.sys.runs ==> w != [] && w[0] == WorldOf(x, id))
            && Lived(w)
            && var y := PlayLog(c, x, steps); id in y.sys.runs ==> w != [] && w[|w| - 1] == WorldOf(y, id)
    decreases |steps|
  {
    hide LogInv, CanStep, Stepped, Follows, Sane, WorldOf, LegalLog, PlayLog, Worlds, WellFormed;
    if id in x.sys.runs {
      WorldIsSane(c, x, id);
    }
    if steps == [] {
      WorldsEnd(c, x, steps, id);
    } else {
      WorldsUnfold(c, x, steps, id);
      var x1 := Stepped(x, steps[0]);
      LogInvKept(c, x, steps[0]);
      WorldsFollow(c, x1, steps[1..], id);
      hide Lived;
      var rest := Worlds(c, x1, steps[1..], id);
      if id in x.sys.runs {
        StepFollows(c, x, steps[0], id);
        ConsLived(WorldOf(x, id), rest);
      } else {
        assert Worlds(c, x, steps, id) == rest;
      }
    }
  }

  lemma FollowsOn(a: World, b: World, c: World)
    requires Follows(a, b) && Follows(b, c)
    ensures Follows(a, c)
  {
  }

  lemma SaneFollows(a: World)
    requires Sane(a)
    ensures Follows(a, a)
  {
  }

  lemma {:induction false} FollowsAll(w: seq<World>, i: nat, j: nat)
    requires Lived(w) && i <= j < |w|
    ensures Follows(w[i], w[j])
    decreases j - i
  {
    hide Sane, Follows;
    if i < j {
      FollowsAll(w, i, j - 1);
      assert Follows(w[j - 1], w[j - 1 + 1]);
      FollowsOn(w[i], w[j - 1], w[j]);
    } else {
      SaneFollows(w[i]);
    }
  }

  // The life of a run that has ended.
  lemma WorldsAreLife(w: seq<World>)
    requires w != [] && IsFinal(w[|w| - 1].status)
    requires Lived(w)
    ensures Life(w)
  {
    forall i, j | 0 <= i <= j < |w| ensures Follows(w[i], w[j]) {
      FollowsAll(w, i, j);
    }
  }

  // ---- Writes in time ----

  // A batch that adds lines is in time: its claimant still owns the attempt, and
  // its new lines come after all there are.
  ghost predicate TimelyStep(x: LogSystem, step: LogStep, id: RunId) {
    step.Append? && step.t.run == id ==>
      forall l | l in step.lines && LogKey(id, step.t.attempt, l.seqNo) !in x.logs ::
        && id in x.sys.runs && Owns(x.sys.runs[id], step.t.owner.name, step.t.attempt)
        && forall k | k in x.logs && k.run == id && k.attempt == step.t.attempt :: k.seqNo < l.seqNo
  }

  ghost predicate AllTimely(c: Config, x: LogSystem, steps: seq<LogStep>, id: RunId)
    requires LegalLog(c, x, steps)
    decreases |steps|
  {
    steps == [] || (TimelyStep(x, steps[0], id) && AllTimely(c, Stepped(x, steps[0]), steps[1..], id))
  }

  ghost predicate Timely(a: World, b: World) {
    AddsInOrder(a, b) && AddsNoneLate(a, b)
  }

  // A claimant owns its attempt exactly while the run is not past it.
  lemma OwnsIsNotOver(c: Config, x: LogSystem, t: Ticket)
    requires LogInv(c, x) && t in x.sys.tickets
    ensures t.run in x.sys.runs
    ensures Owns(x.sys.runs[t.run], t.owner.name, t.attempt) <==> !IsOver(WorldOf(x, t.run), t.attempt)
  {
    hide Inv, Tenures, FaithfulAt;
    InvBacks(c, x.sys);
    ClaimsOf(c, x.sys, t.run);
    AttemptAloneFences(c, x.sys, t);
  }

  lemma AppendIsTimely(x: LogSystem, t: Ticket, lines: seq<LogLine>, a: World, b: World)
    requires t.run in x.sys.runs
    requires Owns(x.sys.runs[t.run], t.owner.name, t.attempt) <==> !IsOver(a, t.attempt)
    requires forall n, q :: LineKey(n, q) in a.lines <==> LogKey(t.run, n, q) in x.logs
    requires forall n, q :: LineKey(n, q) in b.lines <==> LogKey(t.run, n, q) in Appended(x.logs, t.run, t.attempt, lines)
    ensures Timely(a, b) <==> TimelyStep(x, Append(t, lines), t.run)
  {
    hide Appended, Owns, IsOver;
    AppendedIs(x.logs, t.run, t.attempt, lines);
    if Timely(a, b) {
      forall l | l in lines && LogKey(t.run, t.attempt, l.seqNo) !in x.logs
        ensures Owns(x.sys.runs[t.run], t.owner.name, t.attempt)
        ensures forall k | k in x.logs && k.run == t.run && k.attempt == t.attempt :: k.seqNo < l.seqNo
      {
        var key := LineKey(t.attempt, l.seqNo);
        assert key in b.lines && key !in a.lines;
        forall k | k in x.logs && k.run == t.run && k.attempt == t.attempt ensures k.seqNo < l.seqNo {
          assert k == LogKey(t.run, t.attempt, k.seqNo);
          assert LineKey(t.attempt, k.seqNo) in a.lines;
        }
      }
    }
    if TimelyStep(x, Append(t, lines), t.run) {
      forall k | k in b.lines && k !in a.lines
        ensures !IsOver(a, k.attempt)
        ensures forall prev | prev in a.lines && prev.attempt == k.attempt :: prev.seqNo < k.seqNo
      {
        assert k == LineKey(k.attempt, k.seqNo);
        var key := LogKey(t.run, k.attempt, k.seqNo);
        var l := Appended(x.logs, t.run, t.attempt, lines)[key];
        assert l in lines && LogKey(t.run, t.attempt, l.seqNo) !in x.logs;
        forall prev | prev in a.lines && prev.attempt == k.attempt ensures prev.seqNo < k.seqNo {
          assert prev == LineKey(t.attempt, prev.seqNo);
          assert LogKey(t.run, t.attempt, prev.seqNo) in x.logs;
        }
      }
    }
  }

  lemma NothingAdded(x: LogSystem, step: LogStep, id: RunId)
    requires WellFormed(x.sys) && id in x.sys.runs && id in Stepped(x, step).sys.runs
    requires step.Append? ==> step.t.run != id
    ensures forall n, q :: LogKey(id, n, q) in Stepped(x, step).logs <==> LogKey(id, n, q) in x.logs
  {
    hide Appended;
    if step.Append? {
      AppendedIs(x.logs, step.t.run, step.t.attempt, step.lines);
    }
  }

  lemma SameLinesAreTimely(a: World, b: World)
    requires forall n, q :: LineKey(n, q) in b.lines <==> LineKey(n, q) in a.lines
    ensures Timely(a, b)
  {
    forall k | k in b.lines ensures k in a.lines {
      assert k == LineKey(k.attempt, k.seqNo);
    }
  }

  lemma TimelyIs(c: Config, x: LogSystem, step: LogStep, id: RunId)
    requires LogInv(c, x) && CanStep(c, x, step) && id in x.sys.runs && id in Stepped(x, step).sys.runs
    ensures Timely(WorldOf(x, id), WorldOf(Stepped(x, step), id)) <==> TimelyStep(x, step, id)
  {
    hide Inv, Tenures, Appended, Enabled, Next, ClaimedLine, WorldOf, Timely;
    InvBacks(c, x.sys);
    LinesOfWorld(x, id);
    LinesOfWorld(Stepped(x, step), id);
    var a, b := WorldOf(x, id), WorldOf(Stepped(x, step), id);
    if step.Append? && step.t.run == id {
      OwnsIsNotOver(c, x, step.t);
      AppendIsTimely(x, step.t, step.lines, a, b);
    } else {
      NothingAdded(x, step, id);
      SameLinesAreTimely(a, b);
    }
  }

  lemma TimelyToItself(a: World)
    ensures Timely(a, a)
  {
  }

  lemma TimelyThrough(a: World, b: World, c: World)
    requires Sane(a) && Follows(a, b) && Follows(b, c) && Timely(a, b) && Timely(b, c)
    ensures Timely(a, c)
  {
  }

  lemma {:induction false} TimelyAll(w: seq<World>, i: nat, j: nat)
    requires Lived(w) && forall i | 0 <= i < |w| - 1 :: Timely(w[i], w[i + 1])
    requires i <= j < |w|
    ensures Timely(w[i], w[j])
    decreases j - i
  {
    hide Sane, Follows, Timely;
    if i == j {
      TimelyToItself(w[i]);
    } else {
      TimelyAll(w, i, j - 1);
      FollowsAll(w, i, j - 1);
      assert Follows(w[j - 1], w[j - 1 + 1]);
      TimelyThrough(w[i], w[j - 1], w[j]);
    }
  }

  lemma {:induction false} LogsOn(c: Config, x: LogSystem, xs: seq<LogStep>, ys: seq<LogStep>, id: RunId)
    requires LegalLog(c, x, xs) && LegalLog(c, PlayLog(c, x, xs), ys)
    ensures LegalLog(c, x, xs + ys) && PlayLog(c, x, xs + ys) == PlayLog(c, PlayLog(c, x, xs), ys)
    ensures AllTimely(c, x, xs + ys, id) ==> AllTimely(c, PlayLog(c, x, xs), ys, id)
    decreases |xs|
  {
    hide CanStep, Stepped, WellFormed, TimelyStep;
    if xs == [] {
      assert xs + ys == ys;
    } else {
      assert (xs + ys)[1..] == xs[1..] + ys;
      LogsOn(c, Stepped(x, xs[0]), xs[1..], ys, id);
    }
  }

  lemma NoneClaimedYet(c: Config, x: LogSystem, step: LogStep, id: RunId)
    requires LogInv(c, x) && CanStep(c, x, step) && id !in x.sys.runs
    ensures TimelyStep(x, step, id)
  {
    hide Inv, Enabled, Tenures;
    InvBacks(c, x.sys);
    if step.Append? {
      assert Backed(step.t, x.sys.hist);
    }
  }

  lemma StepKeepsRuns(c: Config, x: LogSystem, step: LogStep, id: RunId)
    requires LogInv(c, x) && CanStep(c, x, step) && id in x.sys.runs
    ensures WellFormed(x.sys) && id in Stepped(x, step).sys.runs
  {
    hide Tenures, ClaimedLine;
    StepFollows(c, x, step, id);
  }

  lemma FirstStep(c: Config, x: LogSystem, steps: seq<LogStep>, id: RunId)
    requires LegalLog(c, x, steps) && steps != []
    ensures WellFormed(x.sys) && CanStep(c, x, steps[0]) && LegalLog(c, Stepped(x, steps[0]), steps[1..])
    ensures AllTimely(c, x, steps, id) <==>
            TimelyStep(x, steps[0], id) && AllTimely(c, Stepped(x, steps[0]), steps[1..], id)
  {
    hide CanStep, Stepped, TimelyStep, WellFormed;
  }

  lemma NoMoreSteps(c: Config, x: LogSystem, steps: seq<LogStep>, id: RunId)
    requires LegalLog(c, x, steps) && steps == []
    ensures |Worlds(c, x, steps, id)| <= 1 && AllTimely(c, x, steps, id)
  {
    hide WorldOf;
  }

  lemma {:induction false} TimelyWorlds(c: Config, x: LogSystem, steps: seq<LogStep>, id: RunId)
    requires c.Valid() && LogInv(c, x) && LegalLog(c, x, steps)
    ensures var w := Worlds(c, x, steps, id);
            (forall i | 0 <= i < |w| - 1 :: Timely(w[i], w[i + 1])) <==> AllTimely(c, x, steps, id)
    decreases |steps|
  {
    hide LogInv, CanStep, Stepped, Timely, TimelyStep, WorldOf, Lived, LegalLog, Worlds, AllTimely;
    if steps == [] {
      NoMoreSteps(c, x, steps, id);
    } else {
      FirstStep(c, x, steps, id);
      WorldsUnfold(c, x, steps, id);
      var x1 := Stepped(x, steps[0]);
      LogInvKept(c, x, steps[0]);
      TimelyWorlds(c, x1, steps[1..], id);
      WorldsFollow(c, x1, steps[1..], id);
      var rest := Worlds(c, x1, steps[1..], id);
      if id in x.sys.runs {
        StepKeepsRuns(c, x, steps[0], id);
        TimelyIs(c, x, steps[0], id);
        ConsTimely(WorldOf(x, id), rest);
      } else {
        NoneClaimedYet(c, x, steps[0], id);
        assert Worlds(c, x, steps, id) == rest;
      }
    }
  }

  lemma ConsTimely(a: World, rest: seq<World>)
    requires rest != []
    ensures var w := [a] + rest;
            (forall i | 0 <= i < |w| - 1 :: Timely(w[i], w[i + 1])) <==>
            Timely(a, rest[0]) && forall i | 0 <= i < |rest| - 1 :: Timely(rest[i], rest[i + 1])
  {
    hide Timely;
    var w := [a] + rest;
    if forall i | 0 <= i < |w| - 1 :: Timely(w[i], w[i + 1]) {
      assert Timely(w[0], w[0 + 1]);
      forall i | 0 <= i < |rest| - 1 ensures Timely(rest[i], rest[i + 1]) {
        assert Timely(w[i + 1], w[i + 1 + 1]);
      }
    }
  }

  lemma TimelyAsPairs(w: seq<World>)
    requires Lived(w)
    ensures InOrder(w) && NoneLate(w) <==> forall i | 0 <= i < |w| - 1 :: Timely(w[i], w[i + 1])
  {
    hide Sane, Follows, AddsInOrder, AddsNoneLate;
    if forall i | 0 <= i < |w| - 1 :: Timely(w[i], w[i + 1]) {
      forall i, j | 0 <= i <= j < |w| ensures Timely(w[i], w[j]) {
        TimelyAll(w, i, j);
      }
    }
  }

  lemma FinalWorld(x: LogSystem, id: RunId)
    requires id in x.sys.runs
    ensures IsFinal(WorldOf(x, id).status) <==> Terminal(x.sys.runs[id])
  {
  }

  lemma EndedRunsLive(c: Config, x: LogSystem, steps: seq<LogStep>, id: RunId)
    requires c.Valid() && LogInv(c, x) && LegalLog(c, x, steps)
    requires id in PlayLog(c, x, steps).sys.runs && Terminal(PlayLog(c, x, steps).sys.runs[id])
    ensures var w := Worlds(c, x, steps, id);
            Life(w) && (InOrder(w) && NoneLate(w) <==> AllTimely(c, x, steps, id))
  {
    hide LegalLog, PlayLog, Worlds, AllTimely, LogInv, Lived, Timely, WorldOf, Terminal, IsFinal, Life;
    hide InOrder, NoneLate;
    var w := Worlds(c, x, steps, id);
    FinalWorld(PlayLog(c, x, steps), id);
    WorldsFollow(c, x, steps, id);
    TimelyWorlds(c, x, steps, id);
    TimelyAsPairs(w);
    WorldsAreLife(w);
  }

  // In every run of the system: the streams that follow a run, whenever they are
  // opened and however their reads fall between its steps, are all exact if and
  // only if every batch that added a line to its log was appended while its
  // claimant still owned the attempt, and after the lines already there.
  lemma StreamsExactIffWritesTimely(c: Config, x0: LogSystem, steps: seq<LogStep>, id: RunId, batch: nat)
    requires c.Valid() && Untouched(x0) && LegalLog(c, x0, steps) && batch >= 1
    requires id in PlayLog(c, x0, steps).sys.runs && Terminal(PlayLog(c, x0, steps).sys.runs[id])
    ensures Worlds(c, x0, steps, id) != []
    ensures EveryStreamExact(Worlds(c, x0, steps, id), batch) <==> AllTimely(c, x0, steps, id)
  {
    hide LegalLog, PlayLog, Worlds, AllTimely, LogInv, EveryStreamExact, InOrder, NoneLate;
    StartsClean(c, x0);
    EndedRunsLive(c, x0, steps, id);
    ExactIffTimely(Worlds(c, x0, steps, id), batch);
  }

  // ---- Runs whose workers keep the rules ----

  function Ended(step: LogStep, ended: set<Ticket>): set<Ticket> {
    if step.Do? && step.step.Write? && Ending(step.step.ev) then ended + {step.step.t} else ended
  }

  // The run is not reaped; its claimants append in seq order, and nothing after
  // their attempt's ending write.
  ghost predicate KeepsRules(x: LogSystem, step: LogStep, id: RunId, ended: set<Ticket>) {
    match step
    case Do(s) => id in Touched(x.sys, s) ==> !Touched(x.sys, s)[id].Reaped?
    case Append(t, lines) => t.run == id ==>
      && t !in ended
      && forall l, k | l in lines && LogKey(id, t.attempt, l.seqNo) !in x.logs
                       && k in x.logs && k.run == id && k.attempt == t.attempt :: k.seqNo < l.seqNo
  }

  ghost predicate AllKeepRules(c: Config, x: LogSystem, steps: seq<LogStep>, id: RunId, ended: set<Ticket>)
    requires LegalLog(c, x, steps)
    decreases |steps|
  {
    steps == [] || (KeepsRules(x, steps[0], id, ended)
                    && AllKeepRules(c, Stepped(x, steps[0]), steps[1..], id, Ended(steps[0], ended)))
  }

  function EndedBy(steps: seq<LogStep>, ended: set<Ticket>): set<Ticket>
    decreases |steps|
  {
    if steps == [] then ended else EndedBy(steps[1..], Ended(steps[0], ended))
  }

  lemma {:induction false} RulesOn(c: Config, x: LogSystem, xs: seq<LogStep>, step: LogStep, id: RunId, ended: set<Ticket>)
    requires LegalLog(c, x, xs) && AllKeepRules(c, x, xs, id, ended)
    requires WellFormed(PlayLog(c, x, xs).sys) && CanStep(c, PlayLog(c, x, xs), step)
    requires WellFormed(Stepped(PlayLog(c, x, xs), step).sys)
    requires KeepsRules(PlayLog(c, x, xs), step, id, EndedBy(xs, ended))
    ensures LegalLog(c, x, xs + [step]) && PlayLog(c, x, xs + [step]) == Stepped(PlayLog(c, x, xs), step)
    ensures AllKeepRules(c, x, xs + [step], id, ended) && EndedBy(xs + [step], ended) == Ended(step, EndedBy(xs, ended))
    decreases |xs|
  {
    hide CanStep, Stepped, WellFormed, KeepsRules, Ended;
    if xs == [] {
      assert xs + [step] == [step] && [step][1..] == [];
      assert LegalLog(c, Stepped(x, step), []);
    } else {
      assert (xs + [step])[1..] == xs[1..] + [step];
      RulesOn(c, Stepped(x, xs[0]), xs[1..], step, id, Ended(xs[0], ended));
    }
  }

  // Every claimant of the run that has not ended its attempt still owns it.
  ghost predicate Holding(x: LogSystem, id: RunId, ended: set<Ticket>) {
    forall t | t in x.sys.tickets && t.run == id && t !in ended ::
      id in x.sys.runs && Owns(x.sys.runs[id], t.owner.name, t.attempt)
  }

  // Two claimants of one attempt are the same.
  lemma SameClaimant(c: Config, s: System, t: Ticket, u: Ticket)
    requires Inv(c, s) && t in s.tickets && u in s.tickets && t.run == u.run && t.attempt == u.attempt
    ensures t == u
  {
    hide FaithfulAt, Tenures;
    assert Backed(t, s.hist) && Backed(u, s.hist);
  }

  // Only its own claimant's ending, or the reaper, takes an attempt away.
  lemma StillOwns(c: Config, s: System, step: Step, t: Ticket)
    requires Inv(c, s) && Enabled(c, s, step) && t in s.tickets && t.run in s.runs
    requires Owns(s.runs[t.run], t.owner.name, t.attempt)
    requires t.run in Touched(s, step) ==> !Touched(s, step)[t.run].Reaped?
    requires step.Write? && Ending(step.ev) ==> step.t != t
    ensures WellFormed(s) && t.run in Next(s, step).runs && Owns(Next(s, step).runs[t.run], t.owner.name, t.attempt)
  {
    hide Inv, Next;
    InvBacks(c, s);
    StepOnRow(c, s, step, t.run);
    if t.run in Touched(s, step) {
      var ev := Touched(s, step)[t.run];
      if Ending(ev) {
        SameClaimant(c, s, step.t, t);
      }
    }
  }

  lemma NewClaimantOwns(c: Config, s: System, step: Step, t: Ticket)
    requires Inv(c, s) && Enabled(c, s, step)
    requires WellFormed(s) && t in Next(s, step).tickets && t !in s.tickets
    ensures t.run in Next(s, step).runs && Owns(Next(s, step).runs[t.run], t.owner.name, t.attempt)
  {
    hide Inv;
    TicketsComeFromClaims(s, step, t);
    hide Next;
    StepOnRow(c, s, step, t.run);
  }

  lemma TicketsComeFromClaims(s: System, step: Step, t: Ticket)
    requires WellFormed(s) && t in Next(s, step).tickets && t !in s.tickets
    ensures step.Claim? && t in Earned(s, step.p, step.id, step.replyLost)
  {
    hide Applied, Touched, ToDispatch, Earned;
    assert Applied(s, Issuer(step), Touched(s, step)).tickets == s.tickets by {
      AppliedTickets(s, Issuer(step), Touched(s, step));
    }
  }

  lemma AppliedTickets(s: System, who: Process, touched: map<RunId, Event>)
    requires WellFormed(s)
    ensures Applied(s, who, touched).tickets == s.tickets
  {
  }

  lemma HoldingKept(c: Config, x: LogSystem, step: LogStep, id: RunId, ended: set<Ticket>)
    requires LogInv(c, x) && CanStep(c, x, step) && Holding(x, id, ended) && KeepsRules(x, step, id, ended)
    ensures Holding(Stepped(x, step), id, Ended(step, ended))
  {
    hide Inv, Enabled, Next, Touched, Owns, Tenures;
    InvBacks(c, x.sys);
    if step.Do? {
      var s' := Next(x.sys, step.step);
      forall t | t in s'.tickets && t.run == id && t !in Ended(step, ended)
        ensures id in s'.runs && Owns(s'.runs[id], t.owner.name, t.attempt)
      {
        if t in x.sys.tickets {
          StillOwns(c, x.sys, step.step, t);
        } else {
          NewClaimantOwns(c, x.sys, step.step, t);
        }
      }
    }
  }

  lemma {:induction false} RulesAreTimely(c: Config, x: LogSystem, steps: seq<LogStep>, id: RunId, ended: set<Ticket>)
    requires c.Valid() && LogInv(c, x) && LegalLog(c, x, steps)
    requires Holding(x, id, ended) && AllKeepRules(c, x, steps, id, ended)
    ensures AllTimely(c, x, steps, id)
    decreases |steps|
  {
    hide LogInv, Stepped, Holding, KeepsRules, TimelyStep, CanStep;
    if steps != [] {
      LogInvKept(c, x, steps[0]);
      HoldingKept(c, x, steps[0], id, ended);
      RuleIsTimely(c, x, steps[0], id, ended);
      RulesAreTimely(c, Stepped(x, steps[0]), steps[1..], id, Ended(steps[0], ended));
    }
  }

  lemma RuleIsTimely(c: Config, x: LogSystem, step: LogStep, id: RunId, ended: set<Ticket>)
    requires CanStep(c, x, step) && Holding(x, id, ended) && KeepsRules(x, step, id, ended)
    ensures TimelyStep(x, step, id)
  {
    hide Owns, Enabled;
  }

  // A run that is not reaped, whose workers append their lines in seq order and
  // close an attempt's log before they end it, is followed exactly by every stream.
  lemma RulesMakeStreamsExact(c: Config, x0: LogSystem, steps: seq<LogStep>, id: RunId, batch: nat)
    requires c.Valid() && Untouched(x0) && LegalLog(c, x0, steps) && batch >= 1
    requires AllKeepRules(c, x0, steps, id, {})
    requires id in PlayLog(c, x0, steps).sys.runs && Terminal(PlayLog(c, x0, steps).sys.runs[id])
    ensures Worlds(c, x0, steps, id) != [] && EveryStreamExact(Worlds(c, x0, steps, id), batch)
  {
    hide LegalLog, PlayLog, Worlds, AllTimely, AllKeepRules, LogInv, EveryStreamExact;
    StartsClean(c, x0);
    assert Holding(x0, id, {});
    RulesAreTimely(c, x0, steps, id, {});
    StreamsExactIffWritesTimely(c, x0, steps, id, batch);
  }
}
