// Following a run's log while workers write it: handleStreamLogs.
//
// Between any two reads the database may change in any way. So the environment
// is a sequence of database states, and each read of the stream sees the next
// one; a theorem about every such sequence is one about every interleaving. A
// client that goes away is a sequence that ends.
module Stream {
  import opened Rows
  import opened LogPages

  datatype LineKey = LineKey(attempt: nat, seqNo: nat)

  // What the stream can see of the database: the run and its log.
  datatype World = World(attempt: nat, status: Status, lines: map<LineKey, string>) {
    function Seqs(a: nat): (s: set<nat>)
      ensures forall q :: q in s <==> LineKey(a, q) in lines
    {
      var s := set k | k in lines && k.attempt == a :: k.seqNo;
      assert forall q | LineKey(a, q) in lines :: LineKey(a, q).seqNo in s;
      s
    }
  }

  predicate IsFinal(status: Status) {
    status.Succeeded? || status.Failed? || status.Cancelled?
  }

  datatype OutEvent =
    | Announce(attempt: nat)
    | Line(attempt: nat, seqNo: nat, text: string)
    | End(status: Status, attempt: nat)

  // What the handler does, read by read. A page records the range of lines it
  // settles: from `lo` up to `hi`, or without end if the attempt is over and no
  // later page of it will be read.
  datatype Act =
    | Page(t: nat, attempt: nat, lo: nat, seqs: seq<nat>, hi: nat, closes: bool)
    | Move(attempt: nat)
    | Stop(status: Status, attempt: nat)

  predicate IsOver(run: World, attempt: nat) {
    attempt < run.attempt || IsFinal(run.status)
  }

  // An act the database states bear out: a page is what ListLogs returned from
  // the state it was read in, and it closes only after a short page, read after
  // the run was seen to be past the attempt.
  ghost predicate True(w: seq<World>, batch: nat, a: Act) {
    a.Page? ==>
      && a.t < |w|
      && IsPage(w[a.t].Seqs(a.attempt), a.lo, batch, a.seqs)
      && a.hi == NextSeq(a.lo, a.seqs)
      && (a.closes ==> |a.seqs| < batch && exists g | 0 <= g < a.t :: IsOver(w[g], a.attempt))
  }

  ghost predicate AllTrue(w: seq<World>, batch: nat, acts: seq<Act>) {
    forall i | 0 <= i < |acts| :: True(w, batch, acts[i])
  }

  // The handler's loop: read the run, then pages until a short one, then move
  // on, stop, or poll again.
  ghost function Polls(w: seq<World>, t: nat, attempt: nat, next: nat, batch: nat): (acts: seq<Act>)
    ensures AllTrue(w, batch, acts)
    decreases |w| - t, 1
  {
    if t >= |w| then [] else Pages(w, t, t + 1, attempt, next, batch)
  }

  // The inner loop; w[g] is the run as last read.
  ghost function Pages(w: seq<World>, g: nat, t: nat, attempt: nat, next: nat, batch: nat): (acts: seq<Act>)
    requires g < t && g < |w|
    ensures AllTrue(w, batch, acts)
    decreases |w| - t, 0
  {
    if t >= |w| then []
    else
      var p := PageOf(w[t].Seqs(attempt), next, batch);
      var hi := NextSeq(next, p);
      var short := |p| < batch;
      [Page(t, attempt, next, p, hi, short && IsOver(w[g], attempt))]
      + if short then Decides(w, g, t + 1, attempt, hi, batch)
        else Pages(w, g, t + 1, attempt, hi, batch)
  }

  ghost function Decides(w: seq<World>, g: nat, t: nat, attempt: nat, next: nat, batch: nat): (acts: seq<Act>)
    requires g < t && g < |w|
    ensures AllTrue(w, batch, acts)
    decreases |w| - t, 2
  {
    if attempt < w[g].attempt then [Move(attempt + 1)] + Polls(w, t, attempt + 1, 1, batch)
    else if IsFinal(w[g].status) then [Stop(w[g].status, w[g].attempt)]
    else Polls(w, t, attempt, next, batch)
  }

  ghost predicate Completed(acts: seq<Act>) {
    acts != [] && acts[|acts| - 1].Stop?
  }

  // ---- What is sent ----

  function LinesOf(w: World, attempt: nat, seqs: seq<nat>): seq<OutEvent>
    requires forall i | 0 <= i < |seqs| :: LineKey(attempt, seqs[i]) in w.lines
  {
    seq(|seqs|, i requires 0 <= i < |seqs| => Line(attempt, seqs[i], w.lines[LineKey(attempt, seqs[i])]))
  }

  ghost function SentBy(w: seq<World>, batch: nat, a: Act): seq<OutEvent>
    requires True(w, batch, a)
  {
    match a
    case Page(t, attempt, _, seqs, _, _) =>
      assert forall i | 0 <= i < |seqs| :: seqs[i] in seqs;
      LinesOf(w[t], attempt, seqs)
    case Move(attempt) => [Announce(attempt)]
    case Stop(status, attempt) => [End(status, attempt)]
  }

  ghost function Sent(w: seq<World>, batch: nat, acts: seq<Act>): seq<OutEvent>
    requires AllTrue(w, batch, acts)
  {
    if acts == [] then [] else SentBy(w, batch, acts[0]) + Sent(w, batch, acts[1..])
  }

  lemma SentFirst(w: seq<World>, batch: nat, a: Act, rest: seq<Act>)
    requires True(w, batch, a) && AllTrue(w, batch, rest)
    ensures AllTrue(w, batch, [a] + rest)
    ensures Sent(w, batch, [a] + rest) == SentBy(w, batch, a) + Sent(w, batch, rest)
  {
    assert ([a] + rest)[1..] == rest;
  }

  // ---- The handler ----

  // The rest of the stream, from the inner loop (or just past it, after a short page).
  ghost function Rest(w: seq<World>, g: nat, t: nat, attempt: nat, next: nat, batch: nat, short: bool): (acts: seq<Act>)
    requires g < t && g < |w|
    ensures AllTrue(w, batch, acts)
  {
    if short then Decides(w, g, t, attempt, next, batch) else Pages(w, g, t, attempt, next, batch)
  }

  lemma PageStep(w: seq<World>, g: nat, t: nat, attempt: nat, next: nat, batch: nat, p: seq<nat>)
    requires g < t < |w| && IsPage(w[t].Seqs(attempt), next, batch, p)
    ensures forall i | 0 <= i < |p| :: LineKey(attempt, p[i]) in w[t].lines
    ensures var acts := Rest(w, g, t, attempt, next, batch, false);
            var rest := Rest(w, g, t + 1, attempt, NextSeq(next, p), batch, |p| < batch);
            && Sent(w, batch, acts) == LinesOf(w[t], attempt, p) + Sent(w, batch, rest)
            && (Completed(acts) <==> Completed(rest))
  {
    assert forall i | 0 <= i < |p| :: p[i] in p;
    PageIsUnique(w[t].Seqs(attempt), next, batch, p, PageOf(w[t].Seqs(attempt), next, batch));
    var rest := Rest(w, g, t + 1, attempt, NextSeq(next, p), batch, |p| < batch);
    var page := Page(t, attempt, next, p, NextSeq(next, p), |p| < batch && IsOver(w[g], attempt));
    assert Rest(w, g, t, attempt, next, batch, false) == [page] + rest;
    SentFirst(w, batch, page, rest);
  }

  lemma MoveStep(w: seq<World>, g: nat, t: nat, attempt: nat, next: nat, batch: nat)
    requires g < t && g < |w| && attempt < w[g].attempt
    ensures var acts := Rest(w, g, t, attempt, next, batch, true);
            var rest := Polls(w, t, attempt + 1, 1, batch);
            && Sent(w, batch, acts) == [Announce(attempt + 1)] + Sent(w, batch, rest)
            && (Completed(acts) <==> Completed(rest))
  {
    SentFirst(w, batch, Move(attempt + 1), Polls(w, t, attempt + 1, 1, batch));
  }

  lemma StopStep(w: seq<World>, g: nat, t: nat, attempt: nat, next: nat, batch: nat)
    requires g < t && g < |w| && attempt >= w[g].attempt && IsFinal(w[g].status)
    ensures var acts := Rest(w, g, t, attempt, next, batch, true);
            Sent(w, batch, acts) == [End(w[g].status, w[g].attempt)] && Completed(acts)
  {
    SentFirst(w, batch, Stop(w[g].status, w[g].attempt), []);
  }

  // handleStreamLogs, once the query is accepted. `t` counts its reads.
  method StreamLogs(w: seq<World>, start: nat, fromSeq: nat, batch: nat) returns (out: seq<OutEvent>, ended: bool)
    requires batch >= 1
    ensures out == [Announce(start)] + Sent(w, batch, Polls(w, 0, start, fromSeq, batch))
    ensures ended <==> Completed(Polls(w, 0, start, fromSeq, batch))
  {
    hide Pages, Decides, True, IsPage, Polls, Rest, Sent, LinesOf, Completed;
    ghost var all := Polls(w, 0, start, fromSeq, batch);
    ghost var whole := [Announce(start)] + Sent(w, batch, all);
    out := [Announce(start)];
    var t: nat, attempt: nat, next: nat := 0, start, fromSeq;
    while true
      invariant out + Sent(w, batch, Polls(w, t, attempt, next, batch)) == whole
      invariant Completed(Polls(w, t, attempt, next, batch)) <==> Completed(all)
      decreases |w| - t
    {
      PollStep(w, t, attempt, next, batch);
      if t >= |w| {
        return out, false;
      }
      ghost var g := t;
      var run := w[t];
      t := t + 1;
      var short := false;
      while !short
        invariant g < t && g < |w| && run == w[g]
        invariant out + Sent(w, batch, Rest(w, g, t, attempt, next, batch, short)) == whole
        invariant Completed(Rest(w, g, t, attempt, next, batch, short)) <==> Completed(all)
        decreases !short, |w| - t
      {
        if t >= |w| {
          Exhausted(w, g, t, attempt, next, batch);
          return out, false;
        }
        var p := ReadPage(w[t].Seqs(attempt), next, batch);
        PageStep(w, g, t, attempt, next, batch, p);
        out := out + LinesOf(w[t], attempt, p);
        next := if p == [] then next else p[|p| - 1] + 1;
        t := t + 1;
        short := |p| < batch;
      }
      if attempt < run.attempt {
        MoveStep(w, g, t, attempt, next, batch);
        attempt := attempt + 1;
        next := 1;
        out := out + [Announce(attempt)];
      } else if IsFinal(run.status) {
        StopStep(w, g, t, attempt, next, batch);
        out := out + [End(run.status, run.attempt)];
        return out, true;
      } else {
        AgainStep(w, g, t, attempt, next, batch);
      }
    }
  }

  lemma PollStep(w: seq<World>, t: nat, attempt: nat, next: nat, batch: nat)
    ensures var acts := Polls(w, t, attempt, next, batch);
            if t >= |w| then Sent(w, batch, acts) == [] && !Completed(acts)
            else acts == Rest(w, t, t + 1, attempt, next, batch, false)
  {
  }

  lemma Exhausted(w: seq<World>, g: nat, t: nat, attempt: nat, next: nat, batch: nat)
    requires g < t && g < |w| <= t
    ensures var acts := Rest(w, g, t, attempt, next, batch, false); Sent(w, batch, acts) == [] && !Completed(acts)
  {
  }

  lemma AgainStep(w: seq<World>, g: nat, t: nat, attempt: nat, next: nat, batch: nat)
    requires g < t && g < |w| && !IsOver(w[g], attempt)
    ensures Rest(w, g, t, attempt, next, batch, true) == Polls(w, t, attempt, next, batch)
  {
  }
}
