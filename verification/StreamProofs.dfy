// What a client of the log stream can rely on.
module StreamProofs {
  import opened Rows
  import opened LogPages
  import opened Stream

  // ---- The order of the acts ----

  // Acts that carry on from the given attempt and line: pages of one attempt
  // adjoin, a closing page is followed by the next attempt or the end, and
  // nothing follows the end.
  ghost predicate Chained(acts: seq<Act>, attempt: nat, next: nat, closed: bool) {
    acts == [] ||
    match acts[0]
    case Page(_, a, lo, seqs, hi, closes) =>
      && !closed && a == attempt && lo == next && hi == NextSeq(lo, seqs)
      && (forall q | q in seqs :: lo <= q < hi) && Increasing(seqs)
      && Chained(acts[1..], attempt, hi, closes)
    case Move(a) => closed && a == attempt + 1 && Chained(acts[1..], attempt + 1, 1, false)
    case Stop(_, _) => closed && |acts| == 1
  }

  lemma PageWithin(keys: set<nat>, from: nat, limit: nat, p: seq<nat>)
    requires IsPage(keys, from, limit, p)
    ensures from <= NextSeq(from, p) && forall q | q in p :: from <= q < NextSeq(from, p)
  {
    assert p != [] ==> p[|p| - 1] in p;
  }

  lemma {:induction false} PollsChained(w: seq<World>, t: nat, attempt: nat, next: nat, batch: nat)
    ensures Chained(Polls(w, t, attempt, next, batch), attempt, next, false)
    decreases |w| - t, 1
  {
    if t < |w| {
      PagesChained(w, t, t + 1, attempt, next, batch);
    }
  }

  lemma {:induction false} PagesChained(w: seq<World>, g: nat, t: nat, attempt: nat, next: nat, batch: nat)
    requires g < t && g < |w|
    ensures Chained(Pages(w, g, t, attempt, next, batch), attempt, next, false)
    decreases |w| - t, 0
  {
    if t < |w| {
      var p := PageOf(w[t].Seqs(attempt), next, batch);
      PageWithin(w[t].Seqs(attempt), next, batch, p);
      var hi := NextSeq(next, p);
      var acts := Pages(w, g, t, attempt, next, batch);
      if |p| < batch {
        DecidesChained(w, g, t + 1, attempt, hi, batch);
        assert acts[1..] == Decides(w, g, t + 1, attempt, hi, batch);
      } else {
        PagesChained(w, g, t + 1, attempt, hi, batch);
        assert acts[1..] == Pages(w, g, t + 1, attempt, hi, batch);
      }
    }
  }

  lemma {:induction false} DecidesChained(w: seq<World>, g: nat, t: nat, attempt: nat, next: nat, batch: nat)
    requires g < t && g < |w|
    ensures Chained(Decides(w, g, t, attempt, next, batch), attempt, next, IsOver(w[g], attempt))
    decreases |w| - t, 2
  {
    var acts := Decides(w, g, t, attempt, next, batch);
    if attempt < w[g].attempt {
      PollsChained(w, t, attempt + 1, 1, batch);
      assert acts[1..] == Polls(w, t, attempt + 1, 1, batch);
    } else if !IsFinal(w[g].status) {
      PollsChained(w, t, attempt, next, batch);
    }
  }

  // ---- Order of the events ----

  // A stream a client can follow: within an attempt lines come in increasing
  // order, attempts are announced one by one, and the end comes last.
  ghost predicate Orderly(out: seq<OutEvent>, attempt: nat, next: nat) {
    out == [] ||
    match out[0]
    case Line(a, q, _) => a == attempt && next <= q && Orderly(out[1..], attempt, q + 1)
    case Announce(a) => a == attempt + 1 && Orderly(out[1..], attempt + 1, 1)
    case End(_, _) => |out| == 1
  }

  lemma {:induction false} LinesOrderly(w: World, attempt: nat, next: nat, seqs: seq<nat>, rest: seq<OutEvent>)
    requires forall i | 0 <= i < |seqs| :: LineKey(attempt, seqs[i]) in w.lines
    requires Increasing(seqs) && (forall q | q in seqs :: next <= q)
    requires Orderly(rest, attempt, NextSeq(next, seqs))
    ensures Orderly(LinesOf(w, attempt, seqs) + rest, attempt, next)
    decreases |seqs|
  {
    var out := LinesOf(w, attempt, seqs) + rest;
    if seqs == [] {
      assert out == rest;
    } else {
      assert seqs[0] in seqs;
      assert out[1..] == LinesOf(w, attempt, seqs[1..]) + rest;
      LinesOrderly(w, attempt, seqs[0] + 1, seqs[1..], rest);
    }
  }

  lemma {:induction false} SentOrderly(w: seq<World>, batch: nat, acts: seq<Act>, attempt: nat, next: nat, closed: bool)
    requires AllTrue(w, batch, acts) && Chained(acts, attempt, next, closed)
    ensures Orderly(Sent(w, batch, acts), attempt, next)
    decreases |acts|
  {
    if acts != [] {
      var a := acts[0];
      match a
      case Page(t, _, lo, seqs, hi, closes) =>
        SentOrderly(w, batch, acts[1..], attempt, hi, closes);
        assert forall i | 0 <= i < |seqs| :: seqs[i] in seqs;
        LinesOrderly(w[t], attempt, next, seqs, Sent(w, batch, acts[1..]));
      case Move(_) =>
        SentOrderly(w, batch, acts[1..], attempt + 1, 1, false);
        var out := Sent(w, batch, acts);
        assert out[1..] == Sent(w, batch, acts[1..]);
      case Stop(_, _) =>
        assert acts[1..] == [];
    }
  }

  // For every interleaving, whatever the workers do.
  lemma StreamIsOrderly(w: seq<World>, start: nat, fromSeq: nat, batch: nat)
    ensures Orderly(Sent(w, batch, Polls(w, 0, start, fromSeq, batch)), start, fromSeq)
  {
    PollsChained(w, 0, start, fromSeq, batch);
    SentOrderly(w, batch, Polls(w, 0, start, fromSeq, batch), start, fromSeq, false);
  }

  predicate Before(a: OutEvent, b: OutEvent)
    requires a.Line? && b.Line?
  {
    a.attempt < b.attempt || (a.attempt == b.attempt && a.seqNo < b.seqNo)
  }

  // What orderly means event by event.
  lemma {:induction false} OrderlyFrom(out: seq<OutEvent>, attempt: nat, next: nat, i: nat)
    requires Orderly(out, attempt, next) && i < |out|
    ensures out[i].Line? ==> out[i].attempt > attempt || (out[i].attempt == attempt && out[i].seqNo >= next)
    ensures out[i].Announce? ==> out[i].attempt > attempt
    ensures out[i].End? ==> i == |out| - 1
    decreases |out|
  {
    if i > 0 {
      match out[0]
      case Line(_, q, _) => OrderlyFrom(out[1..], attempt, q + 1, i - 1);
      case Announce(a) => OrderlyFrom(out[1..], attempt + 1, 1, i - 1);
      case End(_, _) =>
    }
  }

  lemma {:induction false} OrderlyLinesIncrease(out: seq<OutEvent>, attempt: nat, next: nat, i: nat, j: nat)
    requires Orderly(out, attempt, next) && i < j < |out| && out[i].Line? && out[j].Line?
    ensures Before(out[i], out[j])
    decreases |out|
  {
    match out[0]
    case Line(_, q, _) =>
      if i == 0 {
        OrderlyFrom(out[1..], attempt, q + 1, j - 1);
      } else {
        OrderlyLinesIncrease(out[1..], attempt, q + 1, i - 1, j - 1);
      }
    case Announce(_) => OrderlyLinesIncrease(out[1..], attempt + 1, 1, i - 1, j - 1);
    case End(_, _) =>
  }

  // ---- Completeness ----

  // Lines from the starting cursor on.
  predicate Ahead(attempt: nat, next: nat, k: LineKey) {
    (k.attempt == attempt && next <= k.seqNo) || (k.attempt > attempt && 1 <= k.seqNo)
  }

  // Lines a page settles for good, whether or not it found them.
  predicate Settles(a: Act, k: LineKey) {
    a.Page? && k.attempt == a.attempt && a.lo <= k.seqNo && (a.closes || k.seqNo < a.hi)
  }

  predicate Found(a: Act, k: LineKey) {
    a.Page? && k.attempt == a.attempt && k.seqNo in a.seqs
  }

  predicate Emitted(acts: seq<Act>, k: LineKey) {
    exists i | 0 <= i < |acts| :: Found(acts[i], k)
  }

  // The attempt the stream ended on.
  ghost function LastAttempt(acts: seq<Act>, attempt: nat): nat {
    if acts == [] then attempt
    else LastAttempt(acts[1..], if acts[0].Move? then attempt + 1 else attempt)
  }

  lemma {:induction false} LastIsLater(acts: seq<Act>, attempt: nat)
    ensures LastAttempt(acts, attempt) >= attempt
    decreases |acts|
  {
    if acts != [] {
      LastIsLater(acts[1..], if acts[0].Move? then attempt + 1 else attempt);
    }
  }

  lemma {:induction false} SettlesAhead(acts: seq<Act>, attempt: nat, next: nat, closed: bool, i: nat, k: LineKey)
    requires Chained(acts, attempt, next, closed) && i < |acts| && Settles(acts[i], k) && k.seqNo >= 1
    ensures if closed then k.attempt > attempt else Ahead(attempt, next, k)
    ensures k.attempt <= LastAttempt(acts, attempt)
    decreases |acts|
  {
    LastIsLater(acts, attempt);
    if i > 0 {
      match acts[0]
      case Page(_, _, lo, seqs, hi, closes) =>
        assert seqs != [] ==> seqs[|seqs| - 1] in seqs;
        SettlesAhead(acts[1..], attempt, hi, closes, i - 1, k);
      case Move(_) => SettlesAhead(acts[1..], attempt + 1, 1, false, i - 1, k);
      case Stop(_, _) =>
    }
  }

  // No line is settled twice.
  lemma {:induction false} SettledOnce(acts: seq<Act>, attempt: nat, next: nat, closed: bool, i: nat, j: nat, k: LineKey)
    requires Chained(acts, attempt, next, closed) && i < j < |acts| && k.seqNo >= 1
    ensures !(Settles(acts[i], k) && Settles(acts[j], k))
    decreases |acts|
  {
    if Settles(acts[i], k) && Settles(acts[j], k) {
      match acts[0]
      case Page(_, _, _, _, hi, closes) =>
        if i == 0 {
          SettlesAhead(acts[1..], attempt, hi, closes, j - 1, k);
        } else {
          SettledOnce(acts[1..], attempt, hi, closes, i - 1, j - 1, k);
        }
      case Move(_) => SettledOnce(acts[1..], attempt + 1, 1, false, i - 1, j - 1, k);
      case Stop(_, _) =>
    }
  }

  // A stream that reached its end has settled every line of its attempts.
  lemma {:induction false} EverythingSettled(acts: seq<Act>, attempt: nat, next: nat, closed: bool, k: LineKey) returns (i: nat)
    requires Chained(acts, attempt, next, closed) && Completed(acts)
    requires k.attempt <= LastAttempt(acts, attempt)
    requires if closed then k.attempt > attempt && k.seqNo >= 1 else Ahead(attempt, next, k)
    ensures i < |acts| && Settles(acts[i], k)
    decreases |acts|
  {
    i := 0;
    match acts[0]
    case Page(_, _, _, _, hi, closes) =>
      if !Settles(acts[0], k) {
        var m := EverythingSettled(acts[1..], attempt, hi, closes, k);
        i := m + 1;
      }
    case Move(_) =>
      var m := EverythingSettled(acts[1..], attempt + 1, 1, false, k);
      i := m + 1;
    case Stop(_, _) => EndsHere(acts, attempt);
  }

  lemma EndsHere(acts: seq<Act>, attempt: nat)
    requires |acts| == 1 && acts[0].Stop?
    ensures LastAttempt(acts, attempt) == attempt
  {
    assert acts[1..] == [];
  }

  // A later state has all the lines of an earlier one.
  ghost predicate Extends(a: World, b: World) {
    forall k | k in a.lines :: k.seqNo >= 1 && k in b.lines && b.lines[k] == a.lines[k]
  }

  // Logs only grow, and seq numbers start at 1.
  ghost predicate Grows(w: seq<World>) {
    forall i, j | 0 <= i <= j < |w| :: Extends(w[i], w[j])
  }

  // Lines persisted behind the stream's cursor: settled by a page that had not
  // found them.
  ghost predicate NothingBehind(acts: seq<Act>, last: World) {
    forall i, k | 0 <= i < |acts| && k in last.lines && Settles(acts[i], k) :: Found(acts[i], k)
  }

  // The stream emitted exactly the lines persisted from its cursor on.
  ghost predicate Exact(acts: seq<Act>, start: nat, fromSeq: nat, last: World) {
    forall k :: Emitted(acts, k) <==>
      k in last.lines && Ahead(start, fromSeq, k) && k.attempt <= LastAttempt(acts, start)
  }

  lemma FoundIsSettled(w: seq<World>, batch: nat, acts: seq<Act>, attempt: nat, next: nat, i: nat, k: LineKey)
    requires Grows(w) && AllTrue(w, batch, acts) && i < |acts| && Found(acts[i], k)
    ensures w != [] && k in w[|w| - 1].lines && k.seqNo >= 1 && Settles(acts[i], k)
  {
    var a := acts[i];
    assert True(w, batch, a);
    PageWithin(w[a.t].Seqs(a.attempt), a.lo, batch, a.seqs);
    assert k == LineKey(a.attempt, k.seqNo);
    assert Extends(w[a.t], w[|w| - 1]);
  }

  // A stream that reached its end is exact exactly when no line was persisted
  // behind its cursor.
  lemma ExactIffNothingBehind(w: seq<World>, start: nat, fromSeq: nat, batch: nat)
    requires Grows(w) && fromSeq >= 1 && Completed(Polls(w, 0, start, fromSeq, batch))
    ensures w != []
    ensures var acts, last := Polls(w, 0, start, fromSeq, batch), w[|w| - 1];
            Exact(acts, start, fromSeq, last) <==> NothingBehind(acts, last)
  {
    var acts := Polls(w, 0, start, fromSeq, batch);
    PollsChained(w, 0, start, fromSeq, batch);
    var last := w[|w| - 1];
    if NothingBehind(acts, last) {
      forall k ensures Emitted(acts, k) <==>
        k in last.lines && Ahead(start, fromSeq, k) && k.attempt <= LastAttempt(acts, start)
      {
        if Emitted(acts, k) {
          var i :| 0 <= i < |acts| && Found(acts[i], k);
          FoundIsSettled(w, batch, acts, start, fromSeq, i, k);
          SettlesAhead(acts, start, fromSeq, false, i, k);
        }
        if k in last.lines && Ahead(start, fromSeq, k) && k.attempt <= LastAttempt(acts, start) {
          var i := EverythingSettled(acts, start, fromSeq, false, k);
          assert Found(acts[i], k);
        }
      }
    }
    if Exact(acts, start, fromSeq, last) {
      forall i, k | 0 <= i < |acts| && k in last.lines && Settles(acts[i], k)
        ensures Found(acts[i], k)
      {
        SettlesAhead(acts, start, fromSeq, false, i, k);
        assert Emitted(acts, k);
        var j :| 0 <= j < |acts| && Found(acts[j], k);
        FoundIsSettled(w, batch, acts, start, fromSeq, j, k);
        if i < j {
          SettledOnce(acts, start, fromSeq, false, i, j, k);
        } else if j < i {
          SettledOnce(acts, start, fromSeq, false, j, i, k);
        }
      }
    }
  }

  ghost predicate AddsInOrder(a: World, b: World) {
    forall k, prev | k in b.lines && k !in a.lines && prev in a.lines && prev.attempt == k.attempt ::
      prev.seqNo < k.seqNo
  }

  // Each attempt's lines are committed in seq order.
  ghost predicate InOrder(w: seq<World>) {
    forall i, j | 0 <= i <= j < |w| :: AddsInOrder(w[i], w[j])
  }

  ghost predicate AddsNoneLate(a: World, b: World) {
    forall k | k in b.lines && IsOver(a, k.attempt) :: k in a.lines
  }

  // Once the run is past an attempt, no more of its lines are committed.
  ghost predicate NoneLate(w: seq<World>) {
    forall i, j | 0 <= i <= j < |w| :: AddsNoneLate(w[i], w[j])
  }

  lemma OrderedMissesNothing(w: seq<World>, batch: nat, a: Act, k: LineKey)
    requires Grows(w) && InOrder(w) && NoneLate(w)
    requires True(w, batch, a) && w != [] && k in w[|w| - 1].lines && Settles(a, k)
    ensures Found(a, k)
  {
    var keys := w[a.t].Seqs(a.attempt);
    if a.closes {
      var g :| 0 <= g < a.t && IsOver(w[g], a.attempt);
      assert AddsNoneLate(w[g], w[|w| - 1]) && Extends(w[g], w[a.t]);
    } else if a.seqs != [] {
      var top := a.seqs[|a.seqs| - 1];
      assert top in a.seqs;
      var topKey := LineKey(a.attempt, top);
      assert topKey in w[a.t].lines;
      assert AddsInOrder(w[a.t], w[|w| - 1]);
    }
    assert k == LineKey(a.attempt, k.seqNo);
    assert k.seqNo in keys;
  }

  // When every attempt's batches are committed in order, and before the step
  // that ends the attempt, a stream that reaches its end has sent exactly the
  // lines persisted from its starting cursor on.
  lemma OrderedStreamIsExact(w: seq<World>, start: nat, fromSeq: nat, batch: nat)
    requires Grows(w) && InOrder(w) && NoneLate(w) && fromSeq >= 1
    requires Completed(Polls(w, 0, start, fromSeq, batch))
    ensures w != [] && Exact(Polls(w, 0, start, fromSeq, batch), start, fromSeq, w[|w| - 1])
  {
    var acts := Polls(w, 0, start, fromSeq, batch);
    var last := w[|w| - 1];
    forall i, k | 0 <= i < |acts| && k in last.lines && Settles(acts[i], k)
      ensures Found(acts[i], k)
    {
      OrderedMissesNothing(w, batch, acts[i], k);
    }
    ExactIffNothingBehind(w, start, fromSeq, batch);
  }

  // ---- In terms of the events sent ----

  ghost predicate LineSent(out: seq<OutEvent>, k: LineKey, text: string) {
    Line(k.attempt, k.seqNo, text) in out
  }

  lemma PageLines(w: World, attempt: nat, seqs: seq<nat>, k: LineKey, text: string)
    requires forall i | 0 <= i < |seqs| :: LineKey(attempt, seqs[i]) in w.lines
    ensures LineSent(LinesOf(w, attempt, seqs), k, text) <==>
            k.attempt == attempt && k.seqNo in seqs && k in w.lines && w.lines[k] == text
  {
    var out := LinesOf(w, attempt, seqs);
    if k.attempt == attempt && k.seqNo in seqs {
      var i :| 0 <= i < |seqs| && seqs[i] == k.seqNo;
      assert out[i] == Line(k.attempt, k.seqNo, w.lines[k]);
    }
  }

  lemma {:induction false} SentIsEmitted(w: seq<World>, batch: nat, acts: seq<Act>, k: LineKey, text: string)
    requires Grows(w) && AllTrue(w, batch, acts)
    ensures LineSent(Sent(w, batch, acts), k, text) <==>
            Emitted(acts, k) && k in w[|w| - 1].lines && w[|w| - 1].lines[k] == text
    decreases |acts|
  {
    if acts != [] {
      var a, rest := acts[0], acts[1..];
      SentIsEmitted(w, batch, rest, k, text);
      assert Emitted(acts, k) <==> Found(a, k) || Emitted(rest, k) by {
        if Emitted(rest, k) {
          var i :| 0 <= i < |rest| && Found(rest[i], k);
          assert Found(acts[i + 1], k);
        }
        if Emitted(acts, k) && !Found(a, k) {
          var i :| 0 <= i < |acts| && Found(acts[i], k);
          assert Found(rest[i - 1], k);
        }
      }
      if a.Page? {
        assert True(w, batch, a);
        assert forall i | 0 <= i < |a.seqs| :: a.seqs[i] in a.seqs;
        PageLines(w[a.t], a.attempt, a.seqs, k, text);
      }
      if Found(a, k) {
        FoundIsSettled(w, batch, acts, 0, 0, 0, k);
      }
    }
  }

  // Runs never go back to an earlier attempt.
  ghost predicate Advances(w: seq<World>) {
    forall i, j | 0 <= i <= j < |w| :: w[i].attempt <= w[j].attempt
  }

  // Some state read has the run ended at this attempt, with this status.
  ghost predicate SeenFinal(w: seq<World>, status: Status, attempt: nat) {
    exists g | 0 <= g < |w| :: w[g].attempt == attempt && w[g].status == status && IsFinal(status)
  }

  // If the acts reach an end, it names the last attempt announced, at which the
  // run was seen to have ended as it says.
  ghost predicate StopsLast(w: seq<World>, acts: seq<Act>, attempt: nat) {
    Completed(acts) ==>
      acts[|acts| - 1].attempt == LastAttempt(acts, attempt) && SeenFinal(w, acts[|acts| - 1].status, LastAttempt(acts, attempt))
  }

  lemma ConsStopsLast(w: seq<World>, a: Act, rest: seq<Act>, attempt: nat)
    requires !a.Stop? && StopsLast(w, rest, if a.Move? then attempt + 1 else attempt)
    ensures StopsLast(w, [a] + rest, attempt)
  {
    assert ([a] + rest)[1..] == rest;
  }

  lemma {:induction false} PollsStopLast(w: seq<World>, t: nat, attempt: nat, next: nat, batch: nat)
    requires Advances(w) && (t < |w| ==> attempt <= w[t].attempt)
    ensures StopsLast(w, Polls(w, t, attempt, next, batch), attempt)
    decreases |w| - t, 1
  {
    if t < |w| {
      hide StopsLast;
      PagesStopLast(w, t, t + 1, attempt, next, batch);
    }
  }

  lemma {:induction false} PagesStopLast(w: seq<World>, g: nat, t: nat, attempt: nat, next: nat, batch: nat)
    requires g < t && g < |w| && Advances(w) && attempt <= w[g].attempt
    ensures StopsLast(w, Pages(w, g, t, attempt, next, batch), attempt)
    decreases |w| - t, 0
  {
    if t < |w| {
      hide StopsLast, Decides, IsPage, Advances;
      var p := PageOf(w[t].Seqs(attempt), next, batch);
      var hi := NextSeq(next, p);
      var page := Page(t, attempt, next, p, hi, |p| < batch && IsOver(w[g], attempt));
      if |p| < batch {
        DecidesStopLast(w, g, t + 1, attempt, hi, batch);
        ConsStopsLast(w, page, Decides(w, g, t + 1, attempt, hi, batch), attempt);
      } else {
        PagesStopLast(w, g, t + 1, attempt, hi, batch);
        ConsStopsLast(w, page, Pages(w, g, t + 1, attempt, hi, batch), attempt);
      }
    }
  }

  lemma {:induction false} DecidesStopLast(w: seq<World>, g: nat, t: nat, attempt: nat, next: nat, batch: nat)
    requires g < t && g < |w| && Advances(w) && attempt <= w[g].attempt
    ensures StopsLast(w, Decides(w, g, t, attempt, next, batch), attempt)
    decreases |w| - t, 2
  {
    if attempt < w[g].attempt {
      PollsStopLast(w, t, attempt + 1, 1, batch);
      ConsStopsLast(w, Move(attempt + 1), Polls(w, t, attempt + 1, 1, batch), attempt);
    } else if IsFinal(w[g].status) {
      EndsHere(Decides(w, g, t, attempt, next, batch), attempt);
      assert SeenFinal(w, w[g].status, w[g].attempt);
    } else {
      PollsStopLast(w, t, attempt, next, batch);
    }
  }

  // The main result on what the handler sends, under the documented write order:
  // every line of the attempts from `start` to the last, and nothing else, with
  // the text persisted.
  lemma FollowedLogIsComplete(w: seq<World>, start: nat, fromSeq: nat, batch: nat, k: LineKey, text: string)
    requires Grows(w) && InOrder(w) && NoneLate(w) && Advances(w) && fromSeq >= 1
    requires w != [] && start <= w[0].attempt
    requires Completed(Polls(w, 0, start, fromSeq, batch))
    ensures var acts, last := Polls(w, 0, start, fromSeq, batch), w[|w| - 1];
            LineSent(Sent(w, batch, acts), k, text) <==>
              k in last.lines && last.lines[k] == text && Ahead(start, fromSeq, k) && k.attempt <= acts[|acts| - 1].attempt
  {
    var acts := Polls(w, 0, start, fromSeq, batch);
    OrderedStreamIsExact(w, start, fromSeq, batch);
    PollsStopLast(w, 0, start, fromSeq, batch);
    SentIsEmitted(w, batch, acts, k, text);
  }
}
