// When the log stream is complete, in terms of what the workers write alone:
// exactly when every attempt's lines are committed in order and before the run
// is past the attempt.
module Completeness {
  import opened LogPages
  import opened Stream
  import opened StreamProofs

  // The states the database goes through, as far as one run and its log are
  // concerned: logs grow, attempts advance, only attempts reached so far have
  // lines, and once the run is final its row stays.
  ghost predicate Life(h: seq<World>) {
    && h != [] && IsFinal(h[|h| - 1].status)
    && Grows(h) && Advances(h)
    && (forall i, k | 0 <= i < |h| && k in h[i].lines :: 1 <= k.attempt <= h[i].attempt)
    && forall i, j | 0 <= i <= j < |h| && IsFinal(h[i].status) :: h[j].attempt == h[i].attempt
  }

  // w is what a stream's reads may see of h: state f[i] at read i, never going back.
  ghost predicate Samples(h: seq<World>, w: seq<World>, f: seq<nat>) {
    && |f| == |w|
    && (forall i | 0 <= i < |w| :: f[i] < |h| && w[i] == h[f[i]])
    && forall i, j | 0 <= i <= j < |w| :: f[i] <= f[j]
  }

  // A request the handler accepts.
  ghost predicate Asked(w: seq<World>, start: nat, fromSeq: nat) {
    w != [] && 1 <= start <= w[0].attempt && fromSeq >= 1
  }

  // However its reads fall, a stream that reaches its end has sent exactly the
  // lines that are persisted in the end, from its cursor on.
  ghost predicate EveryStreamExact(h: seq<World>, batch: nat)
    requires h != []
  {
    forall w, f: seq<nat>, start, fromSeq |
      Samples(h, w, f) && Asked(w, start, fromSeq) && Completed(Polls(w, 0, start, fromSeq, batch)) ::
      Exact(Polls(w, 0, start, fromSeq, batch), start, fromSeq, h[|h| - 1])
  }

  // ---- Writes in order and in time suffice ----

  // Reads after the end change nothing.
  lemma {:induction false} PollsMore(w: seq<World>, x: World, t: nat, attempt: nat, next: nat, batch: nat)
    requires Completed(Polls(w, t, attempt, next, batch))
    ensures Polls(w + [x], t, attempt, next, batch) == Polls(w, t, attempt, next, batch)
    decreases |w| - t, 1
  {
    if t < |w| {
      PagesMore(w, x, t, t + 1, attempt, next, batch);
    }
  }

  lemma {:induction false} PagesMore(w: seq<World>, x: World, g: nat, t: nat, attempt: nat, next: nat, batch: nat)
    requires g < t && g < |w| && Completed(Pages(w, g, t, attempt, next, batch))
    ensures Pages(w + [x], g, t, attempt, next, batch) == Pages(w, g, t, attempt, next, batch)
    decreases |w| - t, 0
  {
    if t < |w| {
      var p := PageOf(w[t].Seqs(attempt), next, batch);
      var hi := NextSeq(next, p);
      var acts := Pages(w, g, t, attempt, next, batch);
      if |p| < batch {
        assert acts[1..] == Decides(w, g, t + 1, attempt, hi, batch);
        DecidesMore(w, x, g, t + 1, attempt, hi, batch);
      } else {
        assert acts[1..] == Pages(w, g, t + 1, attempt, hi, batch);
        PagesMore(w, x, g, t + 1, attempt, hi, batch);
      }
    }
  }

  lemma {:induction false} DecidesMore(w: seq<World>, x: World, g: nat, t: nat, attempt: nat, next: nat, batch: nat)
    requires g < t && g < |w| && Completed(Decides(w, g, t, attempt, next, batch))
    ensures Decides(w + [x], g, t, attempt, next, batch) == Decides(w, g, t, attempt, next, batch)
    decreases |w| - t, 2
  {
    if attempt < w[g].attempt {
      assert Decides(w, g, t, attempt, next, batch)[1..] == Polls(w, t, attempt + 1, 1, batch);
      PollsMore(w, x, t, attempt + 1, 1, batch);
    } else if !IsFinal(w[g].status) {
      PollsMore(w, x, t, attempt, next, batch);
    }
  }

  // What holds between any two states of h holds between any two read.
  lemma SamplesKeep(h: seq<World>, w: seq<World>, f: seq<nat>)
    requires h != [] && Grows(h) && InOrder(h) && NoneLate(h) && Samples(h, w, f)
    ensures var all := w + [h[|h| - 1]]; Grows(all) && InOrder(all) && NoneLate(all)
  {
    hide Extends, AddsInOrder, AddsNoneLate;
    var all, g := w + [h[|h| - 1]], f + [|h| - 1];
    assert forall i | 0 <= i < |all| :: g[i] < |h| && all[i] == h[g[i]];
    assert forall i, j | 0 <= i <= j < |all| :: g[i] <= g[j];
  }

  lemma TimelyIsExact(h: seq<World>, batch: nat, w: seq<World>, f: seq<nat>, start: nat, fromSeq: nat)
    requires h != [] && Grows(h) && InOrder(h) && NoneLate(h)
    requires Samples(h, w, f) && fromSeq >= 1 && Completed(Polls(w, 0, start, fromSeq, batch))
    ensures Exact(Polls(w, 0, start, fromSeq, batch), start, fromSeq, h[|h| - 1])
  {
    SamplesKeep(h, w, f);
    PollsMore(w, h[|h| - 1], 0, start, fromSeq, batch);
    hide Grows, InOrder, NoneLate, Samples, Exact, Polls;
    OrderedStreamIsExact(w + [h[|h| - 1]], start, fromSeq, batch);
  }

  // ---- A stream whose run is over comes to its end ----

  function Times(last: World, n: nat): (r: seq<World>)
    ensures |r| == n && forall i | 0 <= i < n :: r[i] == last
  {
    seq(n, _ => last)
  }

  lemma TimesOneLess(pre: seq<World>, last: World, n: nat)
    ensures pre + Times(last, n + 1) == pre + [last] + Times(last, n)
  {
  }

  // From the poll loop, reading `last` as often as it takes.
  lemma {:induction false} PollsComplete(last: World, pre: seq<World>, attempt: nat, next: nat, batch: nat) returns (n: nat)
    requires IsFinal(last.status) && attempt <= last.attempt && batch >= 1
    ensures Completed(Polls(pre + Times(last, n), |pre|, attempt, next, batch))
    decreases last.attempt - attempt, 1, 0
  {
    var m := PagesComplete(last, pre + [last], |pre|, attempt, next, batch);
    n := m + 1;
    TimesOneLess(pre, last, m);
  }

  lemma PageFirst(w: seq<World>, g: nat, t: nat, attempt: nat, next: nat, batch: nat)
    requires g < t < |w|
    ensures var p := PageOf(w[t].Seqs(attempt), next, batch);
            var rest := if |p| < batch then Decides(w, g, t + 1, attempt, NextSeq(next, p), batch)
                        else Pages(w, g, t + 1, attempt, NextSeq(next, p), batch);
            Completed(rest) ==> Completed(Pages(w, g, t, attempt, next, batch))
  {
  }

  lemma StopFirst(w: seq<World>, g: nat, t: nat, attempt: nat, next: nat, batch: nat)
    requires g < t && g < |w| && attempt >= w[g].attempt && IsFinal(w[g].status)
    ensures Completed(Decides(w, g, t, attempt, next, batch))
  {
  }

  lemma MoveFirst(w: seq<World>, g: nat, t: nat, attempt: nat, next: nat, batch: nat)
    requires g < t && g < |w| && attempt < w[g].attempt && Completed(Polls(w, t, attempt + 1, 1, batch))
    ensures Completed(Decides(w, g, t, attempt, next, batch))
  {
  }

  // From the page loop, the run last read as `last`.
  lemma {:induction false} PagesComplete(last: World, pre: seq<World>, g: nat, attempt: nat, next: nat, batch: nat) returns (n: nat)
    requires IsFinal(last.status) && attempt <= last.attempt && batch >= 1 && g < |pre| && pre[g] == last
    ensures Completed(Pages(pre + Times(last, n), g, |pre|, attempt, next, batch))
    decreases last.attempt - attempt, 0, |From(last.Seqs(attempt), next)|
  {
    hide Polls, Pages, Decides, Completed, From;
    var p := PageOf(last.Seqs(attempt), next, batch);
    var hi := NextSeq(next, p);
    var m: nat;
    assert p == [] ==> |p| < batch;
    if |p| == batch {
      PageLeavesFewer(last.Seqs(attempt), next, batch, p);
      m := PagesComplete(last, pre + [last], g, attempt, hi, batch);
    } else if attempt < last.attempt {
      m := PollsComplete(last, pre + [last], attempt + 1, 1, batch);
      MoveFirst(pre + [last] + Times(last, m), g, |pre| + 1, attempt, hi, batch);
    } else {
      m := 0;
      StopFirst(pre + [last] + Times(last, m), g, |pre| + 1, attempt, hi, batch);
    }
    n := m + 1;
    TimesOneLess(pre, last, m);
    PageFirst(pre + Times(last, n), g, |pre|, attempt, next, batch);
  }

  // From the page loop, whatever the run was when it was read.
  lemma {:induction false} StaleComplete(last: World, pre: seq<World>, g: nat, attempt: nat, next: nat, batch: nat) returns (n: nat)
    requires IsFinal(last.status) && attempt <= last.attempt && batch >= 1
    requires g < |pre| && pre[g].attempt <= last.attempt
    ensures Completed(Pages(pre + Times(last, n), g, |pre|, attempt, next, batch))
    decreases |From(last.Seqs(attempt), next)|
  {
    hide Polls, Pages, Decides, Completed, From;
    var p := PageOf(last.Seqs(attempt), next, batch);
    var hi := NextSeq(next, p);
    var m: nat;
    assert p == [] ==> |p| < batch;
    if |p| == batch {
      PageLeavesFewer(last.Seqs(attempt), next, batch, p);
      m := StaleComplete(last, pre + [last], g, attempt, hi, batch);
    } else {
      m := StaleDecides(last, pre + [last], g, attempt, hi, batch);
    }
    n := m + 1;
    TimesOneLess(pre, last, m);
    PageFirst(pre + Times(last, n), g, |pre|, attempt, next, batch);
  }

  lemma StaleDecides(last: World, pre: seq<World>, g: nat, attempt: nat, next: nat, batch: nat) returns (n: nat)
    requires IsFinal(last.status) && attempt <= last.attempt && batch >= 1
    requires g < |pre| && pre[g].attempt <= last.attempt
    ensures Completed(Decides(pre + Times(last, n), g, |pre|, attempt, next, batch))
  {
    if attempt < pre[g].attempt {
      n := PollsComplete(last, pre, attempt + 1, 1, batch);
      MoveFirst(pre + Times(last, n), g, |pre|, attempt, next, batch);
    } else if IsFinal(pre[g].status) {
      n := 0;
    } else {
      n := PollsComplete(last, pre, attempt, next, batch);
    }
  }

  // A stream that comes to its end does so at the run's last attempt.
  lemma EndsOnLast(h: seq<World>, w: seq<World>, f: seq<nat>, start: nat, fromSeq: nat, batch: nat)
    requires Life(h) && Samples(h, w, f) && Asked(w, start, fromSeq) && Completed(Polls(w, 0, start, fromSeq, batch))
    ensures LastAttempt(Polls(w, 0, start, fromSeq, batch), start) == h[|h| - 1].attempt
  {
    hide Grows, Polls, LastAttempt;
    PollsStopLast(w, 0, start, fromSeq, batch);
    var n := LastAttempt(Polls(w, 0, start, fromSeq, batch), start);
    var g :| 0 <= g < |w| && w[g].attempt == n && IsFinal(w[g].status);
    assert h[|h| - 1].attempt == h[f[g]].attempt;
  }

  // ---- Any other write is missed by some stream ----

  // Line k comes after state a, although a has the run past k's attempt, or a
  // later line of it.
  ghost predicate Behind(a: World, k: LineKey) {
    && k !in a.lines
    && (IsOver(a, k.attempt) || exists prev :: prev in a.lines && prev.attempt == k.attempt && k.seqNo < prev.seqNo)
  }

  // A stream that reads a twice, from k on, settles k without finding it.
  lemma FirstPageSettles(w: seq<World>, a: World, k: LineKey, batch: nat)
    requires |w| >= 2 && w[0] == w[1] == a && Behind(a, k) && batch >= 1
    ensures var acts := Polls(w, 0, k.attempt, k.seqNo, batch);
            acts != [] && Settles(acts[0], k) && !Found(acts[0], k)
  {
    var keys := a.Seqs(k.attempt);
    var p := PageOf(keys, k.seqNo, batch);
    assert k == LineKey(k.attempt, k.seqNo);
    assert k.seqNo !in keys;
    PageWithin(keys, k.seqNo, batch, p);
    assert p != [] ==> p[|p| - 1] in p;
    forall prev | prev in a.lines && prev.attempt == k.attempt && k.seqNo < prev.seqNo ensures p != [] {
      assert prev == LineKey(k.attempt, prev.seqNo);
      assert prev.seqNo in keys;
    }
    assert Polls(w, 0, k.attempt, k.seqNo, batch) == Pages(w, 0, 1, k.attempt, k.seqNo, batch);
  }

  lemma SettledIsNotEmitted(w: seq<World>, start: nat, fromSeq: nat, batch: nat, k: LineKey)
    requires Grows(w) && k.seqNo >= 1
    requires var acts := Polls(w, 0, start, fromSeq, batch); acts != [] && Settles(acts[0], k) && !Found(acts[0], k)
    ensures !Emitted(Polls(w, 0, start, fromSeq, batch), k)
  {
    var acts := Polls(w, 0, start, fromSeq, batch);
    PollsChained(w, 0, start, fromSeq, batch);
    hide Polls, Grows, Settles, Found, Chained;
    forall j | 0 <= j < |acts| ensures !Found(acts[j], k) {
      if j > 0 {
        SettledOnce(acts, start, fromSeq, false, 0, j, k);
        if Found(acts[j], k) {
          FoundIsSettled(w, batch, acts, start, fromSeq, j, k);
        }
      }
    }
  }

  lemma AttemptReached(h: seq<World>, i: nat, k: LineKey)
    requires Life(h) && i < |h| && k in h[|h| - 1].lines && Behind(h[i], k)
    ensures 1 <= k.attempt <= h[i].attempt <= h[|h| - 1].attempt && k.seqNo >= 1
  {
    assert Extends(h[|h| - 1], h[|h| - 1]);
    assert h[i].attempt <= h[|h| - 1].attempt;
  }

  lemma SamplesGrow(h: seq<World>, w: seq<World>, f: seq<nat>)
    requires Grows(h) && Samples(h, w, f)
    ensures Grows(w)
  {
    hide Extends;
  }

  // Reading state i twice, and then the last one as often as it takes.
  lemma StaleThenLast(h: seq<World>, i: nat, n: nat) returns (w: seq<World>, f: seq<nat>)
    requires i < |h|
    ensures w == [h[i], h[i]] + Times(h[|h| - 1], n) && Samples(h, w, f)
  {
    w := [h[i], h[i]] + Times(h[|h| - 1], n);
    f := [i, i] + seq(n, _ => |h| - 1);
  }

  lemma StaleReadsComplete(a: World, last: World, attempt: nat, next: nat, batch: nat) returns (n: nat)
    requires IsFinal(last.status) && attempt <= a.attempt <= last.attempt && batch >= 1
    ensures Completed(Polls([a, a] + Times(last, n), 0, attempt, next, batch))
  {
    var p := PageOf(a.Seqs(attempt), next, batch);
    var hi := NextSeq(next, p);
    hide Pages, Decides, IsPage;
    if |p| < batch {
      n := StaleDecides(last, [a, a], 0, attempt, hi, batch);
    } else {
      n := StaleComplete(last, [a, a], 0, attempt, hi, batch);
    }
    PageFirst([a, a] + Times(last, n), 0, 1, attempt, next, batch);
  }

  // A line that comes behind is missed by some stream that reads h as it goes.
  lemma BehindIsMissed(h: seq<World>, i: nat, k: LineKey, batch: nat) returns (w: seq<World>, f: seq<nat>)
    requires Life(h) && batch >= 1 && i < |h| && k in h[|h| - 1].lines && Behind(h[i], k)
    ensures Samples(h, w, f) && Asked(w, k.attempt, k.seqNo)
    ensures Completed(Polls(w, 0, k.attempt, k.seqNo, batch))
    ensures !Emitted(Polls(w, 0, k.attempt, k.seqNo, batch), k)
    ensures !Exact(Polls(w, 0, k.attempt, k.seqNo, batch), k.attempt, k.seqNo, h[|h| - 1])
  {
    AttemptReached(h, i, k);
    var n := StaleReadsComplete(h[i], h[|h| - 1], k.attempt, k.seqNo, batch);
    w, f := StaleThenLast(h, i, n);
    SamplesGrow(h, w, f);
    hide Polls, Grows, Samples, Behind, Chained, Settles, Found;
    FirstPageSettles(w, h[i], k, batch);
    SettledIsNotEmitted(w, k.attempt, k.seqNo, batch, k);
    LastIsLater(Polls(w, 0, k.attempt, k.seqNo, batch), k.attempt);
    hide Completed, Emitted;
    assert Ahead(k.attempt, k.seqNo, k);
  }

  lemma UntimelyIsBehind(h: seq<World>) returns (i: nat, k: LineKey)
    requires Life(h) && !(InOrder(h) && NoneLate(h))
    ensures i < |h| && k in h[|h| - 1].lines && Behind(h[i], k)
  {
    var j: nat;
    if !InOrder(h) {
      i, j :| 0 <= i <= j < |h| && !AddsInOrder(h[i], h[j]);
      var prev: LineKey;
      k, prev :| k in h[j].lines && k !in h[i].lines && prev in h[i].lines && prev.attempt == k.attempt && prev.seqNo >= k.seqNo;
      assert k == LineKey(k.attempt, k.seqNo) && prev == LineKey(k.attempt, prev.seqNo);
    } else {
      i, j :| 0 <= i <= j < |h| && !AddsNoneLate(h[i], h[j]);
      k :| k in h[j].lines && IsOver(h[i], k.attempt) && k !in h[i].lines;
    }
    assert Extends(h[j], h[|h| - 1]);
  }

  // What the handler's comment claims, and exactly when it is so: every stream of
  // a run, whenever it is opened and however it is interleaved with the workers,
  // is exact if and only if each attempt's lines are committed in seq order and
  // before the run is past the attempt.
  lemma ExactIffTimely(h: seq<World>, batch: nat)
    requires Life(h) && batch >= 1
    ensures InOrder(h) && NoneLate(h) <==> EveryStreamExact(h, batch)
  {
    hide Polls, InOrder, NoneLate, Exact, Samples, Completed;
    if InOrder(h) && NoneLate(h) {
      forall w, f: seq<nat>, start, fromSeq |
        Samples(h, w, f) && Asked(w, start, fromSeq) && Completed(Polls(w, 0, start, fromSeq, batch))
        ensures Exact(Polls(w, 0, start, fromSeq, batch), start, fromSeq, h[|h| - 1])
      {
        TimelyIsExact(h, batch, w, f, start, fromSeq);
      }
    } else {
      var i, k := UntimelyIsBehind(h);
      var w, f := BehindIsMissed(h, i, k, batch);
    }
  }
}
