// When jobctl's page-by-page print is the current attempt's log: exactly if the
// run does not change its attempt under it.
module PrintedLog {
  import opened Basics
  import opened LogPages

  // Every line of the attempt the run is on when the print begins, in order, and
  // nothing else.
  ghost predicate PrintsLog(lines: map<LogKey, LogLine>, run: RunId, current: nat -> nat, limit: nat)
    requires limit >= 1
  {
    exists p :: IsWhole(SeqsOf(lines, run, current(0)), 1, p) && Printed(lines, run, current, 0, 1, limit) == KeysOf(run, current(0), p)
  }

  lemma KeysBoth(run: RunId, attempt: nat, a: seq<nat>, b: seq<nat>)
    ensures KeysOf(run, attempt, a + b) == KeysOf(run, attempt, a) + KeysOf(run, attempt, b)
  {
  }

  // With the attempt unchanged, the pages add up.
  lemma {:induction false} SameAttemptPrints(lines: map<LogKey, LogLine>, run: RunId, current: nat -> nat, i: nat, from: nat,
                                             limit: nat, done: seq<nat>) returns (p: seq<nat>)
    requires limit >= 1 && from >= 1 && forall j :: current(j) == current(0)
    requires IsRange(SeqsOf(lines, run, current(0)), 1, from, done)
    ensures IsWhole(SeqsOf(lines, run, current(0)), 1, p)
    ensures KeysOf(run, current(0), done) + Printed(lines, run, current, i, from, limit) == KeysOf(run, current(0), p)
    decreases |RowsFrom(lines, from)|
  {
    var keys := SeqsOf(lines, run, current(0));
    assert current(i) == current(0);
    var page := PageOf(keys, from, limit);
    PageExtends(keys, 1, from, limit, done, page);
    PrintedPage(lines, run, current, i, from, limit, page);
    KeysBoth(run, current(0), done, page);
    p := done + page;
    if |page| == limit {
      FewerRows(lines, run, current(0), from, limit, page);
      p := SameAttemptPrints(lines, run, current, i + 1, NextSeq(from, page), limit, done + page);
      Regroup(KeysOf(run, current(0), done), KeysOf(run, current(0), page),
              Printed(lines, run, current, i + 1, NextSeq(from, page), limit));
    }
  }

  // ---- A change of attempt ----

  // Lines from one page's start that take n full pages and one more line.
  function Needed(limit: nat, n: nat): nat {
    if n == 0 then 1 else limit + Needed(limit, n - 1)
  }

  // An attempt that logged m lines, and no other line.
  function LongLog(run: RunId, attempt: nat, m: nat): map<LogKey, LogLine> {
    map q | 1 <= q <= m :: LogKey(run, attempt, q) := LogLine(attempt, q, 0, "info", "")
  }

  lemma SeqsOfLong(run: RunId, attempt: nat, m: nat, other: nat)
    ensures forall q :: q in SeqsOf(LongLog(run, attempt, m), run, attempt) <==> 1 <= q <= m
    ensures other != attempt ==> SeqsOf(LongLog(run, attempt, m), run, other) == {}
  {
    var lines := LongLog(run, attempt, m);
    forall q | 1 <= q <= m ensures q in SeqsOf(lines, run, attempt) {
      assert LogKey(run, attempt, q) in lines;
    }
  }

  function UpFrom(from: nat, n: nat): (p: seq<nat>)
    ensures |p| == n
  {
    seq(n, i requires i >= 0 => from + i)
  }

  lemma FullPage(keys: set<nat>, from: nat, limit: nat, m: nat)
    requires limit >= 1 && 1 <= from && from + limit <= m && forall q :: q in keys <==> 1 <= q <= m
    ensures IsPage(keys, from, limit, UpFrom(from, limit)) && NextSeq(from, UpFrom(from, limit)) == from + limit
  {
    var p := UpFrom(from, limit);
    forall k | from <= k < from + limit ensures k in p {
      assert p[k - from] == k;
    }
  }

  lemma NotOnPage(run: RunId, attempt: nat, from: nat, limit: nat, m: nat)
    ensures m >= from + limit ==> LogKey(run, attempt, m) !in KeysOf(run, attempt, UpFrom(from, limit))
    ensures forall other :: KeysOf(run, other, []) == []
  {
  }

  // Request n is about another attempt, all before it about the first: they print
  // full pages, and nobody prints the last line.
  lemma {:induction false} ChangeMissesLast(run: RunId, current: nat -> nat, i: nat, n: nat, from: nat, limit: nat, m: nat)
    requires limit >= 1 && from >= 1 && i <= n && m == from - 1 + Needed(limit, n - i)
    requires current(n) != current(0) && forall j | 0 <= j < n :: current(j) == current(0)
    ensures LogKey(run, current(0), m) !in Printed(LongLog(run, current(0), m), run, current, i, from, limit)
    decreases n - i
  {
    hide LongLog, SeqsOf, KeysOf, UpFrom, NextSeq;
    var lines := LongLog(run, current(0), m);
    NotOnPage(run, current(0), from, limit, m);
    if i == n {
      SeqsOfLong(run, current(0), m, current(n));
      PrintedPage(lines, run, current, i, from, limit, []);
    } else {
      SeqsOfLong(run, current(0), m, current(0));
      assert Needed(limit, n - i) == limit + Needed(limit, n - (i + 1));
      NeededIsPositive(limit, n - (i + 1));
      FullPage(SeqsOf(lines, run, current(0)), from, limit, m);
      PrintedPage(lines, run, current, i, from, limit, UpFrom(from, limit));
      ChangeMissesLast(run, current, i + 1, n, from + limit, limit, m);
    }
  }

  lemma {:induction false} NeededIsPositive(limit: nat, n: nat)
    ensures Needed(limit, n) >= 1
  {
    if n > 0 {
      NeededIsPositive(limit, n - 1);
    }
  }

  lemma {:induction false} FirstChange(current: nat -> nat, n: nat) returns (m: nat)
    requires current(n) != current(0)
    ensures m <= n && current(m) != current(0) && forall j | 0 <= j < m :: current(j) == current(0)
    decreases n
  {
    m := n;
    if j :| 0 <= j < n && current(j) != current(0) {
      m := FirstChange(current, j);
    }
  }

  lemma WholeHasLast(lines: map<LogKey, LogLine>, run: RunId, current: nat -> nat, limit: nat, m: nat)
    requires limit >= 1 && PrintsLog(lines, run, current, limit) && m >= 1 && m in SeqsOf(lines, run, current(0))
    ensures LogKey(run, current(0), m) in Printed(lines, run, current, 0, 1, limit)
  {
    var p :| IsWhole(SeqsOf(lines, run, current(0)), 1, p)
             && Printed(lines, run, current, 0, 1, limit) == KeysOf(run, current(0), p);
    assert m in p;
    var i :| 0 <= i < |p| && p[i] == m;
    assert KeysOf(run, current(0), p)[i] == LogKey(run, current(0), m);
  }

  // What the client's comment claims, and exactly when it is so: whatever the
  // attempts logged, the print is the log of the attempt the run was on, if and
  // only if every request finds the run on that attempt.
  lemma PrintsLogIffSameAttempt(run: RunId, current: nat -> nat, limit: nat)
    requires limit >= 1
    ensures (forall i :: current(i) == current(0)) <==> forall lines :: PrintsLog(lines, run, current, limit)
  {
    hide PrintsLog, Printed, IsWhole;
    if forall i :: current(i) == current(0) {
      forall lines: map<LogKey, LogLine> ensures PrintsLog(lines, run, current, limit) {
        SamePrintsLog(lines, run, current, limit);
      }
    } else {
      var i :| current(i) != current(0);
      var n := FirstChange(current, i);
      var m := Needed(limit, n);
      var lines := LongLog(run, current(0), m);
      ChangeMissesLast(run, current, 0, n, 1, limit, m);
      NeededIsPositive(limit, n);
      SeqsOfLong(run, current(0), m, current(0));
      if PrintsLog(lines, run, current, limit) {
        WholeHasLast(lines, run, current, limit, m);
      }
    }
  }

  lemma SamePrintsLog(lines: map<LogKey, LogLine>, run: RunId, current: nat -> nat, limit: nat)
    requires limit >= 1 && forall i :: current(i) == current(0)
    ensures PrintsLog(lines, run, current, limit)
  {
    assert IsRange(SeqsOf(lines, run, current(0)), 1, 1, []);
    var p := SameAttemptPrints(lines, run, current, 0, 1, limit, []);
    assert KeysOf(run, current(0), []) == [];
  }

  // An attempt that logged less than a page is printed whole, whatever happens
  // to the run.
  lemma ShortLogPrints(lines: map<LogKey, LogLine>, run: RunId, current: nat -> nat, limit: nat)
    requires limit >= 1 && |SeqsOf(lines, run, current(0))| < limit
    ensures PrintsLog(lines, run, current, limit)
  {
    var keys := SeqsOf(lines, run, current(0));
    var page := PageOf(keys, 1, limit);
    assert IsRange(keys, 1, 1, []);
    PageExtends(keys, 1, 1, limit, [], page);
    assert [] + page == page;
    assert Elems(page) <= keys;
    IncreasingSize(page);
    SubsetSize(Elems(page), keys);
    PrintedPage(lines, run, current, 0, 1, limit, page);
  }

  lemma IncreasingSize(p: seq<nat>)
    requires Increasing(p)
    ensures |Elems(p)| == |p|
  {
    NoDupSize(p);
  }
}
