// The job_logs table: batches in, ordered pages out.
module LogPages {
  import opened Basics

  datatype LogLine = LogLine(attempt: nat, seqNo: nat, ts: Time, level: string, line: string)

  datatype LogKey = LogKey(run: RunId, attempt: nat, seqNo: nat)

  predicate Increasing(p: seq<nat>) {
    forall i, j | 0 <= i < j < |p| :: p[i] < p[j]
  }

  // ORDER BY seq LIMIT n over the rows with seq >= from: at most n of them,
  // ascending, and a row is left out only by a full page of smaller ones.
  ghost predicate IsPage(keys: set<nat>, from: nat, limit: nat, p: seq<nat>) {
    && |p| <= limit
    && Increasing(p)
    && (forall k | k in p :: k in keys && from <= k)
    && forall k | k in keys && from <= k && k !in p :: |p| == limit && forall x | x in p :: x < k
  }

  // Every key from `from` on, in order.
  ghost predicate IsWhole(keys: set<nat>, from: nat, p: seq<nat>) {
    Increasing(p) && forall k :: k in p <==> k in keys && from <= k
  }

  // Every key from lo up to, not including, hi, in order.
  ghost predicate IsRange(keys: set<nat>, lo: nat, hi: nat, p: seq<nat>) {
    Increasing(p) && forall k :: k in p <==> k in keys && lo <= k < hi
  }

  lemma {:induction false} WholeIsUnique(keys: set<nat>, from: nat, p: seq<nat>, q: seq<nat>)
    requires IsWhole(keys, from, p) && IsWhole(keys, from, q)
    ensures p == q
    decreases |p|
  {
    EmptyTogether(p, q);
    if p != [] {
      assert p[0] in q && q[0] in p;
      Tail(keys, from, p);
      Tail(keys, from, q);
      WholeIsUnique(keys, p[0] + 1, p[1..], q[1..]);
      assert p == [p[0]] + p[1..] && q == [q[0]] + q[1..];
    }
  }

  lemma EmptyTogether(p: seq<nat>, q: seq<nat>)
    requires forall k :: k in p <==> k in q
    ensures p == [] <==> q == []
  {
    if p != [] {
      assert p[0] in q;
    }
    if q != [] {
      assert q[0] in p;
    }
  }

  lemma Tail(keys: set<nat>, from: nat, p: seq<nat>)
    requires IsWhole(keys, from, p) && p != []
    ensures IsWhole(keys, p[0] + 1, p[1..])
  {
    assert p == [p[0]] + p[1..];
    assert p[0] in p;
    assert forall k :: k in p <==> k == p[0] || k in p[1..];
    assert forall k | k in p[1..] :: p[0] < k;
  }

  // Where the next page starts: next_seq.
  function NextSeq(from: nat, p: seq<nat>): nat {
    if p == [] then from else p[|p| - 1] + 1
  }

  // A page carries what was read so far up to next_seq, and a short page to the end.
  lemma PageExtends(keys: set<nat>, lo: nat, from: nat, limit: nat, done: seq<nat>, p: seq<nat>)
    requires lo <= from && IsRange(keys, lo, from, done) && IsPage(keys, from, limit, p)
    ensures from <= NextSeq(from, p) && IsRange(keys, lo, NextSeq(from, p), done + p)
    ensures |p| < limit ==> IsWhole(keys, lo, done + p)
  {
    assert forall i | 0 <= i < |p| :: p[i] in p;
    assert forall i | 0 <= i < |done| :: done[i] in done;
    assert forall k :: k in done + p <==> k in done || k in p;
    var all := done + p;
    forall i, j | 0 <= i < j < |all| ensures all[i] < all[j] {
      if i < |done| <= j {
        assert all[j] == p[j - |done|];
      }
    }
  }

  // A page is all there is to know of the query: two cannot differ.
  lemma {:induction false} PageIsUnique(keys: set<nat>, from: nat, limit: nat, p: seq<nat>, q: seq<nat>)
    requires IsPage(keys, from, limit, p) && IsPage(keys, from, limit, q)
    ensures p == q
    decreases |p|
  {
    if q != [] {
      NonEmptyPage(keys, from, limit, q, p);
    }
    if p != [] {
      NonEmptyPage(keys, from, limit, p, q);
      assert p[0] in p && q[0] in q;
      PageTail(keys, from, limit, p);
      PageTail(keys, from, limit, q);
      PageIsUnique(keys, p[0] + 1, limit - 1, p[1..], q[1..]);
      assert p == [p[0]] + p[1..] && q == [q[0]] + q[1..];
    }
  }

  lemma NonEmptyPage(keys: set<nat>, from: nat, limit: nat, p: seq<nat>, q: seq<nat>)
    requires IsPage(keys, from, limit, p) && IsPage(keys, from, limit, q) && p != []
    ensures q != []
  {
    assert p[0] in p;
    assert p[0] !in q ==> |q| == limit;
  }

  lemma PageTail(keys: set<nat>, from: nat, limit: nat, p: seq<nat>)
    requires IsPage(keys, from, limit, p) && p != []
    ensures IsPage(keys, p[0] + 1, limit - 1, p[1..])
    ensures forall k | k in keys && from <= k :: p[0] <= k
  {
    assert p == [p[0]] + p[1..];
    assert p[0] in p;
    assert forall k :: k in p <==> k == p[0] || k in p[1..];
    assert forall k | k in p[1..] :: p[0] < k;
  }

  // Some page always exists.
  lemma {:induction false} PageExists(keys: set<nat>, from: nat, limit: nat)
    ensures exists p :: IsPage(keys, from, limit, p)
    decreases limit
  {
    var rest := From(keys, from);
    assert forall k | k in keys && from <= k :: k in rest;
    if limit == 0 || rest == {} {
      assert IsPage(keys, from, limit, []);
    } else {
      var m := LeastOf(rest);
      PageExists(keys, m + 1, limit - 1);
      var q :| IsPage(keys, m + 1, limit - 1, q);
      assert forall k :: k in [m] + q <==> k == m || k in q;
      assert forall i | 0 <= i < |q| :: q[i] in q;
      assert IsPage(keys, from, limit, [m] + q);
    }
  }

  lemma {:induction false} LeastOf(s: set<nat>) returns (m: nat)
    requires s != {}
    ensures m in s && forall x | x in s :: m <= x
    decreases |s|
  {
    m :| m in s;
    if s != {m} {
      assert s - {m} != {};
      var n := LeastOf(s - {m});
      assert forall x | x in s :: x == m || x in s - {m};
      if n < m {
        m := n;
      }
    }
  }

  // The page such a query returns.
  ghost function PageOf(keys: set<nat>, from: nat, limit: nat): (p: seq<nat>)
    ensures IsPage(keys, from, limit, p)
  {
    PageExists(keys, from, limit);
    var p :| IsPage(keys, from, limit, p);
    p
  }

  function SeqsOf(lines: map<LogKey, LogLine>, run: RunId, attempt: nat): set<nat> {
    set k | k in lines && k.run == run && k.attempt == attempt :: k.seqNo
  }

  // INSERT ... ON CONFLICT DO NOTHING, line by line.
  function Appended(lines: map<LogKey, LogLine>, run: RunId, attempt: nat, batch: seq<LogLine>): map<LogKey, LogLine> {
    if batch == [] then lines
    else
      var last := batch[|batch| - 1];
      var sofar := Appended(lines, run, attempt, batch[..|batch| - 1]);
      var key := LogKey(run, attempt, last.seqNo);
      if key in sofar then sofar else sofar[key := last]
  }

  // Rows stay as they are; the new ones are the batch's, under its run and attempt.
  ghost predicate Appends(before: map<LogKey, LogLine>, after: map<LogKey, LogLine>, run: RunId, attempt: nat, batch: seq<LogLine>) {
    && (forall k | k in before :: k in after && after[k] == before[k])
    && (forall k | k in after && k !in before ::
          k.run == run && k.attempt == attempt && after[k] in batch && after[k].seqNo == k.seqNo)
    && forall l | l in batch :: LogKey(run, attempt, l.seqNo) in after
  }

  lemma {:induction false} AppendedIs(lines: map<LogKey, LogLine>, run: RunId, attempt: nat, batch: seq<LogLine>)
    ensures Appends(lines, Appended(lines, run, attempt, batch), run, attempt, batch)
  {
    if batch != [] {
      AppendedIs(lines, run, attempt, batch[..|batch| - 1]);
    }
  }

  class LogTable {
    var lines: map<LogKey, LogLine>

    ghost predicate Valid()
      reads this
    {
      forall k | k in lines :: lines[k].attempt == k.attempt && lines[k].seqNo == k.seqNo
    }

    constructor ()
      ensures Valid() && lines == map[]
    {
      lines := map[];
    }

    function Seqs(run: RunId, attempt: nat): set<nat>
      reads this
    {
      SeqsOf(lines, run, attempt)
    }

    // AppendLogs: ON CONFLICT DO NOTHING keeps the row that is already there.
    method AppendLogs(run: RunId, attempt: nat, batch: seq<LogLine>)
      requires Valid() && forall l | l in batch :: l.attempt == attempt
      modifies this`lines
      ensures Valid() && lines == Appended(old(lines), run, attempt, batch)
      ensures Appends(old(lines), lines, run, attempt, batch)
      ensures (forall i, j | 0 <= i < j < |batch| :: batch[i].seqNo != batch[j].seqNo) ==>
              forall l | l in batch && LogKey(run, attempt, l.seqNo) !in old(lines) ::
                lines[LogKey(run, attempt, l.seqNo)] == l
    {
      var i := 0;
      while i < |batch|
        invariant 0 <= i <= |batch|
        invariant Valid() && lines == Appended(old(lines), run, attempt, batch[..i])
      {
        assert batch[..i + 1][..i] == batch[..i];
        var key := LogKey(run, attempt, batch[i].seqNo);
        if key !in lines {
          lines := lines[key := batch[i]];
        }
        i := i + 1;
      }
      assert batch[..|batch|] == batch;
      AppendedIs(old(lines), run, attempt, batch);
    }

    // ListLogs.
    method ListLogs(run: RunId, attempt: nat, from: nat, limit: nat) returns (page: seq<LogLine>)
      requires Valid()
      ensures forall i | 0 <= i < |page| ::
                var k := LogKey(run, attempt, page[i].seqNo); k in lines && lines[k] == page[i]
      ensures IsPage(Seqs(run, attempt), from, limit, SeqNos(page))
    {
      var nos := ReadPage(Seqs(run, attempt), from, limit);
      page := [];
      while |page| < |nos|
        invariant |page| <= |nos| && SeqNos(page) == nos[..|page|]
        invariant forall i | 0 <= i < |page| ::
                    var k := LogKey(run, attempt, page[i].seqNo); k in lines && lines[k] == page[i]
      {
        assert nos[|page|] in Seqs(run, attempt);
        var l := lines[LogKey(run, attempt, nos[|page|])];
        assert SeqNos(page + [l]) == SeqNos(page) + [l.seqNo];
        page := page + [l];
      }
      assert nos[..|nos|] == nos;
    }
  }

  // WHERE seq >= from ORDER BY seq LIMIT n, on the seq column alone.
  method ReadPage(keys: set<nat>, from: nat, limit: nat) returns (p: seq<nat>)
    ensures IsPage(keys, from, limit, p)
  {
    p := [];
    var rest := set k | k in keys && from <= k;
    while |p| < limit && rest != {}
      invariant |p| <= limit && rest <= keys
      invariant Splits(keys, from, rest, p)
      decreases |rest|
    {
      var m := Smallest(rest);
      SplitsNext(keys, from, rest, p, m);
      p := p + [m];
      rest := rest - {m};
    }
  }

  // The rows already returned, and those still to come.
  ghost predicate Splits(keys: set<nat>, from: nat, rest: set<nat>, p: seq<nat>) {
    && Increasing(p)
    && (forall k :: k in p || k in rest <==> k in keys && from <= k)
    && forall x, k | x in p && k in rest :: x < k
  }

  lemma SplitsNext(keys: set<nat>, from: nat, rest: set<nat>, p: seq<nat>, m: nat)
    requires Splits(keys, from, rest, p) && m in rest && forall x | x in rest :: m <= x
    ensures Splits(keys, from, rest - {m}, p + [m])
  {
    assert forall x :: x in p + [m] <==> x in p || x == m;
    assert forall i | 0 <= i < |p| :: p[i] in p;
  }

  function SeqNos(page: seq<LogLine>): (s: seq<nat>)
    ensures |s| == |page|
  {
    seq(|page|, i requires 0 <= i < |page| => page[i].seqNo)
  }

  method Smallest(s: set<nat>) returns (m: nat)
    requires s != {}
    ensures m in s && forall x | x in s :: m <= x
  {
    m :| m in s;
    var rest := s - {m};
    while rest != {}
      invariant rest <= s && m in s
      invariant forall x | x in s && x !in rest :: m <= x
      decreases |rest|
    {
      var x :| x in rest;
      if x < m {
        m := x;
      }
      rest := rest - {x};
    }
  }

  ghost function From(keys: set<nat>, from: nat): set<nat> {
    set k | k in keys && from <= k
  }

  lemma PageLeavesFewer(keys: set<nat>, from: nat, limit: nat, p: seq<nat>)
    requires IsPage(keys, from, limit, p) && p != []
    ensures |From(keys, NextSeq(from, p))| < |From(keys, from)|
  {
    var last := p[|p| - 1];
    assert last in p;
    assert From(keys, NextSeq(from, p)) <= From(keys, from) - {last};
    SubsetSize(From(keys, NextSeq(from, p)), From(keys, from) - {last});
  }

  // ---- The client's loop ----

  // The lines of a run, of any attempt, from a seq number on.
  ghost function RowsFrom(lines: map<LogKey, LogLine>, from: nat): set<LogKey> {
    set k | k in lines && from <= k.seqNo
  }

  lemma FewerRows(lines: map<LogKey, LogLine>, run: RunId, attempt: nat, from: nat, limit: nat, p: seq<nat>)
    requires IsPage(SeqsOf(lines, run, attempt), from, limit, p) && p != []
    ensures |RowsFrom(lines, NextSeq(from, p))| < |RowsFrom(lines, from)|
  {
    var last := p[|p| - 1];
    assert last in p;
    var k :| k in lines && k.run == run && k.attempt == attempt && k.seqNo == last;
    assert forall x | x in p :: from <= x;
    SubsetSize(RowsFrom(lines, NextSeq(from, p)), RowsFrom(lines, from) - {k});
  }

  function KeysOf(run: RunId, attempt: nat, p: seq<nat>): (keys: seq<LogKey>)
    ensures |keys| == |p|
  {
    seq(|p|, i requires 0 <= i < |p| => LogKey(run, attempt, p[i]))
  }

  // What the loop prints from request i on, the run's attempt at request i being
  // current(i): a page of that attempt, and, if it is full, the rest from where
  // the page ended.
  ghost function Printed(lines: map<LogKey, LogLine>, run: RunId, current: nat -> nat, i: nat, from: nat, limit: nat): seq<LogKey>
    requires limit >= 1
    decreases |RowsFrom(lines, from)|
  {
    var p := PageOf(SeqsOf(lines, run, current(i)), from, limit);
    if |p| < limit then KeysOf(run, current(i), p)
    else
      FewerRows(lines, run, current(i), from, limit, p);
      KeysOf(run, current(i), p) + Printed(lines, run, current, i + 1, NextSeq(from, p), limit)
  }

  // jobctl logs: page by page, passing next_seq back, until a short page. Each
  // request is about the run's attempt at that moment.
  method PrintLog(table: LogTable, run: RunId, current: nat -> nat, limit: nat) returns (printed: seq<LogLine>)
    requires table.Valid() && limit >= 1
    ensures AreRows(table.lines, Printed(table.lines, run, current, 0, 1, limit), printed)
  {
    printed := [];
    var from := 1;
    var i := 0;
    ghost var all := Printed(table.lines, run, current, 0, 1, limit);
    ghost var done: seq<LogKey> := [];
    while true
      invariant all == done + Printed(table.lines, run, current, i, from, limit)
      invariant AreRows(table.lines, done, printed)
      decreases |RowsFrom(table.lines, from)|
    {
      hide RowsFrom, Printed, IsPage, KeysOf, AreRows, NextSeq;
      var page := table.ListLogs(run, current(i), from, limit);
      ghost var keys := KeysOf(run, current(i), SeqNos(page));
      PrintedPage(table.lines, run, current, i, from, limit, SeqNos(page));
      PageRows(table.lines, run, current(i), page);
      RowsBoth(table.lines, done, printed, keys, page);
      printed := printed + page;
      if |page| < limit {
        return;
      }
      Regroup(done, keys, Printed(table.lines, run, current, i + 1, NextSeq(from, SeqNos(page)), limit));
      FewerRows(table.lines, run, current(i), from, limit, SeqNos(page));
      done := done + keys;
      from := NextSeq(from, SeqNos(page));
      i := i + 1;
    }
  }

  // The lines under these keys.
  ghost predicate AreRows(lines: map<LogKey, LogLine>, keys: seq<LogKey>, rows: seq<LogLine>) {
    |rows| == |keys| && forall i | 0 <= i < |keys| :: keys[i] in lines && rows[i] == lines[keys[i]]
  }

  lemma RowsBoth(lines: map<LogKey, LogLine>, a: seq<LogKey>, x: seq<LogLine>, b: seq<LogKey>, y: seq<LogLine>)
    requires AreRows(lines, a, x) && AreRows(lines, b, y)
    ensures AreRows(lines, a + b, x + y)
  {
  }

  lemma PageRows(lines: map<LogKey, LogLine>, run: RunId, attempt: nat, page: seq<LogLine>)
    requires forall i | 0 <= i < |page| :: var k := LogKey(run, attempt, page[i].seqNo); k in lines && lines[k] == page[i]
    ensures AreRows(lines, KeysOf(run, attempt, SeqNos(page)), page)
  {
  }

  // A page the query returns is the one that is printed.
  lemma PrintedPage(lines: map<LogKey, LogLine>, run: RunId, current: nat -> nat, i: nat, from: nat, limit: nat, p: seq<nat>)
    requires limit >= 1 && IsPage(SeqsOf(lines, run, current(i)), from, limit, p)
    ensures Printed(lines, run, current, i, from, limit)
         == if |p| < limit then KeysOf(run, current(i), p)
            else KeysOf(run, current(i), p) + Printed(lines, run, current, i + 1, NextSeq(from, p), limit)
  {
    PageIsUnique(SeqsOf(lines, run, current(i)), from, limit, p, PageOf(SeqsOf(lines, run, current(i)), from, limit));
    hide IsPage, KeysOf;
  }
}
