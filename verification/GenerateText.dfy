// The generate_text job (internal/job/job.go): one attempt's output, its log
// lines, and the ways it fails.
module GenerateText {
  import opened Basics
  import Events

  const MAX_LINES := 100_000
  const MAX_DELAY_MS := 10_000
  const MAX_FAIL_ATTEMPTS := 10

  datatype Payload = Payload(lines: int, prefix: string, delayMs: int, failAt: int, failAttempts: int) {
    // validate
    predicate Valid() {
      && 1 <= lines <= MAX_LINES
      && 0 <= delayMs <= MAX_DELAY_MS
      && 0 <= failAt <= lines
      && 0 <= failAttempts <= MAX_FAIL_ATTEMPTS
    }

    function Prefix(): string {
      if prefix == "" then "line" else prefix
    }
  }

  datatype JobError = Stopped | Deliberate(message: string)

  datatype Outcome = Ok(output: string) | Err(error: JobError)

  function Line(prefix: string, i: nat): string {
    prefix + " " + Digits(i)
  }

  // The text of lines 1 to n.
  function Numbered(prefix: string, n: nat): string {
    if n == 0 then "" else Numbered(prefix, n - 1) + (Line(prefix, n) + "\n")
  }

  // Progress is reported about twenty times however many lines there are.
  function Every(lines: int): (e: int)
    requires lines >= 1
    ensures e >= 1
  {
    if lines / 20 > 1 then lines / 20 else 1
  }

  predicate Reports(p: Payload, i: int)
    requires p.lines >= 1
  {
    i % Every(p.lines) == 0 || i == p.lines
  }

  function Progress(p: Payload, i: nat): Message
    requires p.lines >= 1
  {
    Message("info", "wrote " + Digits(i) + "/" + Digits(p.lines) + " lines")
  }

  // The progress messages of lines 1 to n.
  function ProgressTo(p: Payload, n: nat): seq<Message>
    requires p.lines >= 1
  {
    if n == 0 then [] else ProgressTo(p, n - 1) + if Reports(p, n) then [Progress(p, n)] else []
  }

  function Opening(p: Payload): Message
    requires p.lines >= 1
  {
    Message("info", "generating " + Digits(p.lines) + " lines")
  }

  function FailAtError(i: nat): string {
    "deliberate failure after " + Digits(i) + " lines (fail_at)"
  }

  function FailAtMessage(i: nat): Message {
    Message("error", "failing on purpose after " + Digits(i) + " lines")
  }

  function FailAttemptError(attempt: nat, failAttempts: nat): string {
    "deliberate failure of attempt " + Digits(attempt) + " (fail_attempts=" + Digits(failAttempts) + ")"
  }

  function FailAttemptMessage(attempt: nat, failAttempts: nat): Message {
    Message("error", "failing attempt " + Digits(attempt) + " on purpose (fail_attempts=" + Digits(failAttempts) + ")")
  }

  // The context's checks, in the order the loop makes them: before line i, then
  // in the pause after it. A cancelled context stays cancelled.
  predicate Cancelled(from: Option<nat>, check: nat) {
    from.Some? && from.value <= check
  }

  // The last check an attempt makes if nothing stops it first.
  function LastCheck(p: Payload): nat
    requires p.Valid()
  {
    if p.failAt > 0 then 2 * p.failAt else 2 * p.lines
  }

  // How an attempt ends, whatever the loop does in between.
  function Result(p: Payload, attempt: nat, cancelled: Option<nat>): Outcome
    requires p.Valid()
  {
    if Cancelled(cancelled, LastCheck(p)) then Err(Stopped)
    else if p.failAt > 0 then Err(Deliberate(FailAtError(p.failAt)))
    else if attempt <= p.failAttempts then Err(Deliberate(FailAttemptError(attempt, p.failAttempts)))
    else Ok(Numbered(p.Prefix(), p.lines))
  }

  // What an attempt nothing cancels logs.
  function FullLog(p: Payload, attempt: nat): seq<Message>
    requires p.Valid()
  {
    if p.failAt > 0 then [Opening(p)] + ProgressTo(p, p.failAt - 1) + [FailAtMessage(p.failAt)]
    else
      [Opening(p)] + ProgressTo(p, p.lines)
      + if attempt > p.failAttempts then [] else [FailAttemptMessage(attempt, p.failAttempts)]
  }

  // The lines an attempt has finished when it finds its context cancelled from check n on.
  function LinesBefore(n: nat): nat {
    if n == 0 then 0 else (n - 1) / 2
  }

  // What a cancelled attempt logs: the reports of those lines.
  function StoppedLog(p: Payload, cancelled: Option<nat>): seq<Message>
    requires p.Valid()
  {
    var k := if cancelled.Some? then LinesBefore(cancelled.value) else 0;
    [Opening(p)] + ProgressTo(p, if k < p.lines then k else p.lines)
  }

  // generateText. `cancelled` says from which check on the context is cancelled.
  method Generate(p: Payload, attempt: nat, cancelled: Option<nat>) returns (res: Outcome, log: seq<Message>)
    requires p.Valid()
    ensures res == Result(p, attempt, cancelled)
    ensures res != Err(Stopped) ==> log == FullLog(p, attempt)
    ensures res == Err(Stopped) ==> log == StoppedLog(p, cancelled)
  {
    hide Line, Opening, Progress, FailAtError, FailAtMessage, FailAttemptError, FailAttemptMessage;
    var prefix := p.prefix;
    if prefix == "" {
      prefix := "line";
    }
    var every := if p.lines / 20 > 1 then p.lines / 20 else 1;
    log := [Opening(p)];
    var b := "";
    var i := 1;
    while i <= p.lines
      invariant 1 <= i <= p.lines + 1
      invariant p.failAt > 0 ==> i <= p.failAt
      invariant b == Numbered(prefix, i - 1)
      invariant log == [Opening(p)] + ProgressTo(p, i - 1)
      invariant i > 1 ==> !Cancelled(cancelled, 2 * (i - 1))
    {
      if Cancelled(cancelled, 2 * i) {
        assert LinesBefore(cancelled.value) == i - 1;
        return Err(Stopped), log;
      }
      b := b + (Line(prefix, i) + "\n");
      if i == p.failAt {
        log := log + [FailAtMessage(i)];
        return Err(Deliberate(FailAtError(i))), log;
      }
      if i % every == 0 || i == p.lines {
        log := log + [Progress(p, i)];
      }
      if p.delayMs > 0 && i < p.lines {
        if Cancelled(cancelled, 2 * i + 1) {
          assert LinesBefore(cancelled.value) == i;
          return Err(Stopped), log;
        }
      }
      i := i + 1;
    }
    if attempt <= p.failAttempts {
      log := log + [FailAttemptMessage(attempt, p.failAttempts)];
      return Err(Deliberate(FailAttemptError(attempt, p.failAttempts))), log;
    }
    return Ok(b), log;
  }

  // ---- What the output and the log amount to ----

  lemma {:induction false} LinesAppend(a: string, line: string)
    requires a == "" || a[|a| - 1] == '\n'
    requires '\n' !in line
    ensures Events.Lines(a + (line + "\n")) == Events.Lines(a) + [Events.DropCR(line)]
    decreases |a|
  {
    if a == "" {
      Events.FirstLine(line, "");
      assert line + "\n" + "" == a + (line + "\n");
    } else {
      var first, rest := SplitFirst(a);
      hide Events.Lines, Events.DropCR;
      Events.FirstLine(first, rest);
      Events.FirstLine(first, rest + (line + "\n"));
      LinesAppend(rest, line);
      Regroup(first + "\n", rest, line + "\n");
      Regroup([Events.DropCR(first)], Events.Lines(rest), [Events.DropCR(line)]);
    }
  }

  lemma SplitFirst(a: string) returns (first: string, rest: string)
    requires a != "" && a[|a| - 1] == '\n'
    ensures '\n' !in first && a == first + "\n" + rest
    ensures rest == "" || rest[|rest| - 1] == '\n'
  {
    assert a[..|a|] == a;
    var n := Events.Index(a, '\n');
    first, rest := a[..n], a[n + 1..];
  }

  // The prefix, a space, and i in decimal.
  predicate IsNumberedLine(line: string, prefix: string, i: nat) {
    |prefix| < |line| && line[..|prefix|] == prefix && line[|prefix|] == ' ' && IsNumeral(line[|prefix| + 1..], i)
  }

  lemma LineIsNumbered(prefix: string, i: nat)
    ensures IsNumberedLine(Line(prefix, i), prefix, i)
  {
    hide IsNumeral;
    DigitsAreNumeral(i);
    assert Line(prefix, i)[|prefix| + 1..] == Digits(i);
  }

  // The text is lines 1 to n, each ended by a break.
  ghost predicate IsListing(text: string, prefix: string, n: nat)
    decreases n
  {
    if n == 0 then text == ""
    else exists init, line :: text == init + line + "\n" && IsListing(init, prefix, n - 1) && IsNumberedLine(line, prefix, n)
  }

  lemma {:induction false} NumberedIsListing(prefix: string, n: nat)
    ensures IsListing(Numbered(prefix, n), prefix, n)
  {
    if n > 0 {
      NumberedIsListing(prefix, n - 1);
      LineIsNumbered(prefix, n);
      hide IsNumberedLine, Line;
      Regroup(Numbered(prefix, n - 1), Line(prefix, n), "\n");
    }
  }

  lemma EndsWithBreak(prefix: string, n: nat)
    ensures Numbered(prefix, n) == "" || Numbered(prefix, n)[|Numbered(prefix, n)| - 1] == '\n'
    ensures '\n' !in prefix ==> '\n' !in Line(prefix, n + 1)
    ensures Events.DropCR(Line(prefix, n + 1)) == Line(prefix, n + 1)
  {
    hide Digits;
    assert '\n' !in " " && '\n' !in Digits(n + 1);
  }

  // A prefix without line breaks: a reader of lines finds exactly the numbered ones.
  lemma {:induction false} OutputIsNumberedLines(prefix: string, n: nat)
    requires '\n' !in prefix
    ensures AreNumbered(Events.Lines(Numbered(prefix, n)), prefix, n)
  {
    hide Events.Lines, Events.DropCR, Line, AreNumbered;
    if n == 0 {
      NothingNumbered(prefix);
    } else {
      OutputIsNumberedLines(prefix, n - 1);
      EndsWithBreak(prefix, n - 1);
      LinesAppend(Numbered(prefix, n - 1), Line(prefix, n));
      OneMoreNumbered(Events.Lines(Numbered(prefix, n - 1)), prefix, n - 1);
    }
  }

  predicate AreNumbered(lines: seq<string>, prefix: string, n: nat) {
    |lines| == n && forall i | 0 <= i < n :: IsNumberedLine(lines[i], prefix, i + 1)
  }

  lemma NothingNumbered(prefix: string)
    ensures AreNumbered(Events.Lines(Numbered(prefix, 0)), prefix, 0)
  {
  }

  lemma OneMoreNumbered(lines: seq<string>, prefix: string, n: nat)
    requires AreNumbered(lines, prefix, n)
    ensures AreNumbered(lines + [Line(prefix, n + 1)], prefix, n + 1)
  {
    hide Line, IsNumberedLine;
    LineIsNumbered(prefix, n + 1);
  }

  // One attempt succeeds exactly when nothing stops it, fail_at is zero and the
  // attempt is past fail_attempts; then it has written every line.
  lemma SucceedsWhen(p: Payload, attempt: nat, cancelled: Option<nat>)
    requires p.Valid()
    ensures Result(p, attempt, cancelled).Ok? <==>
            !Cancelled(cancelled, 2 * p.lines) && p.failAt == 0 && attempt > p.failAttempts
    ensures Result(p, attempt, cancelled).Ok? && '\n' !in p.prefix ==>
            AreNumbered(Events.Lines(Result(p, attempt, cancelled).output), if p.prefix == "" then "line" else p.prefix, p.lines)
    ensures Result(p, attempt, cancelled).Ok? ==>
            IsListing(Result(p, attempt, cancelled).output, if p.prefix == "" then "line" else p.prefix, p.lines)
  {
    NumberedIsListing(p.Prefix(), p.lines);
    if '\n' !in p.prefix {
      OutputIsNumberedLines(p.Prefix(), p.lines);
    }
  }

  // A numeral for n between two pieces of text.
  ghost predicate Names(text: string, before: string, n: nat, after: string) {
    exists num :: text == before + num + after && IsNumeral(num, n)
  }

  lemma DigitsName(before: string, n: nat, after: string)
    ensures Names(before + Digits(n) + after, before, n, after)
  {
    hide IsNumeral, Digits;
    DigitsAreNumeral(n);
  }

  // A deliberate failure says where it struck, in its error and in the log's last line.
  lemma FailuresSayWhere(p: Payload, attempt: nat, cancelled: Option<nat>)
    requires p.Valid() && Result(p, attempt, cancelled).Err? && Result(p, attempt, cancelled).error.Deliberate?
    ensures var text, log := Result(p, attempt, cancelled).error.message, FullLog(p, attempt);
            && log != [] && log[|log| - 1].level == "error"
            && var last := log[|log| - 1].line;
            if p.failAt > 0 then
              && Names(text, "deliberate failure after ", p.failAt, " lines (fail_at)")
              && Names(last, "failing on purpose after ", p.failAt, " lines")
            else
              && (exists a, b :: text == "deliberate failure of attempt " + a + " (fail_attempts=" + b + ")"
                                 && IsNumeral(a, attempt) && IsNumeral(b, p.failAttempts))
              && exists a, b :: last == "failing attempt " + a + " on purpose (fail_attempts=" + b + ")"
                                && IsNumeral(a, attempt) && IsNumeral(b, p.failAttempts)
  {
    hide ProgressTo, Opening, IsNumeral, Digits, Names;
    if p.failAt > 0 {
      DigitsName("deliberate failure after ", p.failAt, " lines (fail_at)");
      DigitsName("failing on purpose after ", p.failAt, " lines");
    } else {
      DigitsAreNumeral(attempt);
      DigitsAreNumeral(p.failAttempts);
    }
  }

  // "wrote i/n lines"
  ghost predicate IsReport(m: Message, i: nat, n: nat) {
    m.level == "info" && exists a, b :: m.line == "wrote " + a + "/" + b + " lines" && IsNumeral(a, i) && IsNumeral(b, n)
  }

  lemma ProgressIsReport(p: Payload, i: nat)
    requires p.lines >= 1
    ensures IsReport(Progress(p, i), i, p.lines)
  {
    DigitsAreNumeral(i);
    DigitsAreNumeral(p.lines);
    hide IsNumeral, Digits;
  }

  // The progress messages report the lines written so far, in order: every
  // multiple of `every`, and the last.
  lemma {:induction false} ReportsInOrder(p: Payload, n: nat) returns (at: seq<nat>)
    requires p.lines >= 1 && n <= p.lines
    ensures |at| == |ProgressTo(p, n)| && forall x | 0 <= x < |at| :: IsReport(ProgressTo(p, n)[x], at[x], p.lines)
    ensures forall x, y | 0 <= x < y < |at| :: at[x] < at[y]
    ensures forall i :: i in at <==> 1 <= i <= n && (i % Every(p.lines) == 0 || i == p.lines)
  {
    hide Progress, IsReport, Every;
    at := [];
    if n > 0 {
      at := ReportsInOrder(p, n - 1);
      ProgressIsReport(p, n);
      assert forall x | 0 <= x < |at| :: at[x] in at;
      if Reports(p, n) {
        at := at + [n];
      }
    }
  }

  // It is stopped exactly when the context is cancelled by its last check: two a
  // line, up to fail_at or the end.
  lemma StopsWhen(p: Payload, attempt: nat, cancelled: Option<nat>)
    requires p.Valid()
    ensures Result(p, attempt, cancelled) == Err(Stopped) <==>
            cancelled.Some? && cancelled.value <= 2 * if p.failAt > 0 then p.failAt else p.lines
    ensures Result(p, attempt, cancelled).Err? && Result(p, attempt, cancelled) != Err(Stopped) ==>
            p.failAt > 0 || attempt <= p.failAttempts
  {
  }

  // The log of an attempt nothing cancels: how many lines are to come, the reports in
  // order, and the failure if there is one.
  lemma LogSays(p: Payload, attempt: nat) returns (at: seq<nat>)
    requires p.Valid()
    ensures var log := FullLog(p, attempt);
            var written := if p.failAt > 0 then p.failAt - 1 else p.lines;
            && |log| == 1 + |at| + (if p.failAt > 0 || attempt <= p.failAttempts then 1 else 0)
            && log[0].level == "info" && Names(log[0].line, "generating ", p.lines, " lines")
            && (forall x | 0 <= x < |at| :: IsReport(log[1 + x], at[x], p.lines))
            && (forall x, y | 0 <= x < y < |at| :: at[x] < at[y])
            && forall i :: i in at <==> 1 <= i <= written && (i % Every(p.lines) == 0 || i == p.lines)
  {
    hide ProgressTo, Digits, Names, IsReport, Every;
    var written := if p.failAt > 0 then p.failAt - 1 else p.lines;
    at := ReportsInOrder(p, written);
    DigitsName("generating ", p.lines, " lines");
    assert forall x | 0 <= x < |at| :: FullLog(p, attempt)[1 + x] == ProgressTo(p, written)[x];
  }

  function CeilDiv(a: nat, b: nat): nat
    requires b > 0
  {
    (a + b - 1) / b
  }

  lemma {:induction false} ProgressCount(p: Payload, n: nat)
    requires p.lines >= 1 && n <= p.lines
    ensures |ProgressTo(p, n)| == if n < p.lines then n / Every(p.lines) else CeilDiv(n, Every(p.lines))
  {
    hide Progress, Every, CeilDiv;
    if n > 0 {
      ProgressCount(p, n - 1);
      NextMultiple(n, Every(p.lines));
    } else {
      DivIs(0, Every(p.lines), 0, 0);
    }
  }

  lemma NextMultiple(n: nat, e: nat)
    requires n > 0 && e > 0
    ensures n / e == (n - 1) / e + if n % e == 0 then 1 else 0
    ensures CeilDiv(n, e) == (n - 1) / e + 1
  {
    var q, r := n / e, n % e;
    assert n == q * e + r;
    if r == 0 {
      assert n - 1 == (q - 1) * e + (e - 1);
      DivIs(n - 1, e, q - 1, e - 1);
      assert n + e - 1 == q * e + (e - 1);
      DivIs(n + e - 1, e, q, e - 1);
    } else {
      DivIs(n - 1, e, q, r - 1);
      assert n + e - 1 == (q + 1) * e + (r - 1);
      DivIs(n + e - 1, e, q + 1, r - 1);
    }
  }

  lemma DivIs(n: int, e: int, q: int, r: int)
    requires e > 0 && n == q * e + r && 0 <= r < e
    ensures n / e == q
  {
    MulGap(q, n / e, e);
    MulGap(n / e, q, e);
    assert n == (n / e) * e + n % e;
  }

  lemma {:induction false} MulGap(a: int, b: int, e: int)
    requires e > 0
    ensures a < b ==> a * e + e <= b * e
    decreases b - a
  {
    if a + 1 < b {
      MulGap(a, b - 1, e);
      assert b * e == (b - 1) * e + e;
    } else if a + 1 == b {
      assert b * e == a * e + e;
    }
  }

  lemma CeilBounds(a: nat, b: nat)
    requires b > 0
    ensures a <= CeilDiv(a, b) * b < a + b
  {
    assert a + b - 1 == CeilDiv(a, b) * b + (a + b - 1) % b;
  }

  // A full pass reports ceil(lines / every) times: between min(lines, 20) and 39.
  lemma FullPassReports(p: Payload)
    requires p.Valid()
    ensures var n := |ProgressTo(p, p.lines)|;
            && n == CeilDiv(p.lines, Every(p.lines))
            && (if p.lines < 20 then n == p.lines else 20 <= n <= 39)
  {
    var e := Every(p.lines);
    ProgressCount(p, p.lines);
    CeilBounds(p.lines, e);
    var n := CeilDiv(p.lines, e);
    hide ProgressTo, CeilDiv, Progress;
    if p.lines >= 20 {
      assert 20 * e <= p.lines < 20 * e + 20;
      MulGap(n, 20, e);
      MulGap(39, n, e);
    }
  }

  lemma {:induction false} ProgressGrows(p: Payload, k: nat, n: nat)
    requires p.lines >= 1 && k <= n
    ensures |ProgressTo(p, k)| <= |ProgressTo(p, n)|
  {
    hide Progress, Reports;
    if k < n {
      ProgressGrows(p, k, n - 1);
    }
  }

  // However large the job, an attempt logs at most 41 lines.
  lemma LogIsShort(p: Payload, attempt: nat, k: nat)
    requires p.Valid() && k <= p.lines
    ensures |FullLog(p, attempt)| <= 41 && |[Opening(p)] + ProgressTo(p, k)| <= 41
  {
    hide Progress, Reports, ProgressTo, CeilDiv, Opening, FailAtMessage, FailAttemptMessage;
    FullPassReports(p);
    ProgressGrows(p, k, p.lines);
    if p.failAt > 0 {
      ProgressGrows(p, p.failAt - 1, p.lines);
    }
  }
}
