// The event stream's text: the printer in internal/api/stream.go and the parser
// in cmd/jobctl/main.go (sections 9.2.5 and 9.2.6 of the WHATWG HTML Living
// Standard define the format).
module Events {
  import opened Basics

  // What the server writes, in order.
  datatype Item = Event(name: string, data: string) | Ping

  // What the client's callback receives.
  datatype Received = Received(name: string, data: string)

  predicate NoBreaks(s: string) {
    '\n' !in s && '\r' !in s
  }

  // unicode.IsSpace, for the characters of Latin-1.
  predicate IsSpace(c: char) {
    c == ' ' || '\t' <= c <= '\r' || c == '\U{0085}' || c == '\U{00A0}'
  }

  predicate Trimmed(s: string) {
    s != "" ==> !IsSpace(s[0]) && !IsSpace(s[|s| - 1])
  }

  // Event names are the handler's own; data is JSON, which has no raw breaks.
  predicate Sendable(item: Item) {
    item.Event? ==> item.name != "" && Trimmed(item.name) && NoBreaks(item.name) && NoBreaks(item.data)
  }

  // ---- The printer ----

  function Print(item: Item): string {
    match item
    case Event(name, data) => "event: " + name + "\ndata: " + data + "\n\n"
    case Ping => ": ping\n\n"
  }

  function PrintAll(items: seq<Item>): string {
    if items == [] then "" else Print(items[0]) + PrintAll(items[1..])
  }

  function DeliveredOne(item: Item): seq<Received> {
    if item.Event? then [Received(item.name, item.data)] else []
  }

  function Delivered(items: seq<Item>): seq<Received> {
    if items == [] then [] else DeliveredOne(items[0]) + Delivered(items[1..])
  }

  // ---- The parser ----

  // bufio.ScanLines: lines end at \n, a trailing \r is dropped, and text after
  // the last \n is a line unless it is empty.
  function DropCR(line: string): string {
    if line != "" && line[|line| - 1] == '\r' then line[..|line| - 1] else line
  }

  function Index(s: string, c: char): (i: nat)
    ensures i <= |s| && c !in s[..i] && (i < |s| ==> s[i] == c)
  {
    if s == "" || s[0] == c then 0
    else
      var i := Index(s[1..], c) + 1;
      assert s[..i] == [s[0]] + s[1..][..i - 1];
      i
  }

  function Lines(text: string): seq<string>
    decreases |text|
  {
    if text == "" then []
    else
      var i := Index(text, '\n');
      if i < |text| then [DropCR(text[..i])] + Lines(text[i + 1..]) else [DropCR(text)]
  }

  predicate HasPrefix(s: string, p: string) {
    p <= s
  }

  function TrimLeft(s: string): string {
    if s != "" && IsSpace(s[0]) then TrimLeft(s[1..]) else s
  }

  function TrimRight(s: string): string {
    if s != "" && IsSpace(s[|s| - 1]) then TrimRight(s[..|s| - 1]) else s
  }

  function TrimSpace(s: string): string {
    TrimRight(TrimLeft(s))
  }

  function Join(data: seq<string>): string {
    if data == [] then "" else if |data| == 1 then data[0] else data[0] + "\n" + Join(data[1..])
  }

  // The loop's variables between lines.
  datatype State = State(event: string, data: seq<string>, out: seq<Received>)

  function Step(st: State, line: string): State {
    if line == "" then
      State("", [], st.out + if st.event != "" || |st.data| > 0 then [Received(st.event, Join(st.data))] else [])
    else if HasPrefix(line, ":") then st
    else if HasPrefix(line, "event:") then st.(event := TrimSpace(line[6..]))
    else if HasPrefix(line, "data:") then
      var rest := line[5..];
      st.(data := st.data + [if HasPrefix(rest, " ") then rest[1..] else rest])
    else st
  }

  function StepAll(st: State, lines: seq<string>): State
    decreases |lines|
  {
    if lines == [] then st else StepAll(Step(st, lines[0]), lines[1..])
  }

  function Parse(text: string): seq<Received> {
    StepAll(State("", [], []), Lines(text)).out
  }

  // readEvents, with a callback that never fails.
  method ReadEvents(text: string) returns (received: seq<Received>)
    ensures received == Parse(text)
  {
    var rest := text;
    var event: string := "";
    var data: seq<string> := [];
    received := [];
    while rest != ""
      invariant StepAll(State(event, data, received), Lines(rest)).out == Parse(text)
      decreases |rest|
    {
      var i := Index(rest, '\n');
      var line := DropCR(if i < |rest| then rest[..i] else rest);
      var tail := if i < |rest| then rest[i + 1..] else "";
      ghost var before := State(event, data, received);
      assert Lines(rest) == [line] + Lines(tail);
      assert ([line] + Lines(tail))[1..] == Lines(tail);
      if line == "" {
        if event != "" || |data| > 0 {
          received := received + [Received(event, Join(data))];
        }
        event, data := "", [];
      } else if HasPrefix(line, ":") {
      } else if HasPrefix(line, "event:") {
        event := TrimSpace(line[6..]);
      } else if HasPrefix(line, "data:") {
        var value := line[5..];
        if HasPrefix(value, " ") {
          value := value[1..];
        }
        data := data + [value];
      }
      assert State(event, data, received) == Step(before, line);
      rest := tail;
    }
  }

  // ---- Round trip ----

  lemma {:induction false} IndexAt(line: string, c: char, rest: string)
    requires c !in line
    ensures Index(line + [c] + rest, c) == |line|
    decreases |line|
  {
    var text := line + [c] + rest;
    if line != "" {
      assert line[0] in line;
      assert text[1..] == line[1..] + [c] + rest;
      IndexAt(line[1..], c, rest);
    }
  }

  lemma FirstLine(line: string, rest: string)
    requires '\n' !in line
    ensures Lines(line + "\n" + rest) == [DropCR(line)] + Lines(rest)
  {
    var text := line + "\n" + rest;
    IndexAt(line, '\n', rest);
    assert text == line + ['\n'] + rest;
    assert text[..|line|] == line && text[|line| + 1..] == rest;
  }

  lemma StepAllFirst(st: State, line: string, lines: seq<string>)
    ensures StepAll(st, [line] + lines) == StepAll(Step(st, line), lines)
  {
    assert ([line] + lines)[1..] == lines;
  }

  // The parser takes one whole line at a time.
  lemma RawLineParses(st: State, line: string, rest: string)
    requires '\n' !in line
    ensures StepAll(st, Lines(line + "\n" + rest)) == StepAll(Step(st, DropCR(line)), Lines(rest))
  {
    hide Lines, Step, DropCR;
    FirstLine(line, rest);
    StepAllFirst(st, DropCR(line), Lines(rest));
  }

  lemma LineParses(st: State, line: string, rest: string)
    requires NoBreaks(line)
    ensures StepAll(st, Lines(line + "\n" + rest)) == StepAll(Step(st, line), Lines(rest))
  {
    hide Lines, Step, StepAll;
    RawLineParses(st, line, rest);
    assert line != "" ==> line[|line| - 1] in line;
  }

  lemma TrimmedName(s: string)
    requires Trimmed(s)
    ensures TrimSpace(" " + s) == s
  {
    assert (" " + s)[1..] == s;
    assert TrimLeft(" " + s) == TrimLeft(s) == s;
  }

  lemma EventLine(name: string, out: seq<Received>)
    requires Trimmed(name)
    ensures Step(State("", [], out), "event: " + name) == State(name, [], out)
  {
    var line := "event: " + name;
    assert line[6..] == " " + name;
    assert "event:" <= line && line[0] == 'e';
    TrimmedName(name);
  }

  lemma DataLine(name: string, data: string, out: seq<Received>)
    ensures Step(State(name, [], out), "data: " + data) == State(name, [data], out)
  {
    var line := "data: " + data;
    assert line[5..] == " " + data;
    assert (" " + data)[1..] == data;
    assert "data:" <= line && line[0] == 'd';
  }

  lemma EventParses(name: string, data: string, rest: string, out: seq<Received>)
    requires Sendable(Event(name, data))
    ensures StepAll(State("", [], out), Lines(Print(Event(name, data)) + rest))
         == StepAll(State("", [], out + [Received(name, data)]), Lines(rest))
  {
    hide Lines, StepAll, Step;
    EventLine(name, out);
    DataLine(name, data, out);
    BlankLine(name, data, out);
    var a, b := "event: " + name, "data: " + data;
    var last := "" + "\n" + rest;
    var two := b + "\n" + last;
    LineParses(State("", [], out), a, two);
    LineParses(State(name, [], out), b, last);
    LineParses(State(name, [data], out), "", rest);
    assert Print(Event(name, data)) + rest == a + "\n" + two;
  }

  lemma BlankLine(name: string, data: string, out: seq<Received>)
    ensures Step(State(name, [data], out), "") == State("", [], out + [Received(name, data)])
  {
  }

  lemma PingParses(rest: string, out: seq<Received>)
    ensures StepAll(State("", [], out), Lines(Print(Ping) + rest)) == StepAll(State("", [], out), Lines(rest))
  {
    hide Lines, StepAll;
    LineParses(State("", [], out), ": ping", "" + "\n" + rest);
    LineParses(State("", [], out), "", rest);
    assert Print(Ping) + rest == ": ping" + "\n" + ("" + "\n" + rest);
    assert out + [] == out;
  }

  lemma NothingParses(out: seq<Received>)
    ensures StepAll(State("", [], out), Lines("")).out == out
  {
  }

  lemma ItemParses(item: Item, rest: string, out: seq<Received>)
    requires Sendable(item)
    ensures StepAll(State("", [], out), Lines(Print(item) + rest)) == StepAll(State("", [], out + DeliveredOne(item)), Lines(rest))
  {
    hide Lines, Print, StepAll;
    match item
    case Event(name, data) => EventParses(name, data, rest, out);
    case Ping =>
      PingParses(rest, out);
      assert out + [] == out;
  }

  lemma {:induction false} ItemsParse(items: seq<Item>, out: seq<Received>)
    requires forall i | 0 <= i < |items| :: Sendable(items[i])
    ensures StepAll(State("", [], out), Lines(PrintAll(items))).out == out + Delivered(items)
    decreases |items|
  {
    hide Lines, Print, StepAll, Sendable, DeliveredOne;
    if items == [] {
      NothingParses(out);
    } else {
      ItemParses(items[0], PrintAll(items[1..]), out);
      ItemsParse(items[1..], out + DeliveredOne(items[0]));
      Regroup(out, DeliveredOne(items[0]), Delivered(items[1..]));
    }
  }

  // Reading back what was sent, pings and all, gives exactly the events sent.
  lemma {:induction false} RoundTrip(items: seq<Item>)
    requires forall i | 0 <= i < |items| :: Sendable(items[i])
    ensures Parse(PrintAll(items)) == Delivered(items)
  {
    ItemsParse(items, []);
  }

  // ---- Truncation ----

  lemma {:induction false} OutGrows(st: State, lines: seq<string>)
    ensures st.out <= StepAll(st, lines).out
    decreases |lines|
  {
    if lines != [] {
      OutGrows(Step(st, lines[0]), lines[1..]);
    }
  }

  lemma NoBreakIsOneLine(text: string)
    requires '\n' !in text && text != ""
    ensures Lines(text) == [DropCR(text)]
  {
    assert forall i | 0 <= i < |text| :: text[i] in text;
  }

  // A piece of a line delivers nothing, unless it is a carriage return alone,
  // which reads as an empty line.
  lemma PieceDeliversNothing(st: State, piece: string)
    requires '\n' !in piece && piece != "\r"
    ensures StepAll(st, Lines(piece)).out == st.out
  {
    if piece != "" {
      NoBreakIsOneLine(piece);
      assert DropCR(piece) != "";
      assert [DropCR(piece)] + [] == [DropCR(piece)];
      StepAllFirst(st, DropCR(piece), []);
    }
  }

  // The cut does not leave a carriage return alone at the start of a line that
  // goes on with something else.
  predicate CleanCut(text: string, n: nat) {
    0 < n < |text| && text[n - 1] == '\r' && text[n] != '\n' ==> n > 1 && text[n - 2] != '\n'
  }

  lemma ReturnBeforeBreak(st: State, text: string)
    requires text != "" && text[0] == '\r' && (|text| > 1 ==> text[1] == '\n')
    ensures StepAll(st, Lines("\r")).out <= StepAll(st, Lines(text)).out
  {
    hide Step;
    NoBreakIsOneLine("\r");
    assert [DropCR("\r")] + [] == [DropCR("\r")];
    StepAllFirst(st, "", []);
    if |text| > 1 {
      assert text == "\r" + "\n" + text[2..];
      RawLineParses(st, "\r", text[2..]);
      OutGrows(Step(st, ""), Lines(text[2..]));
    } else {
      assert text == "\r";
    }
  }

  // Cutting a text short leaves its first lines whole, and perhaps a piece of
  // one more.
  lemma {:induction false} TruncatedParse(st: State, text: string, n: nat)
    requires n <= |text| && CleanCut(text, n)
    ensures StepAll(st, Lines(text[..n])).out <= StepAll(st, Lines(text)).out
    decreases |text|
  {
    hide Lines, Step, StepAll, DropCR;
    var i := Index(text, '\n');
    if i < n {
      var line, rest := text[..i], text[i + 1..];
      assert text == line + "\n" + rest;
      assert text[..n] == line + "\n" + rest[..n - i - 1];
      RawLineParses(st, line, rest);
      RawLineParses(st, line, rest[..n - i - 1]);
      TruncatedParse(Step(st, DropCR(line)), rest, n - i - 1);
    } else {
      assert text[..n] == text[..i][..n];
      if text[..n] == "\r" {
        assert text[0] == text[..n][0] && n == 1;
        ReturnBeforeBreak(st, text);
      } else {
        PieceDeliversNothing(st, text[..n]);
        OutGrows(st, Lines(text));
      }
    }
  }

  // However a text is cut off, the client has received a prefix of its events ...
  lemma TruncationDeliversPrefix(text: string, n: nat)
    requires n <= |text| && CleanCut(text, n)
    ensures Parse(text[..n]) <= Parse(text)
  {
    TruncatedParse(State("", [], []), text, n);
  }

  lemma DataThen(rest: string)
    ensures StepAll(State("", [], []), Lines("data: a" + "\n" + rest)) == StepAll(State("", ["a"], []), Lines(rest))
  {
    hide Lines, StepAll, Step;
    RawLineParses(State("", [], []), "data: a", rest);
    DataLine("", "a", []);
    assert "data: " + "a" == "data: a";
  }

  lemma ReturnDelivers(st: State)
    requires st == State("", ["a"], [])
    ensures StepAll(st, Lines("\r")).out == [Received("", "a")]
  {
    NoBreakIsOneLine("\r");
    hide Lines;
    assert Lines("\r") == [""] + [];
    StepAllFirst(st, "", []);
  }

  lemma ReturnIsSkipped(st: State)
    requires st == State("", ["a"], [])
    ensures StepAll(st, Lines("\rb" + "\n" + "")).out == []
  {
    RawLineParses(st, "\rb", "");
    assert Lines("") == [];
    hide Lines;
    assert DropCR("\rb") == "\rb" && "\rb"[0] == '\r';
    assert Step(st, "\rb") == st;
  }

  // ... but for a cut after such a carriage return, which delivers the event
  // begun so far.
  lemma CutAfterReturnDelivers(text: string)
    requires text == "data: a\n\rb\n"
    ensures Parse(text[..9]) == [Received("", "a")] && Parse(text) == []
  {
    hide Lines, StepAll, Step;
    assert text[..9] == "data: a" + "\n" + "\r";
    assert text == "data: a" + "\n" + ("\rb" + "\n" + "");
    DataThen("\r");
    DataThen("\rb" + "\n" + "");
    ReturnDelivers(State("", ["a"], []));
    ReturnIsSkipped(State("", ["a"], []));
  }

  lemma {:induction false} NoReturns(items: seq<Item>)
    requires forall i | 0 <= i < |items| :: Sendable(items[i])
    ensures '\r' !in PrintAll(items)
  {
    if items != [] {
      NoReturns(items[1..]);
    }
  }

  // A client cut off at any point of what was sent has received the first of the
  // events, each whole.
  lemma {:induction false} CutOffAnywhere(items: seq<Item>, n: nat)
    requires (forall i | 0 <= i < |items| :: Sendable(items[i])) && n <= |PrintAll(items)|
    ensures Parse(PrintAll(items)[..n]) <= Delivered(items)
  {
    hide Parse, Sendable;
    NoReturns(items);
    assert forall i | 0 <= i < |PrintAll(items)| :: PrintAll(items)[i] in PrintAll(items);
    TruncationDeliversPrefix(PrintAll(items), n);
    RoundTrip(items);
  }
}
