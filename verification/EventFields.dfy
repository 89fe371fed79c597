// What the client makes of any event stream, not only its own server's: several
// data lines, fields it does not know, comments anywhere.
module EventFields {
  import opened Basics
  import opened Events

  // One line of an event.
  datatype Field =
    | Name(text: string)
    | Data(text: string, spaced: bool)
    | Comment(text: string)
    | Unknown(text: string)

  function Text(f: Field): string {
    match f
    case Name(text) => "event: " + text
    case Data(text, spaced) => if spaced then "data: " + text else "data:" + text
    case Comment(text) => ":" + text
    case Unknown(text) => text
  }

  // Names are trimmed; a datum that begins with a space has one more before it;
  // and an unknown field is not one of the others.
  predicate Sound(f: Field) {
    && NoBreaks(f.text)
    && match f
       case Name(text) => Trimmed(text)
       case Data(text, spaced) => !spaced ==> !(" " <= text)
       case Comment(_) => true
       case Unknown(text) => text != "" && text[0] != ':' && !("event:" <= text) && !("data:" <= text)
  }

  function TextAll(fields: seq<Field>): string {
    if fields == [] then "" else TextAll(fields[..|fields| - 1]) + Text(fields[|fields| - 1]) + "\n"
  }

  // The last name, and all data in order.
  function NameOf(fields: seq<Field>): string {
    if fields == [] then ""
    else if fields[|fields| - 1].Name? then fields[|fields| - 1].text
    else NameOf(fields[..|fields| - 1])
  }

  function DataOf(fields: seq<Field>): seq<string> {
    if fields == [] then []
    else DataOf(fields[..|fields| - 1]) + if fields[|fields| - 1].Data? then [fields[|fields| - 1].text] else []
  }

  // One line of text for each.
  function Joined(data: seq<string>): string {
    if data == [] then ""
    else if |data| == 1 then data[0]
    else Joined(data[..|data| - 1]) + "\n" + data[|data| - 1]
  }

  // An event without a name or data is none.
  function Means(fields: seq<Field>): seq<Received> {
    if NameOf(fields) == "" && DataOf(fields) == [] then [] else [Received(NameOf(fields), Joined(DataOf(fields)))]
  }

  lemma {:induction false} JoinIsJoined(data: seq<string>)
    ensures Join(data) == Joined(data)
    decreases |data|
  {
    if |data| > 1 {
      var init, last := data[..|data| - 1], data[|data| - 1];
      JoinIsJoined(init);
      JoinMore(init, last);
      assert data == init + [last];
    }
  }

  lemma {:induction false} JoinMore(data: seq<string>, last: string)
    requires data != []
    ensures Join(data + [last]) == Join(data) + "\n" + last
    decreases |data|
  {
    assert (data + [last])[0] == data[0] && (data + [last])[1..] == data[1..] + [last];
    if |data| > 1 {
      JoinMore(data[1..], last);
    } else {
      assert data[1..] + [last] == [last];
    }
  }

  function Filed(st: State, f: Field): State {
    match f
    case Name(text) => st.(event := text)
    case Data(text, _) => st.(data := st.data + [text])
    case _ => st
  }

  lemma NameIsRead(st: State, text: string)
    requires Trimmed(text)
    ensures Step(st, "event: " + text) == st.(event := text)
  {
    var line := "event: " + text;
    assert line[6..] == " " + text && "event:" <= line && line[0] == 'e';
    TrimmedName(text);
  }

  lemma DatumIsRead(st: State, text: string, spaced: bool)
    requires !spaced ==> !(" " <= text)
    ensures Step(st, if spaced then "data: " + text else "data:" + text) == st.(data := st.data + [text])
  {
    var line := if spaced then "data: " + text else "data:" + text;
    assert line[5..] == if spaced then " " + text else text;
    assert (" " + text)[1..] == text && "data:" <= line && line[0] == 'd';
  }

  lemma FieldIsRead(st: State, f: Field)
    requires Sound(f)
    ensures Step(st, Text(f)) == Filed(st, f) && NoBreaks(Text(f))
  {
    match f
    case Name(text) =>
      NameIsRead(st, text);
    case Data(text, spaced) =>
      DatumIsRead(st, text, spaced);
    case _ =>
  }

  lemma FieldParses(st: State, f: Field, rest: string)
    requires Sound(f)
    ensures StepAll(st, Lines(Text(f) + "\n" + rest)) == StepAll(Filed(st, f), Lines(rest))
  {
    hide Lines, StepAll, Step, Sound, Text, Filed, NoBreaks;
    FieldIsRead(st, f);
    LineParses(st, Text(f), rest);
  }

  lemma {:induction false} FieldsParse(fields: seq<Field>, out: seq<Received>, rest: string)
    requires forall i | 0 <= i < |fields| :: Sound(fields[i])
    ensures StepAll(State("", [], out), Lines(TextAll(fields) + rest))
         == StepAll(State(NameOf(fields), DataOf(fields), out), Lines(rest))
    decreases |fields|
  {
    hide Lines, StepAll, Step, Sound, Text;
    if fields == [] {
      assert TextAll(fields) + rest == rest;
    } else {
      var init, f := fields[..|fields| - 1], fields[|fields| - 1];
      FieldsParse(init, out, Text(f) + "\n" + rest);
      FieldParses(State(NameOf(init), DataOf(init), out), f, rest);
      assert TextAll(fields) + rest == TextAll(init) + (Text(f) + "\n" + rest);
      assert DataOf(init) + [] == DataOf(init);
    }
  }

  lemma SpelledEventParses(fields: seq<Field>, out: seq<Received>, rest: string)
    requires forall i | 0 <= i < |fields| :: Sound(fields[i])
    ensures StepAll(State("", [], out), Lines(TextAll(fields) + "\n" + rest)) == StepAll(State("", [], out + Means(fields)), Lines(rest))
  {
    FieldsParse(fields, out, "" + "\n" + rest);
    assert TextAll(fields) + "\n" + rest == TextAll(fields) + ("" + "\n" + rest);
    LineParses(State(NameOf(fields), DataOf(fields), out), "", rest);
    JoinIsJoined(DataOf(fields));
    hide Lines, StepAll, Join, Joined;
    assert Step(State(NameOf(fields), DataOf(fields), out), "") == State("", [], out + Means(fields));
  }

  function Spelled(events: seq<seq<Field>>): string {
    if events == [] then "" else TextAll(events[0]) + "\n" + Spelled(events[1..])
  }

  function AllMean(events: seq<seq<Field>>): seq<Received> {
    if events == [] then [] else Means(events[0]) + AllMean(events[1..])
  }

  lemma {:induction false} StreamParses(events: seq<seq<Field>>, out: seq<Received>)
    requires forall e, i | 0 <= e < |events| && 0 <= i < |events[e]| :: Sound(events[e][i])
    ensures StepAll(State("", [], out), Lines(Spelled(events))).out == out + AllMean(events)
    decreases |events|
  {
    hide Lines, StepAll, Sound, Means, TextAll;
    if events == [] {
      NothingParses(out);
    } else {
      SpelledEventParses(events[0], out, Spelled(events[1..]));
      StreamParses(events[1..], out + Means(events[0]));
      Regroup(out, Means(events[0]), AllMean(events[1..]));
    }
  }

  // However its events are spelled, a stream reads as what they mean.
  lemma StreamIsRead(events: seq<seq<Field>>)
    requires forall e, i | 0 <= e < |events| && 0 <= i < |events[e]| :: Sound(events[e][i])
    ensures Parse(Spelled(events)) == AllMean(events)
  {
    StreamParses(events, []);
  }
}
