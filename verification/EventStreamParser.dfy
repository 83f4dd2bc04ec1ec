// The event stream format as its receiver reads it: section 9.2.5 (parsing an
// event stream) and section 9.2.6 (interpreting an event stream) of the WHATWG
// HTML Standard, on decoded characters. The reconnection time set by "retry"
// fields is not kept.
module EventStreamParser {
  // ---- Lines ----

  predicate IsBreak(c: char) {
    c == '\r' || c == '\n'
  }

  predicate OneLine(s: string) {
    forall i :: 0 <= i < |s| ==> !IsBreak(s[i])
  }

  // Length of the first line, without its terminator.
  function LineEnd(s: string): (e: nat)
    ensures e <= |s| && forall i :: 0 <= i < e ==> !IsBreak(s[i])
    ensures e < |s| ==> IsBreak(s[e])
  {
    if s == "" || IsBreak(s[0]) then 0 else 1 + LineEnd(s[1..])
  }

  // Where the second line starts; CR LF is one terminator.
  function NextLine(s: string): (j: nat)
    requires LineEnd(s) < |s|
    ensures LineEnd(s) < j <= |s|
  {
    var e := LineEnd(s);
    if s[e] == '\r' && e + 1 < |s| && s[e + 1] == '\n' then e + 2 else e + 1
  }

  // The terminated lines of a text, and what follows the last terminator.
  function Lines(s: string): seq<string>
    decreases |s|
  {
    if LineEnd(s) == |s| then [] else [s[..LineEnd(s)]] + Lines(s[NextLine(s)..])
  }

  function Unfinished(s: string): string
    decreases |s|
  {
    if LineEnd(s) == |s| then s else Unfinished(s[NextLine(s)..])
  }

  // ---- Interpretation ----

  datatype Event = Event(kind: string, data: string, lastEventId: string)

  // The data buffer, the event type buffer and the last event ID buffer.
  datatype Buffers = Buffers(data: string, kind: string, lastId: string)

  // Buffers left and events dispatched.
  datatype Read = Read(buffers: Buffers, events: seq<Event>)

  function Colon(line: string): (k: nat)
    ensures k <= |line|
    ensures k < |line| ==> line[k] == ':'
    ensures forall i :: 0 <= i < k ==> line[i] != ':'
  {
    if line == "" || line[0] == ':' then 0 else 1 + Colon(line[1..])
  }

  function FieldName(line: string): string {
    line[..Colon(line)]
  }

  function FieldValue(line: string): string {
    var k := Colon(line);
    if k == |line| then ""
    else if k + 1 < |line| && line[k + 1] == ' ' then line[k + 2..]
    else line[k + 1..]
  }

  function ProcessField(b: Buffers, name: string, value: string): Buffers {
    if name == "event" then b.(kind := value)
    else if name == "data" then b.(data := b.data + value + "\n")
    else if name == "id" && '\0' !in value then b.(lastId := value)
    else b
  }

  function Dispatch(b: Buffers): Read {
    if b.data == "" then
      Read(b.(kind := ""), [])
    else
      var data := if b.data[|b.data| - 1] == '\n' then b.data[..|b.data| - 1] else b.data;
      Read(Buffers("", "", b.lastId), [Event(if b.kind == "" then "message" else b.kind, data, b.lastId)])
  }

  function ProcessLine(b: Buffers, line: string): Read {
    if line == "" then Dispatch(b)
    else if line[0] == ':' then Read(b, [])
    else Read(ProcessField(b, FieldName(line), FieldValue(line)), [])
  }

  function Interpret(b: Buffers, lines: seq<string>): Read
    decreases |lines|
  {
    if lines == [] then Read(b, [])
    else
      var head := ProcessLine(b, lines[0]);
      var tail := Interpret(head.buffers, lines[1..]);
      Read(tail.buffers, head.events + tail.events)
  }

  // An unfinished line is not interpreted.
  function Parse(b: Buffers, s: string): Read {
    Interpret(b, Lines(s))
  }

  // ---- Lines of concatenations ----

  lemma LineEndIs(s: string, e: nat)
    requires e <= |s| && (forall i :: 0 <= i < e ==> !IsBreak(s[i])) && (e < |s| ==> IsBreak(s[e]))
    ensures LineEnd(s) == e
  {}

  predicate EndsInLF(s: string) {
    s == "" || s[|s| - 1] == '\n'
  }

  lemma FirstLineOfConcat(s: string, t: string) returns (first: string, rest: string)
    requires s != "" && EndsInLF(s)
    ensures Lines(s) == [first] + Lines(rest) && Lines(s + t) == [first] + Lines(rest + t)
    ensures |rest| < |s| && EndsInLF(rest)
  {
    assert IsBreak(s[|s| - 1]);
    LineEndIs(s + t, LineEnd(s));
    first, rest := s[..LineEnd(s)], s[NextLine(s)..];
    assert (s + t)[..LineEnd(s)] == first;
    assert NextLine(s + t) == NextLine(s);
    assert (s + t)[NextLine(s)..] == rest + t;
  }

  // Text that ends in LF is split into lines on its own, whatever follows.
  lemma {:induction false} LinesAppend(s: string, t: string)
    requires EndsInLF(s)
    ensures Lines(s + t) == Lines(s) + Lines(t)
    decreases |s|
  {
    if s == "" {
      assert s + t == t;
      assert Lines(s) + Lines(t) == Lines(t);
    } else {
      var first, rest := FirstLineOfConcat(s, t);
      LinesAppend(rest, t);
      Associates([first], Lines(rest), Lines(t));
    }
  }

  lemma Associates<T>(x: seq<T>, y: seq<T>, z: seq<T>)
    ensures x + (y + z) == x + y + z
  {}

  lemma OneFinishedLine(line: string)
    requires OneLine(line)
    ensures Lines(line + "\n") == [line] && Unfinished(line + "\n") == ""
  {
    var s := line + "\n";
    LineEndIs(s, |line|);
    assert s[..|line|] == line && s[NextLine(s)..] == "";
  }

  // Two line feeds complete any text: its last line is blank.
  lemma {:induction false} EndsBlank(t: string)
    ensures var lines := Lines(t + "\n\n"); lines != [] && lines[|lines| - 1] == ""
    ensures Unfinished(t + "\n\n") == ""
    decreases |t|
  {
    var s := t + "\n\n";
    LineEndIs(s, LineEnd(t));
    var rest := s[NextLine(s)..];
    if NextLine(s) <= |t| {
      assert rest == t[NextLine(s)..] + "\n\n";
      EndsBlank(t[NextLine(s)..]);
    } else {
      assert rest == "" + "\n";
      OneFinishedLine("");
      assert Lines(s) == [s[..LineEnd(s)]] + [""];
    }
  }

  ghost function Weight(lines: seq<string>): nat {
    if lines == [] then 0 else |lines[0]| + 1 + Weight(lines[1..])
  }

  lemma {:induction false} LinesWeigh(s: string)
    ensures Weight(Lines(s)) <= |s|
    ensures forall i :: 0 <= i < |Lines(s)| ==> OneLine(Lines(s)[i])
    decreases |s|
  {
    if LineEnd(s) < |s| {
      LinesWeigh(s[NextLine(s)..]);
    }
  }

  // ---- Interpreting concatenations ----

  lemma {:induction false} InterpretAppend(b: Buffers, first: seq<string>, second: seq<string>)
    ensures var one := Interpret(b, first);
            var two := Interpret(one.buffers, second);
            Interpret(b, first + second) == Read(two.buffers, one.events + two.events)
    decreases |first|
  {
    if first == [] {
      assert first + second == second;
    } else {
      assert (first + second)[1..] == first[1..] + second;
      InterpretAppend(ProcessLine(b, first[0]).buffers, first[1..], second);
    }
  }

  lemma ParseAppend(b: Buffers, s: string, t: string)
    requires EndsInLF(s)
    ensures var one := Parse(b, s);
            var two := Parse(one.buffers, t);
            Parse(b, s + t) == Read(two.buffers, one.events + two.events)
  {
    LinesAppend(s, t);
    InterpretAppend(b, Lines(s), Lines(t));
  }

  // One "name: value" line with a value that holds no line break.
  lemma FieldLine(b: Buffers, name: string, value: string)
    requires name != "" && ':' !in name && OneLine(name) && OneLine(value)
    ensures Parse(b, name + ": " + value + "\n") == Read(ProcessField(b, name, value), [])
  {
    var line := name + ": " + value;
    OneFinishedLine(line);
    ColonIs(line, |name|);
    assert FieldName(line) == name;
    assert FieldValue(line) == value;
    assert line[0] == name[0] && name[0] in name;
    assert ProcessLine(b, line) == Read(ProcessField(b, name, value), []);
    OneLineRead(b, line);
  }

  lemma OneLineRead(b: Buffers, line: string)
    ensures Interpret(b, [line]) == ProcessLine(b, line)
  {
    var lines := [line];
    assert lines[1..] == [];
    assert ProcessLine(b, line).events + [] == ProcessLine(b, line).events;
  }

  lemma ColonIs(line: string, k: nat)
    requires k < |line| && line[k] == ':' && forall i :: 0 <= i < k ==> line[i] != ':'
    ensures Colon(line) == k
  {}

  // ---- What any text can and cannot do ----

  predicate CleanId(s: string) {
    OneLine(s) && '\0' !in s
  }

  // Whatever a text says, the event ids it yields hold no CR, LF or NUL.
  lemma {:induction false} IdsAreClean(b: Buffers, lines: seq<string>)
    requires CleanId(b.lastId) && forall i :: 0 <= i < |lines| ==> OneLine(lines[i])
    ensures CleanId(Interpret(b, lines).buffers.lastId)
    ensures forall i :: 0 <= i < |Interpret(b, lines).events| ==> CleanId(Interpret(b, lines).events[i].lastEventId)
    decreases |lines|
  {
    if lines != [] {
      assert OneLine(FieldValue(lines[0]));
      IdsAreClean(ProcessLine(b, lines[0]).buffers, lines[1..]);
    }
  }

  predicate Settled(b: Buffers) {
    b.data == "" && b.kind == ""
  }

  // A blank last line leaves nothing pending and dispatches what there was.
  lemma {:induction false} BlankLineSettles(b: Buffers, lines: seq<string>)
    requires lines != [] && lines[|lines| - 1] == ""
    ensures Settled(Interpret(b, lines).buffers)
    ensures b.data != "" ==> Interpret(b, lines).events != []
    decreases |lines|
  {
    if |lines| > 1 {
      BlankLineSettles(ProcessLine(b, lines[0]).buffers, lines[1..]);
    }
  }

  // A pending event dispatches as it is on a blank line; any other line adds
  // fewer characters to its data than the line takes.
  lemma {:induction false} FirstEventIsShort(b: Buffers, lines: seq<string>)
    requires b.data != "" && b.data[|b.data| - 1] == '\n'
    requires Interpret(b, lines).events != []
    ensures lines != []
    ensures lines[0] == "" ==> Interpret(b, lines).events[0].data == b.data[..|b.data| - 1]
    ensures lines[0] != "" ==> |Interpret(b, lines).events[0].data| + 3 <= |b.data| + Weight(lines)
    decreases |lines|
  {
    if lines != [] && lines[0] != "" {
      DataGain(b, lines[0]);
      FirstEventIsShort(ProcessLine(b, lines[0]).buffers, lines[1..]);
    }
  }

  lemma DataGain(b: Buffers, line: string)
    requires line != ""
    ensures var read := ProcessLine(b, line);
            && read.events == []
            && |b.data| <= |read.buffers.data| <= |b.data| + |line|
            && (EndsInLF(b.data) ==> EndsInLF(read.buffers.data))
  {
    if FieldName(line) == "data" {
      assert Colon(line) == 4;
    }
  }

  // A "data: " frame whose text holds a line break yields a first event whose
  // data is shorter than that text.
  lemma BrokenDataIsLost(b: Buffers, d: string)
    requires b.data == "" && !OneLine(d)
    ensures var events := Parse(b, "data: " + d + "\n\n").events;
            events != [] && |events[0].data| < |d|
  {
    var first, rest := FirstDataLine(d);
    var b' := DataFrameSteps(b, d, first, rest);
    assert b'.data == first + "\n";
    BlankLineSettles(b', Lines(rest));
    FirstEventIsShort(b', Lines(rest));
    LinesWeigh(rest);
  }

  // A "data: " frame always dispatches an event.
  lemma DataFrameDispatches(b: Buffers, d: string)
    ensures Parse(b, "data: " + d + "\n\n").events != []
  {
    var first, rest := FirstDataLine(d);
    var b' := DataFrameSteps(b, d, first, rest);
    BlankLineSettles(b', Lines(rest));
  }

  lemma DataFrameSteps(b: Buffers, d: string, first: string, rest: string) returns (b': Buffers)
    requires Lines("data: " + d + "\n\n") == ["data: " + first] + Lines(rest)
    ensures b' == b.(data := b.data + first + "\n")
    ensures Parse(b, "data: " + d + "\n\n") == Interpret(b', Lines(rest))
  {
    b' := b.(data := b.data + first + "\n");
    DataLine(b, first);
    InterpretAppend(b, ["data: " + first], Lines(rest));
    OneLineRead(b, "data: " + first);
  }

  // The frame's first line carries the text up to its first break, and the
  // rest of the frame still ends in a blank line.
  lemma FirstDataLine(d: string) returns (first: string, rest: string)
    ensures first == d[..LineEnd(d)] && |first| + |rest| <= |d| + 1
    ensures Lines("data: " + d + "\n\n") == ["data: " + first] + Lines(rest)
    ensures Lines(rest) != [] && Lines(rest)[|Lines(rest)| - 1] == ""
  {
    var s := "data: " + d + "\n\n";
    var e := LineEnd(d);
    LineEndIs(s, 6 + e);
    var j := NextLine(s);
    first, rest := d[..e], s[j..];
    assert s[..6 + e] == "data: " + first;
    if j <= 6 + |d| {
      assert rest == d[j - 6..] + "\n\n";
      EndsBlank(d[j - 6..]);
    } else {
      assert rest == "" + "\n";
      OneFinishedLine("");
    }
  }

  lemma DataLine(b: Buffers, value: string)
    ensures ProcessLine(b, "data: " + value) == Read(b.(data := b.data + value + "\n"), [])
  {
    var line := "data: " + value;
    ColonIs(line, 4);
    assert FieldName(line) == "data" && FieldValue(line) == value;
  }

  // A whole "data: " frame with clean text.
  lemma CleanDataIsRead(b: Buffers, d: string)
    requires b.data == "" && OneLine(d)
    ensures Parse(b, "data: " + d + "\n\n") ==
            Read(Buffers("", "", b.lastId), [Event(if b.kind == "" then "message" else b.kind, d, b.lastId)])
  {
    var line := "data: " + d + "\n";
    var full := b.(data := b.data + d + "\n");
    assert full.data == d + "\n" && full.data[..|d|] == d;
    assert "data" + ": " == "data: ";
    FieldLine(b, "data", d);
    BlankIsRead(full);
    ParseAppend(b, line, "\n");
    assert "data: " + d + "\n\n" == line + "\n";
  }

  lemma BlankIsRead(b: Buffers)
    ensures Parse(b, "\n") == Dispatch(b)
  {
    OneFinishedLine("");
    assert "" + "\n" == "\n";
    OneLineRead(b, "");
  }
}
