// What a client reading by the HTML Standard recovers from what the handler
// wrote, for every stream and every stopping point.
module EventStreamRoundTrip {
  import opened Wrappers
  import opened EventStreamParser
  import opened EventStreamWriter

  function Joined(chunks: seq<string>): string {
    if chunks == [] then "" else chunks[0] + Joined(chunks[1..])
  }

  // The events the source meant the client to see.
  function Expected(signals: seq<Signal>, lastId: string): seq<Event> {
    if signals == [] then []
    else match signals[0]
      case ClientLeft => []
      case SourceClosed => [Event("end", "{}", lastId)]
      case Received(item) =>
        if item.error.Some? then [Event("error", item.error.value, lastId)]
        else if item.data != "" then
          var id := if item.id.Some? then item.id.value else lastId;
          [Event("message", item.data, id)] + Expected(signals[1..], id)
        else Expected(signals[1..], lastId)
  }

  predicate CleanItem(item: StreamObject) {
    if item.error.Some? then OneLine(item.error.value)
    else item.data != "" ==> OneLine(item.data) && (item.id.Some? ==> CleanId(item.id.value))
  }

  // No text that is written holds a CR or LF, and no id a NUL.
  predicate Clean(signals: seq<Signal>) {
    signals != [] ==>
      && (signals[0].Received? ==> CleanItem(signals[0].item))
      && (StopsAt(signals[0]).StillRunning? ==> Clean(signals[1..]))
  }

  // ---- One frame ----

  lemma PrefixSplits(prefix: string, data: string)
    ensures prefix + "data: " + data + "\n\n" == prefix + ("data: " + data + "\n\n")
  {}

  lemma CleanDataFrame(b: Buffers, prefix: string, data: string, b': Buffers)
    requires EndsInLF(prefix) && Parse(b, prefix) == Read(b', [])
    requires b'.data == "" && OneLine(data)
    ensures Parse(b, prefix + "data: " + data + "\n\n") ==
            Read(Buffers("", "", b'.lastId), [Event(if b'.kind == "" then "message" else b'.kind, data, b'.lastId)])
  {
    CleanDataIsRead(b', data);
    ParseAppend(b, prefix, "data: " + data + "\n\n");
    PrefixSplits(prefix, data);
  }

  lemma BrokenDataFrame(b: Buffers, prefix: string, data: string, b': Buffers)
    requires EndsInLF(prefix) && Parse(b, prefix) == Read(b', [])
    requires b'.data == "" && !OneLine(data)
    ensures var events := Parse(b, prefix + "data: " + data + "\n\n").events;
            events != [] && events[0].data != data
  {
    BrokenDataIsLost(b', data);
    ParseAppend(b, prefix, "data: " + data + "\n\n");
    PrefixSplits(prefix, data);
  }

  // An id line on its own; b' are the buffers it leaves.
  lemma IdLine(b: Buffers, id: string)
    requires CleanId(id)
    ensures Parse(b, "id: " + id + "\n") == Read(b.(lastId := id), [])
    ensures EndsInLF("id: " + id + "\n")
  {
    FieldLine(b, "id", id);
    assert "id" + ": " == "id: ";
  }

  lemma NothingRead(b: Buffers)
    ensures Parse(b, "") == Read(b, []) && EndsInLF("")
  {}

  lemma EventLine(b: Buffers, kind: string)
    requires OneLine(kind)
    ensures Parse(b, "event: " + kind + "\n") == Read(b.(kind := kind), [])
    ensures EndsInLF("event: " + kind + "\n")
  {
    FieldLine(b, "event", kind);
    assert "event" + ": " == "event: ";
  }

  // A data frame is read back as its one event exactly when it is clean; when
  // it is not, the first event read is another one.
  lemma DataFrameRead(b: Buffers, item: StreamObject)
    requires Settled(b) && CleanId(b.lastId) && item.error.None? && item.data != ""
    ensures var read := Parse(b, DataFrame(item));
            var id := if item.id.Some? then item.id.value else b.lastId;
            if CleanItem(item) then read == Read(Buffers("", "", id), [Event("message", item.data, id)])
            else read.events != [] && read.events[0] != Event("message", item.data, id)
  {
    var frame := DataFrame(item);
    if item.id.None? {
      NothingRead(b);
      assert frame == "" + "data: " + item.data + "\n\n";
      if OneLine(item.data) {
        CleanDataFrame(b, "", item.data, b);
      } else {
        BrokenDataFrame(b, "", item.data, b);
      }
    } else if !CleanId(item.id.value) {
      LinesWeigh(frame);
      IdsAreClean(b, Lines(frame));
      var prefix, rest := "id: " + item.id.value + "\n", "data: " + item.data + "\n\n";
      assert frame == prefix + rest;
      ParseAppend(b, prefix, rest);
      DataFrameDispatches(Parse(b, prefix).buffers, item.data);
    } else {
      var prefix := "id: " + item.id.value + "\n";
      IdLine(b, item.id.value);
      assert frame == prefix + "data: " + item.data + "\n\n";
      if OneLine(item.data) {
        CleanDataFrame(b, prefix, item.data, b.(lastId := item.id.value));
      } else {
        BrokenDataFrame(b, prefix, item.data, b.(lastId := item.id.value));
      }
    }
  }

  lemma TerminalFrameRead(b: Buffers, kind: string, data: string)
    requires Settled(b) && kind != "" && OneLine(kind)
    ensures var events := Parse(b, TerminalFrame(kind, data)).events;
            if OneLine(data) then events == [Event(kind, data, b.lastId)]
            else events != [] && events[0] != Event(kind, data, b.lastId)
  {
    EventLine(b, kind);
    var prefix := "event: " + kind + "\n";
    assert TerminalFrame(kind, data) == prefix + "data: " + data + "\n\n";
    if OneLine(data) {
      CleanDataFrame(b, prefix, data, b.(kind := kind));
    } else {
      BrokenDataFrame(b, prefix, data, b.(kind := kind));
    }
  }

  // ---- Whole streams ----

  predicate Framed(chunk: string) {
    |chunk| >= 2 && chunk[|chunk| - 2..] == "\n\n"
  }

  lemma {:induction false} ChunksAreFramed(signals: seq<Signal>)
    ensures forall i :: 0 <= i < |Chunks(signals)| ==> Framed(Chunks(signals)[i])
  {
    if signals != [] {
      ChunksAreFramed(signals[1..]);
      assert forall i :: 0 <= i < |ChunkOf(signals[0])| ==> Framed(ChunkOf(signals[0])[i]);
    }
  }

  lemma {:induction false} JoinedIsFramed(chunks: seq<string>)
    requires chunks != [] && forall i :: 0 <= i < |chunks| ==> Framed(chunks[i])
    ensures Framed(Joined(chunks))
  {
    if |chunks| == 1 {
      assert Joined(chunks[1..]) == "";
      assert Joined(chunks) == chunks[0];
    } else {
      JoinedIsFramed(chunks[1..]);
      var tail := Joined(chunks[1..]);
      assert (chunks[0] + tail)[|chunks[0] + tail| - 2..] == tail[|tail| - 2..];
    }
  }

  // After every flush, whatever the texts hold, no line, event type or data is
  // pending at the client.
  lemma EveryFlushCompletes(b: Buffers, signals: seq<Signal>, flushes: nat)
    requires Settled(b) && flushes <= |Chunks(signals)|
    ensures var sent := Joined(Chunks(signals)[..flushes]);
            Unfinished(sent) == "" && Settled(Parse(b, sent).buffers)
  {
    var chunks := Chunks(signals)[..flushes];
    if flushes > 0 {
      ChunksAreFramed(signals);
      JoinedIsFramed(chunks);
      var sent := Joined(chunks);
      var t := sent[..|sent| - 2];
      assert sent == t + "\n\n";
      EndsBlank(t);
      BlankLineSettles(b, Lines(sent));
    }
  }

  lemma JoinedCons(chunk: string, chunks: seq<string>)
    ensures Joined([chunk] + chunks) == chunk + Joined(chunks)
    ensures Joined([chunk]) == chunk
  {
    assert ([chunk] + chunks)[1..] == chunks;
    assert Joined([chunk][1..]) == "";
  }

  // The round trip: the client reads back exactly the non-empty items in
  // order, with their last event ids and the terminal event, if and only if no
  // text holds a CR or LF and no id a NUL.
  lemma {:induction false} RoundTrip(b: Buffers, signals: seq<Signal>)
    requires Settled(b) && CleanId(b.lastId)
    ensures Parse(b, Joined(Chunks(signals))).events == Expected(signals, b.lastId) <==> Clean(signals)
    decreases |signals|
  {
    if signals == [] || !StopsAt(signals[0]).StillRunning? {
      RoundTripStops(b, signals);
    } else if signals[0].item.data == "" {
      assert Chunks(signals) == Chunks(signals[1..]);
      RoundTrip(b, signals[1..]);
    } else {
      RoundTripItem(b, signals);
    }
  }

  lemma RoundTripStops(b: Buffers, signals: seq<Signal>)
    requires Settled(b) && (signals == [] || !StopsAt(signals[0]).StillRunning?)
    ensures Parse(b, Joined(Chunks(signals))).events == Expected(signals, b.lastId) <==> Clean(signals)
  {
    if signals == [] || signals[0].ClientLeft? {
      NothingRead(b);
    } else if signals[0].SourceClosed? {
      TerminalStreamRead(b, "end", "{}");
    } else {
      TerminalStreamRead(b, "error", signals[0].item.error.value);
    }
  }

  lemma TerminalStreamRead(b: Buffers, kind: string, data: string)
    requires Settled(b) && kind != "" && OneLine(kind)
    ensures Parse(b, Joined([TerminalFrame(kind, data)])).events == [Event(kind, data, b.lastId)] <==> OneLine(data)
  {
    JoinedCons(TerminalFrame(kind, data), []);
    TerminalFrameRead(b, kind, data);
  }

  lemma RoundTripItem(b: Buffers, signals: seq<Signal>)
    requires Settled(b) && CleanId(b.lastId)
    requires signals != [] && signals[0].Received? && signals[0].item.error.None? && signals[0].item.data != ""
    ensures Parse(b, Joined(Chunks(signals))).events == Expected(signals, b.lastId) <==> Clean(signals)
    decreases |signals|, 0
  {
    var item := signals[0].item;
    var frame, rest := DataFrame(item), Joined(Chunks(signals[1..]));
    JoinedCons(frame, Chunks(signals[1..]));
    assert Joined(Chunks(signals)) == frame + rest;
    ParseAppend(b, frame, rest);
    DataFrameRead(b, item);
    var read := Parse(b, frame);
    var id := if item.id.Some? then item.id.value else b.lastId;
    var meant, later := Event("message", item.data, id), Expected(signals[1..], id);
    assert Expected(signals, b.lastId) == [meant] + later;
    if CleanItem(item) {
      RoundTrip(read.buffers, signals[1..]);
      SameHead(meant, Parse(read.buffers, rest).events, later);
    } else {
      assert (read.events + Parse(read.buffers, rest).events)[0] == read.events[0];
    }
  }

  lemma SameHead<T>(x: T, xs: seq<T>, ys: seq<T>)
    ensures [x] + xs == [x] + ys <==> xs == ys
  {
    assert ([x] + xs)[1..] == xs && ([x] + ys)[1..] == ys;
  }

  // ---- Terminal events ----

  // The frame announces an event of this kind.
  predicate Announces(kind: string, chunk: string) {
    "event: " + kind + "\n" <= chunk
  }

  // On the bytes, whatever the texts hold: no chunk before the last announces an
  // event; the last one is the end frame exactly when the source closed, announces
  // an error exactly when an error object arrived, and else announces nothing.
  lemma {:induction false} OneTerminalFrame(signals: seq<Signal>)
    ensures TerminalAtMostLast(Chunks(signals), OutcomeOf(signals))
  {
    if signals != [] {
      FirstFrame(signals[0]);
      if StopsAt(signals[0]).StillRunning? {
        OneTerminalFrame(signals[1..]);
        DataFrameFirst(ChunkOf(signals[0]), Chunks(signals[1..]), OutcomeOf(signals[1..]));
      }
    }
  }

  predicate TerminalAtMostLast(chunks: seq<string>, outcome: Outcome) {
    && (forall i :: 0 <= i < |chunks| - 1 ==> !("event: " <= chunks[i]))
    && (outcome == Ended <==> chunks != [] && chunks[|chunks| - 1] == TerminalFrame("end", "{}"))
    && (outcome == Failed <==> chunks != [] && Announces("error", chunks[|chunks| - 1]))
    && (outcome in {Ended, Failed} <==> chunks != [] && "event: " <= chunks[|chunks| - 1])
  }

  lemma DataFrameFirst(first: seq<string>, rest: seq<string>, outcome: Outcome)
    requires first != [] ==> |first| == 1 && first[0] != "" && first[0][0] != 'e'
    requires TerminalAtMostLast(rest, outcome)
    ensures TerminalAtMostLast(first + rest, outcome)
  {
    if first == [] {
      assert first + rest == rest;
    } else if rest == [] {
      assert first + rest == first;
    } else {
      assert (first + rest)[|first + rest| - 1] == rest[|rest| - 1];
    }
  }

  // The start of a frame tells its kind.
  lemma FirstFrame(signal: Signal)
    ensures StopsAt(signal) == Ended ==>
              ChunkOf(signal) == [TerminalFrame("end", "{}")] && !Announces("error", ChunkOf(signal)[0])
    ensures StopsAt(signal) == Failed ==> |ChunkOf(signal)| == 1 && Announces("error", ChunkOf(signal)[0])
    ensures StopsAt(signal) == Failed ==> ChunkOf(signal)[0] != TerminalFrame("end", "{}")
    ensures StopsAt(signal) in {Ended, Failed} ==> "event: " <= ChunkOf(signal)[0]
    ensures StopsAt(signal) == Left ==> ChunkOf(signal) == []
    ensures StopsAt(signal) == StillRunning && ChunkOf(signal) != [] ==>
              |ChunkOf(signal)| == 1 && ChunkOf(signal)[0] != "" && ChunkOf(signal)[0][0] != 'e'
  {
    if signal.SourceClosed? {
      assert TerminalFrame("end", "{}")[8] == 'n' && "event: error\n"[8] == 'r';
    }
    if StopsAt(signal) == Failed {
      var data := signal.item.error.value;
      assert TerminalFrame("error", data) == "event: error\n" + ("data: " + data + "\n\n");
      assert TerminalFrame("end", "{}")[8] == 'n' && TerminalFrame("error", data)[8] == 'r';
    }
  }

  // What the source means: message events come first; at most one other event is
  // meant, and it is the last: "end" exactly when the source closed, "error"
  // exactly when an error object arrived, none when the client left first or the
  // stream goes on.
  lemma {:induction false} OneTerminalEvent(signals: seq<Signal>, lastId: string)
    ensures var events := Expected(signals, lastId);
            && (forall i :: 0 <= i < |events| - 1 ==> events[i].kind == "message")
            && (events != [] && events[|events| - 1].kind == "end" <==> OutcomeOf(signals) == Ended)
            && (events != [] && events[|events| - 1].kind == "error" <==> OutcomeOf(signals) == Failed)
            && (events != [] && events[|events| - 1].kind != "message" ==> OutcomeOf(signals) in {Ended, Failed})
  {
    if signals != [] {
      match signals[0]
      case Received(item) =>
        if item.error.None? {
          OneTerminalEvent(signals[1..], if item.data != "" && item.id.Some? then item.id.value else lastId);
        }
      case _ =>
    }
  }

  // So the events read from a clean stream end with its one terminal event.
  lemma TerminalEventIsRead(b: Buffers, signals: seq<Signal>)
    requires Settled(b) && CleanId(b.lastId) && Clean(signals)
    ensures var events := Parse(b, Joined(Chunks(signals))).events;
            && (forall i :: 0 <= i < |events| - 1 ==> events[i].kind == "message")
            && (events != [] && events[|events| - 1].kind == "end" <==> OutcomeOf(signals) == Ended)
            && (events != [] && events[|events| - 1].kind == "error" <==> OutcomeOf(signals) == Failed)
  {
    RoundTrip(b, signals);
    OneTerminalEvent(signals, b.lastId);
  }

  // Data that holds an event's frame after a blank line.
  function Forged(x: string, kind: string, data: string): string {
    x + "\n\n" + "event: " + kind + "\n" + "data: " + data
  }

  lemma ForgedFrame(x: string, kind: string, data: string)
    ensures "data: " + Forged(x, kind, data) + "\n\n" == "data: " + x + "\n\n" + TerminalFrame(kind, data)
  {}

  lemma ForgedFrameRead(b: Buffers, x: string, kind: string, data: string)
    requires Settled(b) && OneLine(x) && OneLine(kind) && OneLine(data) && kind != ""
    ensures Parse(b, "data: " + Forged(x, kind, data) + "\n\n").events ==
            [Event("message", x, b.lastId), Event(kind, data, b.lastId)]
  {
    ForgedFrame(x, kind, data);
    CleanDataIsRead(b, x);
    ParseAppend(b, "data: " + x + "\n\n", TerminalFrame(kind, data));
    TerminalFrameRead(Buffers("", "", b.lastId), kind, data);
  }

  // A stream that is not clean can make the reader see an event that was never
  // written, of any kind, "end" included, while the source goes on.
  lemma ForgedTerminalEvent(b: Buffers, x: string, kind: string, data: string)
    requires Settled(b) && OneLine(x) && OneLine(kind) && OneLine(data) && kind != ""
    ensures var signals := [Received(StreamObject(Forged(x, kind, data), None, None))];
            && OutcomeOf(signals) == StillRunning
            && Parse(b, Joined(Chunks(signals))).events ==
               [Event("message", x, b.lastId), Event(kind, data, b.lastId)]
  {
    var item := StreamObject(Forged(x, kind, data), None, None);
    var signals := [Received(item)];
    assert signals[1..] == [] && Chunks(signals) == [DataFrame(item)];
    assert DataFrame(item) == "data: " + item.data + "\n\n";
    JoinedCons(DataFrame(item), []);
    ForgedFrameRead(b, x, kind, data);
  }

  // ---- What an unclean text can do ----

  predicate IsMessageKind(kind: string) {
    kind == "" || kind == "message"
  }

  predicate AllMessages(events: seq<Event>) {
    forall i :: 0 <= i < |events| ==> events[i].kind == "message"
  }

  // Scans lines for the event they announce: whether the event type last named
  // is not a message's, and whether there is data, both since the last blank line.
  predicate Announcing(named: bool, data: bool, lines: seq<string>)
    decreases |lines|
  {
    lines != [] &&
    if lines[0] == "" then (named && data) || Announcing(false, false, lines[1..])
    else
      var field := FieldName(lines[0]);
      Announcing(if field == "event" then !IsMessageKind(FieldValue(lines[0])) else named,
                 data || field == "data", lines[1..])
  }

  // What one line does to the event type and the data, and what a blank line dispatches.
  lemma LineEffect(b: Buffers, line: string)
    requires line != ""
    ensures var read := ProcessLine(b, line);
            && read.events == []
            && read.buffers.kind == (if FieldName(line) == "event" then FieldValue(line) else b.kind)
            && (read.buffers.data != "" <==> b.data != "" || FieldName(line) == "data")
  {
    assert line[0] == ':' ==> Colon(line) == 0 && FieldName(line) == "";
    assert "event"[0] != "data"[0] && "event"[0] != "id"[0] && "data"[0] != "id"[0];
  }

  lemma BlankEffect(b: Buffers)
    ensures var read := ProcessLine(b, "");
            && read.buffers.kind == "" && read.buffers.data == ""
            && (b.data == "" ==> read.events == [])
            && (b.data != "" ==>
                  |read.events| == 1 && read.events[0].kind == if b.kind == "" then "message" else b.kind)
  {}

  // The reader sees an event that is not a message exactly when the lines announce one.
  lemma {:induction false} AnnouncedExactly(b: Buffers, lines: seq<string>)
    ensures AllMessages(Interpret(b, lines).events) <==>
            !Announcing(!IsMessageKind(b.kind), b.data != "", lines)
    decreases |lines|
  {
    if lines != [] {
      var head := ProcessLine(b, lines[0]);
      var tail := Interpret(head.buffers, lines[1..]);
      if lines[0] == "" {
        BlankEffect(b);
      } else {
        LineEffect(b, lines[0]);
      }
      AnnouncedExactly(head.buffers, lines[1..]);
      MessagesAppend(head.events, tail.events);
    }
  }

  lemma MessagesAppend(a: seq<Event>, b: seq<Event>)
    ensures AllMessages(a + b) <==> AllMessages(a) && AllMessages(b)
  {
    if AllMessages(a + b) {
      assert forall i :: 0 <= i < |a| ==> a[i] == (a + b)[i];
      assert forall i :: 0 <= i < |b| ==> b[i] == (a + b)[|a| + i];
    }
  }

  predicate FrameAnnounces(chunk: string) {
    Announcing(false, false, Lines(chunk))
  }

  // For every stream, clean or not, and every flush: the reader has seen only
  // messages exactly when no chunk so far announces anything else.
  lemma {:induction false} OnlyMessagesExactly(b: Buffers, chunks: seq<string>)
    requires Settled(b) && forall i :: 0 <= i < |chunks| ==> Framed(chunks[i])
    ensures AllMessages(Parse(b, Joined(chunks)).events) <==>
            forall i :: 0 <= i < |chunks| ==> !FrameAnnounces(chunks[i])
    decreases |chunks|
  {
    if chunks == [] {
      NothingRead(b);
    } else {
      var first, rest := chunks[0], Joined(chunks[1..]);
      FrameSettles(b, first);
      ParseAppend(b, first, rest);
      var read := Parse(b, first);
      AnnouncedExactly(b, Lines(first));
      OnlyMessagesExactly(read.buffers, chunks[1..]);
      MessagesAppend(read.events, Parse(read.buffers, rest).events);
      assert forall i :: 0 <= i < |chunks| - 1 ==> chunks[1..][i] == chunks[i + 1];
    }
  }

  lemma FrameSettles(b: Buffers, chunk: string)
    requires Framed(chunk)
    ensures EndsInLF(chunk) && Settled(Parse(b, chunk).buffers)
  {
    var t := chunk[..|chunk| - 2];
    assert chunk == t + "\n\n";
    EndsBlank(t);
    BlankLineSettles(b, Lines(chunk));
  }

  lemma FlushedMessagesExactly(b: Buffers, signals: seq<Signal>, flushes: nat)
    requires Settled(b) && flushes <= |Chunks(signals)|
    ensures AllMessages(Parse(b, Joined(Chunks(signals)[..flushes])).events) <==>
            forall i :: 0 <= i < flushes ==> !FrameAnnounces(Chunks(signals)[i])
  {
    var chunks := Chunks(signals);
    ChunksAreFramed(signals);
    OnlyMessagesExactly(b, chunks[..flushes]);
    assert forall i :: 0 <= i < flushes ==> chunks[..flushes][i] == chunks[i];
  }

  // No line of the text is a field "event".
  predicate NoEventLine(text: string) {
    forall i :: 0 <= i < |Lines(text)| ==> FieldName(Lines(text)[i]) != "event"
  }

  lemma {:induction false} NothingAnnounced(data: bool, lines: seq<string>)
    requires forall i :: 0 <= i < |lines| ==> FieldName(lines[i]) != "event"
    ensures !Announcing(false, data, lines)
    decreases |lines|
  {
    if lines != [] {
      NothingAnnounced(lines[0] != "" && (data || FieldName(lines[0]) == "data"), lines[1..]);
    }
  }

  // So it takes an event line in some text: without one, the reader sees
  // messages only.
  lemma MessagesWithoutEventLines(b: Buffers, signals: seq<Signal>, flushes: nat)
    requires Settled(b) && flushes <= |Chunks(signals)|
    requires forall i :: 0 <= i < flushes ==> NoEventLine(Chunks(signals)[i])
    ensures AllMessages(Parse(b, Joined(Chunks(signals)[..flushes])).events)
  {
    forall i | 0 <= i < flushes ensures !FrameAnnounces(Chunks(signals)[i]) {
      NothingAnnounced(false, Lines(Chunks(signals)[i]));
    }
    FlushedMessagesExactly(b, signals, flushes);
  }

  // ---- When the reader sees how the stream ended ----

  // Messages, and then at most one other event, which tells how the stream ended.
  predicate TellsOutcome(events: seq<Event>, outcome: Outcome) {
    if outcome == Ended then EndsIn(events, "end")
    else if outcome == Failed then EndsIn(events, "error")
    else AllMessages(events)
  }

  predicate EndsIn(events: seq<Event>, kind: string) {
    events != [] && events[|events| - 1].kind == kind && AllMessages(events[..|events| - 1])
  }

  // Some blank line comes after data.
  predicate Dispatching(data: bool, lines: seq<string>)
    decreases |lines|
  {
    lines != [] &&
    if lines[0] == "" then data || Dispatching(false, lines[1..])
    else Dispatching(data || FieldName(lines[0]) == "data", lines[1..])
  }

  // Scans lines for messages and then one last event of this kind.
  predicate EndingIn(last: string, kind: string, data: bool, lines: seq<string>)
    decreases |lines|
  {
    lines != [] &&
    if lines[0] == "" then
      if !data then EndingIn(last, "", false, lines[1..])
      else if kind == last then !Dispatching(false, lines[1..])
      else IsMessageKind(kind) && EndingIn(last, "", false, lines[1..])
    else
      var field := FieldName(lines[0]);
      EndingIn(last, if field == "event" then FieldValue(lines[0]) else kind, data || field == "data", lines[1..])
  }

  lemma {:induction false} DispatchedExactly(b: Buffers, lines: seq<string>)
    ensures Interpret(b, lines).events != [] <==> Dispatching(b.data != "", lines)
    decreases |lines|
  {
    if lines != [] {
      if lines[0] == "" {
        BlankEffect(b);
      } else {
        LineEffect(b, lines[0]);
      }
      DispatchedExactly(ProcessLine(b, lines[0]).buffers, lines[1..]);
    }
  }

  lemma {:induction false} EndsInExactly(b: Buffers, last: string, lines: seq<string>)
    requires !IsMessageKind(last)
    ensures EndsIn(Interpret(b, lines).events, last) <==> EndingIn(last, b.kind, b.data != "", lines)
    decreases |lines|
  {
    if lines != [] {
      var head := ProcessLine(b, lines[0]);
      var tail := Interpret(head.buffers, lines[1..]);
      EndsInExactly(head.buffers, last, lines[1..]);
      if lines[0] != "" {
        LineEffect(b, lines[0]);
        assert head.events + tail.events == tail.events;
      } else {
        BlankEffect(b);
        DispatchedExactly(head.buffers, lines[1..]);
        if b.data == "" {
          assert head.events + tail.events == tail.events;
        } else {
          OneThenRest(head.events, tail.events, last);
        }
      }
    }
  }

  lemma OneThenRest(one: seq<Event>, rest: seq<Event>, last: string)
    requires |one| == 1 && last != "message"
    ensures EndsIn(one + rest, last) <==>
            if rest == [] then one[0].kind == last else one[0].kind == "message" && EndsIn(rest, last)
  {
    if rest == [] {
      assert one + rest == one && one[..|one| - 1] == [];
    } else {
      EndsInAppend(one, rest, last);
    }
  }

  lemma EndsInAppend(a: seq<Event>, b: seq<Event>, last: string)
    requires b != []
    ensures EndsIn(a + b, last) <==> AllMessages(a) && EndsIn(b, last)
  {
    assert (a + b)[..|a + b| - 1] == a + b[..|b| - 1];
    MessagesAppend(a, b[..|b| - 1]);
  }

  // How many chunks are data frames.
  function DataFrames(signals: seq<Signal>): nat {
    if Chunks(signals) != [] && OutcomeOf(signals) in {Ended, Failed} then |Chunks(signals)| - 1 else |Chunks(signals)|
  }

  // For every stream, clean or not: the reader sees messages and then just how
  // the stream ended, if and only if no data frame announces an event and the
  // error frame, if there is one, ends in its error.
  lemma OutcomeToldExactly(b: Buffers, signals: seq<Signal>)
    requires Settled(b)
    ensures TellsOutcome(Parse(b, Joined(Chunks(signals))).events, OutcomeOf(signals)) <==>
            && (forall i :: 0 <= i < DataFrames(signals) ==> !FrameAnnounces(Chunks(signals)[i]))
            && (OutcomeOf(signals) == Failed ==>
                  Chunks(signals) != [] && EndingIn("error", "", false, Lines(Chunks(signals)[DataFrames(signals)])))
  {
    var chunks, n := Chunks(signals), DataFrames(signals);
    ChunksAreFramed(signals);
    FlushedMessagesExactly(b, signals, n);
    if OutcomeOf(signals) in {Ended, Failed} {
      EndToldExactly(b, signals);
    } else {
      assert chunks[..n] == chunks;
    }
  }

  lemma EndToldExactly(b: Buffers, signals: seq<Signal>)
    requires Settled(b) && OutcomeOf(signals) in {Ended, Failed}
    ensures var chunks, n := Chunks(signals), DataFrames(signals);
            && chunks != []
            && (TellsOutcome(Parse(b, Joined(chunks)).events, OutcomeOf(signals)) <==>
                && AllMessages(Parse(b, Joined(chunks[..n])).events)
                && (OutcomeOf(signals) == Failed ==> EndingIn("error", "", false, Lines(chunks[n]))))
  {
    var chunks, n := Chunks(signals), DataFrames(signals);
    var kind, data := LastFrame(signals);
    ChunksAreFramed(signals);
    KindsOfEnd();
    LastChunkReadExactly(b, chunks, kind, data);
  }

  lemma LastChunkReadExactly(b: Buffers, chunks: seq<string>, kind: string, data: string)
    requires Settled(b) && forall i :: 0 <= i < |chunks| ==> Framed(chunks[i])
    requires chunks != [] && chunks[|chunks| - 1] == TerminalFrame(kind, data)
    requires !IsMessageKind(kind) && OneLine(kind)
    ensures var n := |chunks| - 1;
            && (EndsIn(Parse(b, Joined(chunks)).events, kind) <==>
                AllMessages(Parse(b, Joined(chunks[..n])).events) && EndingIn(kind, "", false, Lines(chunks[n])))
            && (OneLine(data) ==> EndingIn(kind, "", false, Lines(chunks[n])))
  {
    var n := |chunks| - 1;
    JoinedSnoc(chunks[..n], chunks[n]);
    assert chunks[..n] + [chunks[n]] == chunks;
    LastFrameReadExactly(b, chunks[..n], kind, data);
  }

  lemma KindsOfEnd()
    ensures OneLine("end") && OneLine("error") && OneLine("{}")
    ensures !IsMessageKind("end") && !IsMessageKind("error")
  {}

  lemma {:induction false} JoinedSnoc(chunks: seq<string>, last: string)
    ensures Joined(chunks + [last]) == Joined(chunks) + last
  {
    if chunks == [] {
      JoinedCons(last, []);
      assert chunks + [last] == [last];
    } else {
      JoinedSnoc(chunks[1..], last);
      assert chunks + [last] == [chunks[0]] + (chunks[1..] + [last]);
      JoinedCons(chunks[0], chunks[1..] + [last]);
    }
  }

  lemma {:induction false} LastFrame(signals: seq<Signal>) returns (kind: string, data: string)
    requires OutcomeOf(signals) in {Ended, Failed}
    ensures Chunks(signals) != [] && Chunks(signals)[|Chunks(signals)| - 1] == TerminalFrame(kind, data)
    ensures OutcomeOf(signals) == Ended ==> kind == "end" && data == "{}"
    ensures OutcomeOf(signals) == Failed ==> kind == "error"
  {
    match signals[0]
    case SourceClosed => return "end", "{}";
    case Received(item) =>
      if item.error.Some? {
        return "error", item.error.value;
      }
      kind, data := LastFrame(signals[1..]);
      assert Chunks(signals) == ChunkOf(signals[0]) + Chunks(signals[1..]);
    case ClientLeft => assert false;
  }

  lemma LastFrameReadExactly(b: Buffers, chunks: seq<string>, kind: string, data: string)
    requires Settled(b) && forall i :: 0 <= i < |chunks| ==> Framed(chunks[i])
    requires !IsMessageKind(kind) && OneLine(kind)
    ensures var frame := TerminalFrame(kind, data);
            && (EndsIn(Parse(b, Joined(chunks) + frame).events, kind) <==>
                AllMessages(Parse(b, Joined(chunks)).events) && EndingIn(kind, "", false, Lines(frame)))
            && (OneLine(data) ==> EndingIn(kind, "", false, Lines(frame)))
  {
    var before, frame := Joined(chunks), TerminalFrame(kind, data);
    JoinedSettles(b, chunks);
    var read := Parse(b, before);
    ParseAppend(b, before, frame);
    TerminalFrameRead(read.buffers, kind, data);
    EndsInExactly(read.buffers, kind, Lines(frame));
    EndsInAppend(read.events, Parse(read.buffers, frame).events, kind);
  }

  lemma JoinedSettles(b: Buffers, chunks: seq<string>)
    requires Settled(b) && forall i :: 0 <= i < |chunks| ==> Framed(chunks[i])
    ensures EndsInLF(Joined(chunks)) && Settled(Parse(b, Joined(chunks)).buffers)
  {
    if chunks == [] {
      NothingRead(b);
    } else {
      JoinedIsFramed(chunks);
      FrameSettles(b, Joined(chunks));
    }
  }
}
