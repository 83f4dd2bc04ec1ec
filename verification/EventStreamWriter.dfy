// The handler that streams a source's objects to a client as server-sent events.
module EventStreamWriter {
  import opened Wrappers

  // An object of the stream; only some kinds of object carry an id.
  datatype StreamObject = StreamObject(data: string, id: Option<string>, error: Option<string>)

  // What one pass of the select receives: the client left, the source closed
  // its channel, or it sent an object.
  datatype Signal = ClientLeft | SourceClosed | Received(item: StreamObject)

  datatype Outcome = Refused | StillRunning | Left | Ended | Failed

  // Printed text collects until it is flushed to the client as one chunk.
  class ResponseWriter {
    var headersSent: bool
    var buffered: string
    var chunks: seq<string>

    constructor ()
      ensures !headersSent && buffered == "" && chunks == []
    {
      headersSent, buffered, chunks := false, "", [];
    }

    method Print(text: string)
      modifies this`buffered
      ensures buffered == old(buffered) + text
    {
      buffered := buffered + text;
    }

    method Flush()
      modifies this`buffered, this`chunks
      ensures buffered == "" && chunks == old(chunks) + [old(buffered)]
    {
      chunks, buffered := chunks + [buffered], "";
    }
  }

  // ---- What is written, signal by signal ----

  function TerminalFrame(kind: string, data: string): string {
    "event: " + kind + "\n" + "data: " + data + "\n\n"
  }

  function DataFrame(item: StreamObject): string {
    (if item.id.Some? then "id: " + item.id.value + "\n" else "") + "data: " + item.data + "\n\n"
  }

  // What one signal makes the handler flush: at most one chunk.
  function ChunkOf(signal: Signal): seq<string> {
    match signal
    case ClientLeft => []
    case SourceClosed => [TerminalFrame("end", "{}")]
    case Received(item) =>
      if item.error.Some? then [TerminalFrame("error", item.error.value)]
      else if item.data != "" then [DataFrame(item)]
      else []
  }

  function StopsAt(signal: Signal): Outcome {
    match signal
    case ClientLeft => Left
    case SourceClosed => Ended
    case Received(item) => if item.error.Some? then Failed else StillRunning
  }

  // The chunks a client has been sent once these signals have been received;
  // signals after the one that stops the handler are never received.
  function Chunks(signals: seq<Signal>): seq<string> {
    if signals == [] then []
    else if StopsAt(signals[0]).StillRunning? then ChunkOf(signals[0]) + Chunks(signals[1..])
    else ChunkOf(signals[0])
  }

  function OutcomeOf(signals: seq<Signal>): Outcome {
    if signals == [] then StillRunning
    else if StopsAt(signals[0]).StillRunning? then OutcomeOf(signals[1..])
    else StopsAt(signals[0])
  }

  method WriteTerminal(w: ResponseWriter, kind: string, data: string)
    requires w.buffered == ""
    modifies w`buffered, w`chunks
    ensures w.buffered == "" && w.chunks == old(w.chunks) + [TerminalFrame(kind, data)]
  {
    w.Print("event: " + kind + "\n" + "data: " + data + "\n\n");
    assert w.buffered == TerminalFrame(kind, data);
    w.Flush();
  }

  method WriteData(w: ResponseWriter, item: StreamObject)
    requires w.buffered == ""
    modifies w`buffered, w`chunks
    ensures w.buffered == "" && w.chunks == old(w.chunks) + [DataFrame(item)]
  {
    if item.id.Some? {
      w.Print("id: " + item.id.value + "\n");
    }
    w.Print("data: " + item.data + "\n\n");
    assert w.buffered == DataFrame(item);
    w.Flush();
  }

  // One pass of the select. The handler goes on only after an object without an error.
  method HandleSignal(w: ResponseWriter, signal: Signal) returns (outcome: Outcome)
    requires w.buffered == ""
    modifies w`buffered, w`chunks
    ensures w.buffered == "" && outcome == StopsAt(signal) && w.chunks == old(w.chunks) + ChunkOf(signal)
  {
    match signal
    case ClientLeft =>
      return Left;
    case SourceClosed =>
      WriteTerminal(w, "end", "{}");
      return Ended;
    case Received(item) =>
      if item.error.Some? {
        WriteTerminal(w, "error", item.error.value);
        return Failed;
      }
      if item.data != "" {
        WriteData(w, item);
      }
      return StillRunning;
  }

  // canFlush and source stand for the two set-up failures: a response writer
  // that cannot flush and a source that cannot be streamed.
  method InternalStreamHandler(w: ResponseWriter, canFlush: bool, source: Option<seq<Signal>>)
      returns (outcome: Outcome)
    requires w.buffered == ""
    modifies w
    ensures w.buffered == ""
    ensures !canFlush || source.None? ==>
            outcome == Refused && w.chunks == old(w.chunks) && w.headersSent == old(w.headersSent)
    ensures canFlush && source.Some? ==>
              outcome == OutcomeOf(source.value) && w.chunks == old(w.chunks) + Chunks(source.value) && w.headersSent
  {
    if !canFlush || source.None? {
      return Refused;
    }
    w.headersSent := true;
    outcome := StillRunning;
    var pending := source.value;
    while pending != [] && outcome.StillRunning?
      invariant w.headersSent && w.buffered == ""
      invariant outcome.StillRunning? ==> w.chunks + Chunks(pending) == old(w.chunks) + Chunks(source.value)
      invariant outcome.StillRunning? ==> OutcomeOf(pending) == OutcomeOf(source.value)
      invariant !outcome.StillRunning? ==>
              outcome == OutcomeOf(source.value) && w.chunks == old(w.chunks) + Chunks(source.value)
      decreases |pending|
    {
      ghost var sent := w.chunks;
      assert sent + (ChunkOf(pending[0]) + Chunks(pending[1..])) == sent + ChunkOf(pending[0]) + Chunks(pending[1..]);
      outcome := HandleSignal(w, pending[0]);
      pending := pending[1..];
    }
  }
}
