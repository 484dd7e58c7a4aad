/**
  The Codex event stream: records ended by a blank line, reassembled from
  whatever pieces the transport delivers, up to the first error event
  (src/providers/openai_codex_provider.cpp).
 */
module CodexStream {
  import opened Text
  import opened Transcript
  import opened Normalize
  import opened Framing

  const MAX_ERROR_BODY := 128 * 1024

  /** A parsed event, told apart as far as the handler tells it apart. */
  datatype Event =
    | Failure(message: string)
    | TextDelta(text: string)
    | ItemAdded(item: string, callId: string, name: string)
    | ArgumentsDone(item: string, newId: Option<string>, newName: Option<string>, arguments: Json)
    | Finished(reason: string, usage: Json)
    | Ignored

  /** What the caller's callback receives. */
  datatype Output = TextOut(text: string) | CallOut(call: ToolCall) | EndOut(reason: string, usage: Json)

  datatype State = State(outputs: seq<Output>, pending: map<string, ToolCall>, error: Option<string>)

  const START := State([], map[], None)

  function Or(o: Option<string>, default: string): string { if o.Some? then o.value else default }

  function Handle(s: State, e: Event): State {
    match e
    case Failure(message) => s.(error := Some(message))
    case TextDelta(text) => if text == "" then s else s.(outputs := s.outputs + [TextOut(text)])
    case ItemAdded(item, callId, name) => s.(pending := s.pending[item := ToolCall(callId, name, EMPTY_OBJECT)])
    case ArgumentsDone(item, callId, name, arguments) =>
      var call := if item in s.pending then s.pending[item] else ToolCall("", "", Null);
      s.(pending := s.pending - {item}, outputs := s.outputs + [CallOut(ToolCall(Or(callId, call.id), Or(name, call.name), arguments))])
    case Finished(reason, usage) => s.(outputs := s.outputs + [EndOut(reason, usage)])
    case Ignored => s
  }

  /** What a line contributes to the record's data. */
  function Payload(line: string): string { Or(DataField(line), "") }

  /** The lines of a record; a last line without a newline counts if it is not empty. */
  function Lines(record: string): seq<string> {
    Records(record, "\n") + if Rest(record, "\n") != "" then [Rest(record, "\n")] else []
  }

  function Payloads(lines: seq<string>): string {
    if lines == [] then "" else Payload(lines[0]) + Payloads(lines[1..])
  }

  function Data(record: string): string { Payloads(Lines(record)) }

  /** One record. After an error nothing more is handled. */
  function Step(parse: string -> Option<Event>, s: State, record: string): State {
    var data := Data(record);
    if s.error.Some? || data == "" || data == "[DONE]" || parse(data).None? then s else Handle(s, parse(data).value)
  }

  function Run(parse: string -> Option<Event>, s: State, records: seq<string>): State
    decreases |records|
  {
    if records == [] then s else Run(parse, Step(parse, s, records[0]), records[1..])
  }

  lemma {:induction false} RunAppend(parse: string -> Option<Event>, s: State, a: seq<string>, b: seq<string>)
    ensures Run(parse, s, a + b) == Run(parse, Run(parse, s, a), b)
    decreases |a|
  {
    if a == [] {
      assert a + b == b;
    } else {
      assert (a + b)[1..] == a[1..] + b;
      RunAppend(parse, Step(parse, s, a[0]), a[1..], b);
    }
  }

  lemma {:induction false} RunStuck(parse: string -> Option<Event>, s: State, records: seq<string>)
    requires s.error.Some?
    ensures Run(parse, s, records) == s
    decreases |records|
  {
    if records != [] { RunStuck(parse, s, records[1..]); }
  }

  /** Handle complete records, stopping at an error. */
  function Consume(parse: string -> Option<Event>, s: State, buffer: string): (State, string)
    decreases |buffer|
  {
    match Find(buffer, "\n\n", 0)
    case None => (s, buffer)
    case Some(k) =>
      var s', rest := Step(parse, s, buffer[..k]), buffer[k + 2..];
      if s'.error.Some? then (s', rest) else Consume(parse, s', rest)
  }

  lemma {:induction false} ConsumeIsRun(parse: string -> Option<Event>, s: State, buffer: string)
    requires s.error == None
    ensures Consume(parse, s, buffer).0 == Run(parse, s, Records(buffer, "\n\n"))
    ensures Consume(parse, s, buffer).0.error == None ==> Consume(parse, s, buffer).1 == Rest(buffer, "\n\n")
    decreases |buffer|
  {
    match Find(buffer, "\n\n", 0) {
      case None =>
      case Some(k) =>
        var s', rest := Step(parse, s, buffer[..k]), buffer[k + 2..];
        assert Records(buffer, "\n\n")[1..] == Records(rest, "\n\n");
        if s'.error.Some? {
          RunStuck(parse, s', Records(rest, "\n\n"));
        } else {
          ConsumeIsRun(parse, s', rest);
        }
    }
  }

  /** The bytes kept for an error message. */
  function Clip(s: string): string { if |s| <= MAX_ERROR_BODY then s else s[..MAX_ERROR_BODY] }

  /** The inner loop: gathers the data of one record, line by line. */
  method Gather(record: string) returns (data: string)
    ensures data == Data(record)
  {
    data := "";
    var rest := record;
    while rest != ""
      invariant Payloads(Lines(record)) == data + Payloads(Lines(rest))
      decreases |rest|
    {
      var newline := Find(rest, "\n", 0);
      var line := if newline.Some? then rest[..newline.value] else rest;
      var tail := if newline.Some? then rest[newline.value + 1..] else "";
      LinesCons(rest);
      data := data + Payload(line);
      rest := tail;
    }
    assert Lines("") == [];
  }

  lemma LinesCons(s: string)
    requires s != ""
    ensures var newline := Find(s, "\n", 0);
            Lines(s) == [if newline.Some? then s[..newline.value] else s] + Lines(if newline.Some? then s[newline.value + 1..] else "")
  {
    assert Records("", "\n") == [] && Rest("", "\n") == "";
  }

  class StreamContext {
    var buffer: string
    var rawBody: string
    var outputs: seq<Output>
    var pending: map<string, ToolCall>
    var error: Option<string>
    const parse: string -> Option<Event>

    ghost function View(): State
      reads this
    {
      State(outputs, pending, error)
    }

    constructor (parse: string -> Option<Event>)
      ensures View() == START && buffer == "" && rawBody == "" && this.parse == parse
    {
      this.parse := parse;
      buffer, rawBody, outputs, pending, error := "", "", [], map[], None;
    }

    /** handle_stream_event; a failure is recorded and ends the transfer. */
    method HandleEvent(e: Event)
      modifies this
      ensures View() == Handle(old(View()), e) && buffer == old(buffer) && rawBody == old(rawBody)
    {
      match e
      case Failure(message) => error := Some(message);
      case TextDelta(text) => if text != "" { outputs := outputs + [TextOut(text)]; }
      case ItemAdded(item, callId, name) => pending := pending[item := ToolCall(callId, name, EMPTY_OBJECT)];
      case ArgumentsDone(item, callId, name, arguments) =>
        var call := ToolCall("", "", Null);
        if item in pending {
          call := pending[item];
          pending := pending - {item};
        }
        outputs := outputs + [CallOut(ToolCall(Or(callId, call.id), Or(name, call.name), arguments))];
      case Finished(reason, usage) => outputs := outputs + [EndOut(reason, usage)];
      case Ignored =>
    }

    /** One complete record. */
    method HandleRecord(record: string)
      requires error == None
      modifies this
      ensures View() == Step(parse, old(View()), record) && buffer == old(buffer) && rawBody == old(rawBody)
    {
      var data := Gather(record);
      if data == "" || data == "[DONE]" {
        return;
      }
      var event := parse(data);
      if event.Some? {
        HandleEvent(event.value);
      }
    }

    /** The first bytes of the body are kept for error messages. */
    method KeepBody(chunk: string)
      modifies this`rawBody
      ensures rawBody == Kept(old(rawBody), chunk)
    {
      if |rawBody| < MAX_ERROR_BODY {
        var remaining := MAX_ERROR_BODY - |rawBody|;
        rawBody := rawBody + if |chunk| < remaining then chunk else chunk[..remaining];
      }
    }

    /** stream_write_callback: false makes the transport stop. */
    method StreamWriteCallback(chunk: string) returns (go: bool)
      requires error == None
      modifies this
      ensures go <==> error == None
      ensures View() == Run(parse, old(View()), Records(old(buffer) + chunk, "\n\n"))
      ensures go ==> buffer == Rest(old(buffer) + chunk, "\n\n")
      ensures rawBody == Kept(old(rawBody), chunk)
    {
      KeepBody(chunk);
      buffer := buffer + chunk;
      ConsumeIsRun(parse, View(), buffer);
      ghost var all, body := buffer, rawBody;
      var pos := Find(buffer, "\n\n", 0);
      while pos.Some?
        invariant pos == Find(buffer, "\n\n", 0) && error == None && rawBody == body
        invariant Consume(parse, View(), buffer) == Consume(parse, old(View()), all)
        decreases |buffer|
      {
        var record := buffer[..pos.value];
        buffer := buffer[pos.value + 2..];
        HandleRecord(record);
        if error.Some? {
          return false;
        }
        pos := Find(buffer, "\n\n", 0);
      }
      go := true;
    }
  }

  function Kept(body: string, chunk: string): string {
    if |body| < MAX_ERROR_BODY then Clip(body + chunk) else body
  }

  lemma ClipAppend(a: string, b: string)
    ensures Kept(Clip(a), b) == Clip(a + b)
  {
  }

  /**
    However the stream is cut into callbacks, what the caller receives, the
    pending calls and the error are those of handling the records of the whole
    stream in turn; without an error the buffers agree as well.
   */
  method Receive(chunks: seq<string>, parse: string -> Option<Event>) returns (ctx: StreamContext)
    ensures ctx.View() == Run(parse, START, Records(Concat(chunks), "\n\n"))
    ensures ctx.error == None ==> ctx.buffer == Rest(Concat(chunks), "\n\n") && ctx.rawBody == Clip(Concat(chunks))
  {
    ctx := new StreamContext(parse);
    assert Records([], "\n\n") == [] && Rest([], "\n\n") == [] && Concat([]) == [] && Clip([]) == [];
    var i, go := 0, true;
    while i < |chunks| && go
      invariant 0 <= i <= |chunks| && ctx.parse == parse && (go <==> ctx.error == None)
      invariant ctx.View() == Run(parse, START, Records(Concat(chunks[..i]), "\n\n"))
      invariant go ==> ctx.buffer == Rest(Concat(chunks[..i]), "\n\n") && ctx.rawBody == Clip(Concat(chunks[..i]))
    {
      NextChunk(chunks, i, parse);
      go := ctx.StreamWriteCallback(chunks[i]);
      i := i + 1;
    }
    if go {
      assert chunks[..i] == chunks;
    } else {
      Unheard(chunks, i, parse);
    }
  }

  lemma NextChunk(chunks: seq<string>, i: nat, parse: string -> Option<Event>)
    requires i < |chunks|
    ensures var before, after := Concat(chunks[..i]), Concat(chunks[..i + 1]);
            var all := Rest(before, "\n\n") + chunks[i];
            && Run(parse, START, Records(after, "\n\n")) == Run(parse, Run(parse, START, Records(before, "\n\n")), Records(all, "\n\n"))
            && Rest(after, "\n\n") == Rest(all, "\n\n")
            && Kept(Clip(before), chunks[i]) == Clip(after)
  {
    var before := Concat(chunks[..i]);
    assert chunks[..i + 1] == chunks[..i] + [chunks[i]];
    ConcatSnoc(chunks[..i], chunks[i]);
    SplitAppend(before, chunks[i], "\n\n");
    RunAppend(parse, START, Records(before, "\n\n"), Records(Rest(before, "\n\n") + chunks[i], "\n\n"));
    ClipAppend(before, chunks[i]);
  }

  /** Chunks after an error would not have changed anything. */
  lemma {:induction false} Unheard(chunks: seq<string>, i: nat, parse: string -> Option<Event>)
    requires i <= |chunks|
    ensures var s := Run(parse, START, Records(Concat(chunks[..i]), "\n\n"));
            s.error.Some? ==> Run(parse, START, Records(Concat(chunks), "\n\n")) == s
    decreases |chunks| - i
  {
    if Run(parse, START, Records(Concat(chunks[..i]), "\n\n")).error == None {
      return;
    }
    if i < |chunks| {
      NextChunk(chunks, i, parse);
      var before := Concat(chunks[..i]);
      RunStuck(parse, Run(parse, START, Records(before, "\n\n")), Records(Rest(before, "\n\n") + chunks[i], "\n\n"));
      Unheard(chunks, i + 1, parse);
    } else {
      assert chunks[..i] == chunks;
    }
  }
}
