/**
  The OpenAI event stream: lines reassembled from whatever pieces the transport
  delivers, tool calls accumulated from deltas (src/providers/openai_provider.cpp).
 */
module OpenAIStream {
  import opened Text
  import opened Transcript
  import opened Normalize
  import opened Framing

  const MAX_INDEX := 256

  datatype CallDelta = CallDelta(index: int, id: Option<string>, name: Option<string>, arguments: Option<string>)

  /** The first choice of a parsed chunk; absent texts are empty. */
  datatype Delta = Delta(content: string, reasoningContent: string, reasoning: string, calls: seq<CallDelta>, finish: string)

  /** What the caller's callback receives. */
  datatype Output = Content(text: string) | Reasoning(text: string) | Calls(calls: seq<ToolCall>) | End

  datatype State = State(outputs: seq<Output>, pending: seq<Fragment>, seen: set<string>)

  /** The JSON parser, None for anything without choices, and the name and argument repair. */
  datatype Env = Env(parse: string -> Option<Delta>, nz: Normalizer)

  const START := State([], [], {})

  // ---------- one line ----------

  function Or(o: Option<string>, default: string): string { if o.Some? then o.value else default }

  function Resized(pending: seq<Fragment>, size: nat): (r: seq<Fragment>)
    ensures |r| == if |pending| < size then size else |pending|
    decreases size - |pending|
  {
    if |pending| < size then Resized(pending + [Fragment(0, "", "", "")], size) else pending
  }

  /** One delta updates the slot of its index; bad indices are ignored. */
  function AddCall(pending: seq<Fragment>, d: CallDelta): seq<Fragment> {
    if !(0 <= d.index < MAX_INDEX) then pending
    else
      var slots := Resized(pending, d.index + 1);
      var f := slots[d.index];
      slots[d.index := Fragment(d.index, Or(d.id, f.id), Or(d.name, f.name), f.arguments + Or(d.arguments, ""))]
  }

  function AddCalls(pending: seq<Fragment>, ds: seq<CallDelta>): seq<Fragment> {
    if ds == [] then pending else AddCall(AddCalls(pending, ds[..|ds| - 1]), ds[|ds| - 1])
  }

  /** Emit the complete pending calls; keep or drop the incomplete ones. */
  function Flush(s: State, nz: Normalizer, keep: bool): State {
    var (calls, seen) := Emit(s.pending, nz, s.seen);
    if s.pending == [] then s
    else State(s.outputs + (if calls != [] then [Calls(calls)] else []), if keep then Completes(s.pending, nz, false) else [], seen)
  }

  function Texts(d: Delta): seq<Output> {
    (if d.content != "" then [Content(d.content)] else [])
    + (if d.reasoningContent != "" then [Reasoning(d.reasoningContent)] else [])
    + (if d.reasoning != "" then [Reasoning(d.reasoning)] else [])
  }

  function Absorb(s: State, d: Delta, nz: Normalizer): State {
    var s' := s.(outputs := s.outputs + Texts(d), pending := AddCalls(s.pending, d.calls));
    if d.finish == "tool_calls" then Flush(s', nz, true) else s'
  }

  predicate IsDone(line: string) { DataField(line) == Some("[DONE]") }

  function Step(env: Env, s: State, line: string): State {
    var data := DataField(line);
    if data.None? then s
    else if IsDone(line) then (var s' := Flush(s, env.nz, false); s'.(outputs := s'.outputs + [End]))
    else match env.parse(data.value)
      case None => s
      case Some(d) => Absorb(s, d, env.nz)
  }

  function Run(env: Env, lines: seq<string>): State {
    if lines == [] then START else Step(env, Run(env, lines[..|lines| - 1]), lines[|lines| - 1])
  }

  // ---------- the callback ----------

  /** Handle complete lines; a [DONE] line returns at once and leaves the rest in the buffer. */
  function Consume(env: Env, s: State, buffer: string): (State, string)
    decreases |buffer|
  {
    match Find(buffer, "\n", 0)
    case None => (s, buffer)
    case Some(k) =>
      var s', rest := Step(env, s, buffer[..k]), buffer[k + 1..];
      if IsDone(buffer[..k]) then (s', rest) else Consume(env, s', rest)
  }

  /** The state and the buffer after these callbacks. */
  function Deliver(env: Env, chunks: seq<string>): (State, string) {
    if chunks == [] then (START, "")
    else
      var (s, buffer) := Deliver(env, chunks[..|chunks| - 1]);
      Consume(env, s, buffer + chunks[|chunks| - 1])
  }

  class StreamContext {
    var buffer: string
    var rawResponseBody: string
    var outputs: seq<Output>
    var pending: seq<Fragment>
    var seen: set<string>
    const env: Env

    ghost function View(): State
      reads this
    {
      State(outputs, pending, seen)
    }

    constructor (env: Env)
      ensures View() == START && buffer == "" && rawResponseBody == "" && this.env == env
    {
      this.env := env;
      buffer, rawResponseBody, outputs, pending, seen := "", "", [], [], {};
    }

    method TakeCompleteToolCalls(keep: bool) returns (complete: seq<ToolCall>)
      modifies this`pending, this`seen
      ensures (complete, seen) == Emit(old(pending), env.nz, old(seen))
      ensures pending == if keep then Completes(old(pending), env.nz, false) else []
    {
      var remaining;
      complete, seen, remaining := FinalizePendingToolCalls(pending, env.nz, seen);
      pending := if keep then remaining else [];
    }

    method FlushPending(keep: bool)
      modifies this`outputs, this`pending, this`seen
      ensures View() == Flush(old(View()), env.nz, keep)
    {
      if pending != [] {
        var complete := TakeCompleteToolCalls(keep);
        if complete != [] {
          outputs := outputs + [Calls(complete)];
        }
      }
    }

    method AddDeltas(ds: seq<CallDelta>)
      modifies this`pending
      ensures pending == AddCalls(old(pending), ds)
    {
      for i := 0 to |ds|
        invariant pending == AddCalls(old(pending), ds[..i])
      {
        assert ds[..i + 1][..i] == ds[..i];
        var d := ds[i];
        if 0 <= d.index < MAX_INDEX {
          pending := Resized(pending, d.index + 1);
          var f := pending[d.index];
          f := f.(index := d.index, id := Or(d.id, f.id), name := Or(d.name, f.name), arguments := f.arguments + Or(d.arguments, ""));
          pending := pending[d.index := f];
        }
      }
      assert ds[..|ds|] == ds;
    }

    /** One line; true when it is the end marker. */
    method HandleLine(line: string) returns (done: bool)
      modifies this`outputs, this`pending, this`seen
      ensures View() == Step(env, old(View()), line) && done == IsDone(line)
    {
      var data := DataField(line);
      if data.None? {
        return false;
      }
      if data.value == "[DONE]" {
        FlushPending(false);
        outputs := outputs + [End];
        return true;
      }
      var delta := env.parse(data.value);
      if delta.Some? {
        var d := delta.value;
        if d.content != "" {
          outputs := outputs + [Content(d.content)];
        }
        if d.reasoningContent != "" {
          outputs := outputs + [Reasoning(d.reasoningContent)];
        }
        if d.reasoning != "" {
          outputs := outputs + [Reasoning(d.reasoning)];
        }
        assert outputs == old(outputs) + Texts(d);
        AddDeltas(d.calls);
        if d.finish == "tool_calls" {
          FlushPending(true);
        }
      }
      done := false;
    }

    method StreamWriteCallback(chunk: string)
      modifies this
      ensures (View(), buffer) == Consume(env, old(View()), old(buffer) + chunk)
      ensures rawResponseBody == old(rawResponseBody) + chunk
    {
      rawResponseBody := rawResponseBody + chunk;
      buffer := buffer + chunk;
      ghost var all := buffer;
      var pos := Find(buffer, "\n", 0);
      while pos.Some?
        invariant pos == Find(buffer, "\n", 0) && rawResponseBody == old(rawResponseBody) + chunk
        invariant Consume(env, View(), buffer) == Consume(env, old(View()), all)
        decreases |buffer|
      {
        var line := buffer[..pos.value];
        buffer := buffer[pos.value + 1..];
        var done := HandleLine(line);
        if done {
          return;
        }
        pos := Find(buffer, "\n", 0);
      }
    }
  }

  method Receive(chunks: seq<string>, env: Env) returns (ctx: StreamContext)
    ensures (ctx.View(), ctx.buffer) == Deliver(env, chunks) && ctx.rawResponseBody == Concat(chunks)
  {
    ctx := new StreamContext(env);
    for i := 0 to |chunks|
      invariant ctx.env == env && (ctx.View(), ctx.buffer) == Deliver(env, chunks[..i]) && ctx.rawResponseBody == Concat(chunks[..i])
    {
      assert chunks[..i + 1][..i] == chunks[..i];
      ctx.StreamWriteCallback(chunks[i]);
    }
    assert chunks[..|chunks|] == chunks;
  }
}
