/**
  Sessions fed by the bytes of an OpenAI stream: the reader's outputs are what
  the agent loop's callback receives, so the ids need not be taken on trust.
 */
module ByteSession {
  import opened Text
  import opened Transcript
  import opened Normalize
  import opened Serializer
  import opened Replay
  import opened AgentLoop
  import opened Session
  import Reader = OpenAIStream
  import ReaderTheorems = OpenAIStreamTheorems

  /** An output of the reader as the chunk its callback is called with. */
  function ChunkOf(o: Reader.Output): Chunk {
    match o
    case Content(text) => Chunk(text, "", [], false)
    case Reasoning(text) => Chunk("", text, [], false)
    case Calls(calls) => Chunk("", "", calls, false)
    case End => Chunk("", "", [], true)
  }

  function ChunksOf(outputs: seq<Reader.Output>): (r: seq<Chunk>)
    ensures |r| == |outputs| && forall i :: 0 <= i < |r| ==> r[i] == ChunkOf(outputs[i])
  {
    seq(|outputs|, i requires 0 <= i < |outputs| => ChunkOf(outputs[i]))
  }

  /** A world in which the n-th streamed reply is the bytes received, in the pieces they came in, until the transport breaks off or ends. */
  datatype Wire = Wire(
    env: nat -> Reader.Env,
    received: nat -> seq<string>,
    broken: nat -> Option<Failure>,
    stopped: nat -> bool,
    stoppedLate: bool,
    tool: (nat, ToolCall) -> string,
    summarize: Option<seq<Message> -> string>
  )

  function StreamOf(wire: Wire, n: nat): Stream {
    Stream(ChunksOf(Reader.Deliver(wire.env(n), wire.received(n)).0.outputs), wire.broken(n))
  }

  function WorldOf(wire: Wire): World {
    World(_ => Failed(OtherFailure), (n: nat) => StreamOf(wire, n), wire.stopped, wire.stoppedLate, wire.tool, wire.summarize)
  }

  /** The ids of one output are a run of the ids of all of them. */
  lemma {:induction false} IdsWithin(outputs: seq<Reader.Output>, i: nat)
    requires i < |outputs| && Hygienic(ReaderTheorems.IdsOf(outputs))
    ensures Hygienic(CallIds(ChunkOf(outputs[i]).calls))
    decreases |outputs|
  {
    var init, last := outputs[..|outputs| - 1], outputs[|outputs| - 1];
    var before := ReaderTheorems.IdsOf(init);
    var own: seq<string> := if last.Calls? then CallIds(last.calls) else [];
    assert ReaderTheorems.IdsOf(outputs) == before + own;
    HygienicParts(before, own);
    if i < |init| {
      IdsWithin(init, i);
    }
  }

  lemma HygienicParts(a: seq<string>, b: seq<string>)
    requires Hygienic(a + b)
    ensures Hygienic(a) && Hygienic(b)
  {
    var all := a + b;
    assert forall i :: 0 <= i < |a| ==> a[i] == all[i];
    assert forall i :: 0 <= i < |b| ==> b[i] == all[|a| + i];
  }

  /** Whatever bytes arrive, in whatever pieces, the ids of the calls handed on are usable. */
  lemma BytesAreClean(wire: Wire)
    ensures StreamHygiene(WorldOf(wire))
  {
    var w := WorldOf(wire);
    forall n: nat ensures CleanStream(w.stream(n)) {
      var outputs := Reader.Deliver(wire.env(n), wire.received(n)).0.outputs;
      ReaderTheorems.StreamIds(wire.env(n), wire.received(n));
      forall i | 0 <= i < |outputs| ensures Hygienic(CallIds(ChunkOf(outputs[i]).calls)) {
        IdsWithin(outputs, i);
      }
    }
  }

  datatype ByteOp = SayBytes(wire: Wire, st: Settings, message: string) | CompactBytes | ResetBytes

  function OpOf(o: ByteOp): Op {
    match o
    case SayBytes(wire, st, message) => SayOp(WorldOf(wire), st, message)
    case CompactBytes => CompactOp
    case ResetBytes => ResetOp
  }

  /**
    From bytes to the wire: over any session whose replies are arbitrary bytes of
    an OpenAI stream, cut in any way and broken off anywhere, every request sent
    is well formed.
   */
  method RunByteSession(ops: seq<ByteOp>) returns (requests: seq<seq<Message>>, transcript: seq<Message>)
    ensures forall i, nz, thinking :: 0 <= i < |requests| ==> WellFormed(Request(requests[i], nz, thinking))
    ensures |requests| <= |ops| * (MAX_ITERATIONS + MAX_OVERFLOW_RETRIES) && Replayable(transcript)
  {
    var all := seq(|ops|, i requires 0 <= i < |ops| => OpOf(ops[i]));
    forall i | 0 <= i < |all| && all[i].SayOp? ensures StreamHygiene(all[i].w) {
      BytesAreClean(ops[i].wire);
    }
    requests, transcript := RunSession(all);
  }
}
