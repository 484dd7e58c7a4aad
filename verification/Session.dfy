/**
  A session over many turns (src/rpchandler/rpc_handler_agent.cpp): each message
  runs the agent on the recent transcript, and what the agent adds is persisted.
 */
module Session {
  import opened Text
  import opened Transcript
  import opened Normalize
  import opened Serializer
  import opened Replay
  import opened ContextEngine
  import opened AgentLoop

  const HISTORY_LIMIT := 50
  const COMPACT_KEEP := 20

  datatype Settings = Settings(cfg: Config, systemPrompt: string, contextWindow: int, maxTokens: int)

  /** GetHistory with a positive limit. */
  function Tail(ms: seq<Message>, n: nat): (r: seq<Message>)
    ensures |r| <= n && |r| <= |ms| && r == ms[|ms| - |r|..] && (|r| == n || r == ms)
  {
    if |ms| > n then ms[|ms| - n..] else ms
  }

  ghost predicate AllReplay(transcript: seq<Message>, requests: seq<seq<Message>>) {
    Replayable(transcript) && forall i :: 0 <= i < |requests| ==> Replayable(requests[i])
  }

  /** The messages a run gets to see: the last forty-nine before the new one. */
  function Recent(ms: seq<Message>): seq<Message> { if |ms| > 49 then ms[|ms| - 49..] else ms }

  /** The limit counts the new message, which is then left out. */
  method WithoutLast(transcript: seq<Message>, ghost before: seq<Message>) returns (history: seq<Message>)
    requires transcript != [] && before == transcript[..|transcript| - 1]
    ensures history == Recent(before)
  {
    var recent := Tail(transcript, HISTORY_LIMIT);
    history := recent[..|recent| - 1];
  }

  lemma RecentReplays(ms: seq<Message>)
    requires Replayable(ms)
    ensures Replayable(Recent(ms))
  {
    if |ms| > 49 { SuffixReplayable(ms, |ms| - 49); }
  }

  /** One run of the agent on the recent history. */
  method Answer(w: World, st: Settings, message: string, history: seq<Message>) returns (messages: seq<Message>, sent: seq<Sent>)
    ensures (AllTurns(messages) || TurnsThenFinal(messages)) && |sent| <= MAX_ITERATIONS + MAX_OVERFLOW_RETRIES
    ensures sent != [] ==> IsFirst(st.cfg, history, st.systemPrompt, message, st.contextWindow, st.maxTokens, sent[0].request)
    ensures StreamHygiene(w) && Replayable(history) ==> AllReplayable(sent)
    ensures StreamHygiene(w) ==> Replayable(messages)
  {
    var events, p;
    messages, events, sent, p := ProcessMessageStream(w, st.cfg, message, history, st.systemPrompt,
      st.contextWindow, st.maxTokens, DynamicMaxIterations(st.cfg.contextWindow));
  }

  class Store {
    var transcript: seq<Message>
    var requests: seq<seq<Message>> // every request sent on behalf of this session

    constructor ()
      ensures transcript == [] && requests == []
    {
      transcript, requests := [], [];
    }

    /** Everything stored can be replayed, and so can everything sent. */
    ghost predicate Valid()
      reads this
    {
      AllReplay(transcript, requests)
    }

    /** One agent request; an empty message is refused. */
    method Say(w: World, st: Settings, message: string) returns (ok: bool)
      modifies this
      ensures ok == (message != "") && (old(Valid()) && StreamHygiene(w) ==> Valid())
      ensures !ok ==> transcript == old(transcript) && requests == old(requests)
      ensures ok ==> old(transcript) + [TextMessage("user", message)] <= transcript && old(requests) <= requests
      ensures ok ==> |requests| <= |old(requests)| + MAX_ITERATIONS + MAX_OVERFLOW_RETRIES
      ensures ok ==> var added := transcript[|old(transcript)| + 1..]; AllTurns(added) || TurnsThenFinal(added)
      ensures ok && |requests| > |old(requests)| ==>
                IsFirst(st.cfg, Recent(old(transcript)), st.systemPrompt, message, st.contextWindow, st.maxTokens, requests[|old(requests)|])
    {
      ok := message != "";
      if !ok {
        return;
      }
      ghost var before, logged := transcript, requests;
      transcript := transcript + [TextMessage("user", message)];
      var history := WithoutLast(transcript, before);
      var messages, sent := Answer(w, st, message, history);
      Log(sent);
      transcript := transcript + messages;
      assert transcript[|before| + 1..] == messages;
      if AllReplay(before, logged) && StreamHygiene(w) {
        RecentReplays(before);
        SaidReplays(before, message, messages, logged, requests, sent);
      }
    }

    /** Keep the requests that were sent. */
    method Log(sent: seq<Sent>)
      modifies this`requests
      ensures old(requests) <= requests && |requests| == |old(requests)| + |sent|
      ensures forall k :: 0 <= k < |sent| ==> requests[|old(requests)| + k] == sent[k].request
    {
      for i := 0 to |sent|
        invariant |requests| == |old(requests)| + i && old(requests) <= requests
        invariant forall k :: 0 <= k < i ==> requests[|old(requests)| + k] == sent[k].request
      {
        requests := requests + [sent[i].request];
      }
    }

    /** The /compact command. */
    method Compact()
      modifies this
      ensures (old(Valid()) ==> Valid()) && requests == old(requests) && transcript == Tail(old(transcript), COMPACT_KEEP)
    {
      if |transcript| > COMPACT_KEEP {
        if Valid() { SuffixReplayable(transcript, |transcript| - COMPACT_KEEP); }
        transcript := transcript[|transcript| - COMPACT_KEEP..];
      }
    }

    /** The /reset command. */
    method Reset()
      modifies this
      ensures (old(Valid()) ==> Valid()) && requests == old(requests) && transcript == []
    {
      transcript := [];
    }
  }

  lemma SaidReplays(before: seq<Message>, message: string, added: seq<Message>, logged: seq<seq<Message>>, requests: seq<seq<Message>>, sent: seq<Sent>)
    requires AllReplay(before, logged) && Replayable(added) && AllReplayable(sent)
    requires logged <= requests && |requests| == |logged| + |sent|
    requires forall k :: 0 <= k < |sent| ==> requests[|logged| + k] == sent[k].request
    ensures AllReplay(before + [TextMessage("user", message)] + added, requests)
  {
    TextMessageIsPlain("user", message);
    PlainReplayable([TextMessage("user", message)]);
    AppendReplayable(before, [TextMessage("user", message)]);
    AppendReplayable(before + [TextMessage("user", message)], added);
    forall i | 0 <= i < |requests| ensures Replayable(requests[i]) {
      if i >= |logged| { assert requests[i] == sent[i - |logged|].request; }
    }
  }

  datatype Op = SayOp(w: World, st: Settings, message: string) | CompactOp | ResetOp

  /** Every streamed reply of the session comes with usable tool-call ids. */
  ghost predicate CleanIds(ops: seq<Op>) {
    forall i :: 0 <= i < |ops| && ops[i].SayOp? ==> StreamHygiene(ops[i].w)
  }

  /**
    Any sequence of messages, compactions and resets, with any behaviour of the
    model, the tools, failures and stops: no request of the whole session sends a
    result without its call, and as long as providers hand out usable ids every
    request is well formed on the wire.
   */
  method RunSession(ops: seq<Op>) returns (requests: seq<seq<Message>>, transcript: seq<Message>)
    ensures forall i, nz, thinking :: 0 <= i < |requests| ==> NoStrayReply(Request(requests[i], nz, thinking))
    ensures CleanIds(ops) ==> forall i, nz, thinking :: 0 <= i < |requests| ==> WellFormed(Request(requests[i], nz, thinking))
    ensures |requests| <= |ops| * (MAX_ITERATIONS + MAX_OVERFLOW_RETRIES)
    ensures CleanIds(ops) ==> Replayable(transcript)
  {
    var store := new Store();
    ghost var clean := CleanIds(ops);
    for i := 0 to |ops|
      invariant fresh(store) && (clean ==> store.Valid())
      invariant |store.requests| <= i * (MAX_ITERATIONS + MAX_OVERFLOW_RETRIES)
    {
      match ops[i] {
        case SayOp(w, st, message) => var _ := store.Say(w, st, message);
        case CompactOp => store.Compact();
        case ResetOp => store.Reset();
      }
    }
    requests, transcript := store.requests, store.transcript;
    forall i, nz, thinking | 0 <= i < |requests| ensures NoStrayReply(Request(requests[i], nz, thinking)) {
      AnyRequest(requests[i], nz, thinking);
    }
    if clean {
      forall i, nz, thinking | 0 <= i < |requests| ensures WellFormed(Request(requests[i], nz, thinking)) {
        RequestWellFormed(requests[i], nz, thinking);
      }
    }
  }

  lemma AnyRequest(ms: seq<Message>, nz: Normalizer, thinking: bool)
    ensures NoStrayReply(Request(ms, nz, thinking))
  {
    NeverStray([], SanitizeAll(ms, nz), {}, thinking);
    assert [] + Request(ms, nz, thinking) == Request(ms, nz, thinking);
  }
}
