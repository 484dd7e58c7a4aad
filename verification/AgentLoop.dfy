/**
  The agent loop (src/core/agent_loop.cpp): call the model, run the tools it
  asks for, feed the results back, until it answers, fails or is stopped.
 */
module AgentLoop {
  import opened Basics
  import opened Text
  import opened Transcript
  import opened Normalize
  import opened ContextEngine
  import opened Errors

  const MAX_TRANSIENT_RETRIES := 3
  const MAX_OVERFLOW_RETRIES := 3
  const MIN_ITERATIONS := 32
  const MAX_ITERATIONS := 160
  const WINDOW_32K := 32768
  const WINDOW_200K := 200000

  /** DynamicMaxIterations: between 32 and 160, growing with the context window. */
  function DynamicMaxIterations(contextWindow: int): (r: nat)
    ensures MIN_ITERATIONS <= r <= MAX_ITERATIONS
    ensures contextWindow <= WINDOW_32K ==> r == 32
    ensures contextWindow >= WINDOW_200K ==> r == 160
    ensures WINDOW_32K <= contextWindow <= WINDOW_200K ==>
              167_232 * (r - 32) <= 128 * (contextWindow - 32_768) < 167_232 * (r - 31)
  {
    if contextWindow <= WINDOW_32K then MIN_ITERATIONS
    else if contextWindow >= WINDOW_200K then MAX_ITERATIONS
    else
      var ratio := (contextWindow - WINDOW_32K) as real / (WINDOW_200K - WINDOW_32K) as real;
      MIN_ITERATIONS + (ratio * (MAX_ITERATIONS - MIN_ITERATIONS) as real).Floor
  }

  // ---------- the outside world ----------

  datatype Failure =
    | ProviderFailure(kind: ErrorKind, failover: bool) // failover: re-resolving found another provider
    | OtherFailure

  datatype Reply = Reply(content: string, reasoning: string, calls: seq<ToolCall>)

  datatype Outcome = Replied(reply: Reply) | Failed(failure: Failure)

  datatype Chunk = Chunk(content: string, reasoning: string, calls: seq<ToolCall>, isEnd: bool)

  /** The chunks of one streamed reply, and how the stream ended. */
  datatype Stream = Stream(chunks: seq<Chunk>, broken: Option<Failure>)

  /**
    Everything the loop does not control, as arbitrary functions of the number
    of model calls made so far.
   */
  datatype World = World(
    reply: nat -> Outcome,
    stream: nat -> Stream,
    stopped: nat -> bool,
    stoppedLate: bool,
    tool: (nat, ToolCall) -> string,
    summarize: Option<seq<Message> -> string>
  )

  /** Whole replies come with usable tool-call ids. */
  ghost predicate ReplyHygiene(w: World) {
    forall n: nat :: w.reply(n).Replied? ==> Hygienic(CallIds(w.reply(n).reply.calls))
  }

  predicate CleanStream(s: Stream) {
    forall i :: 0 <= i < |s.chunks| ==> Hygienic(CallIds(s.chunks[i].calls))
  }

  /** And so do the chunks of streamed ones. */
  ghost predicate StreamHygiene(w: World) { forall n: nat :: CleanStream(w.stream(n)) }

  // ---------- turns ----------

  predicate IsTurn(call: Message, results: Message) {
    call.role == "assistant" && HasUse(call.content) && !HasResult(call.content) && Answers(results, call)
  }

  /** Nothing but called-and-answered turns. */
  predicate AllTurns(ms: seq<Message>) {
    ms == [] || (|ms| >= 2 && AllTurns(ms[..|ms| - 2]) && IsTurn(ms[|ms| - 2], ms[|ms| - 1]))
  }

  /** An assistant message that closes a run: text, and no calls. */
  predicate IsFinal(m: Message) {
    m.role == "assistant" && IsPlain(m) && m.content != [] && m.content[|m.content| - 1].TextBlock?
  }

  predicate TurnsThenFinal(ms: seq<Message>) {
    ms != [] && AllTurns(ms[..|ms| - 1]) && IsFinal(ms[|ms| - 1])
  }

  method FilterValidToolCalls(calls: seq<ToolCall>) returns (valid: seq<ToolCall>, sawInvalid: bool)
    ensures valid == Valid(calls)
    ensures sawInvalid <==> exists i :: 0 <= i < |calls| && !HasNonWhitespace(calls[i].name)
  {
    valid, sawInvalid := [], false;
    for i := 0 to |calls|
      invariant valid == Valid(calls[..i])
      invariant sawInvalid <==> exists k :: 0 <= k < i && !HasNonWhitespace(calls[k].name)
    {
      assert calls[..i + 1][..i] == calls[..i];
      if !HasNonWhitespace(calls[i].name) {
        sawInvalid := true;
      } else {
        valid := valid + [calls[i]];
      }
    }
    assert calls[..|calls|] == calls;
  }

  predicate HasName(call: ToolCall) { HasNonWhitespace(call.name) }

  /** The calls that have a name, in order. */
  function Valid(calls: seq<ToolCall>): seq<ToolCall> { Filter(calls, HasName) }

  lemma {:induction false} ValidIdsHygienic(calls: seq<ToolCall>)
    requires Hygienic(CallIds(calls))
    ensures Hygienic(CallIds(Valid(calls)))
  {
    if calls != [] {
      var init, last := calls[..|calls| - 1], calls[|calls| - 1];
      var ids := CallIds(calls);
      assert CallIds(init) == ids[..|ids| - 1];
      ValidIdsHygienic(init);
      FilterOnly(init, HasName);
      if HasNonWhitespace(last.name) {
        var valid := Valid(init);
        forall i | 0 <= i < |valid| ensures valid[i].id != last.id {
          assert valid[i] in valid && valid[i] in init;
          var k :| 0 <= k < |init| && init[k] == valid[i];
          assert ids[k] != ids[|ids| - 1];
        }
        assert IsClean(ids[|ids| - 1]);
        HygienicSnocIff(CallIds(valid), last.id);
        assert CallIds(Valid(calls)) == CallIds(valid) + [last.id];
      } else {
        assert Valid(calls) == Valid(init);
      }
    }
  }

  function UseBlocks(calls: seq<ToolCall>): (r: seq<Block>)
    ensures |r| == |calls| && UseIds(r) == CallIds(calls)
    ensures forall i :: 0 <= i < |r| ==> r[i] == ToolUse(calls[i].id, calls[i].name, calls[i].arguments)
  {
    if calls == [] then []
    else
      var b := ToolUse(calls[0].id, calls[0].name, calls[0].arguments);
      assert ([b] + UseBlocks(calls[1..]))[1..] == UseBlocks(calls[1..]);
      assert CallIds(calls) == [calls[0].id] + CallIds(calls[1..]);
      [b] + UseBlocks(calls[1..])
  }

  /** The assistant message of a tool round: thinking, text, then the calls. */
  function CallMessage(reasoning: string, content: string, calls: seq<ToolCall>): Message {
    Message("assistant",
            (if HasNonWhitespace(reasoning) then [Thinking(reasoning)] else [])
            + (if content != "" then [TextBlock(content)] else [])
            + UseBlocks(calls))
  }

  function FinalMessage(reasoning: string, content: string): (m: Message)
    ensures IsFinal(m)
    ensures m.content != [] && m.content[|m.content| - 1] == TextBlock(content)
  {
    Message("assistant", (if HasNonWhitespace(reasoning) then [Thinking(reasoning)] else []) + [TextBlock(content)])
  }

  lemma CallMessageIds(reasoning: string, content: string, calls: seq<ToolCall>)
    ensures UseIds(CallMessage(reasoning, content, calls).content) == CallIds(calls)
    ensures !HasResult(CallMessage(reasoning, content, calls).content)
    ensures calls != [] ==> HasUse(CallMessage(reasoning, content, calls).content)
  {
    var uses := UseBlocks(calls);
    var text: seq<Block> := if content != "" then [TextBlock(content)] else [];
    var thought: seq<Block> := if HasNonWhitespace(reasoning) then [Thinking(reasoning)] else [];
    UsesBehind(thought, text, uses);
  }

  lemma UsesBehind(thought: seq<Block>, text: seq<Block>, uses: seq<Block>)
    requires |thought| <= 1 && |text| <= 1 && forall i :: 0 <= i < |uses| ==> uses[i].ToolUse?
    requires (forall i :: 0 <= i < |thought| ==> thought[i].Thinking?) && forall i :: 0 <= i < |text| ==> text[i].TextBlock?
    ensures UseIds(thought + text + uses) == UseIds(uses)
    ensures !HasResult(thought + text + uses) && (uses != [] ==> HasUse(thought + text + uses))
  {
    NoIdsBefore(text, uses);
    NoIdsBefore(thought, text + uses);
    AppendAssoc(thought, text, uses);
    OnlyUses(thought + text, uses);
  }

  lemma NoIdsBefore(head: seq<Block>, rest: seq<Block>)
    requires |head| <= 1 && forall i :: 0 <= i < |head| ==> !head[i].ToolUse?
    ensures UseIds(head + rest) == UseIds(rest)
  {
    UseIdsCons(head, rest);
    assert [] + UseIds(rest) == UseIds(rest);
  }

  lemma OnlyUses(plain: seq<Block>, uses: seq<Block>)
    requires forall i :: 0 <= i < |plain| ==> plain[i].TextBlock? || plain[i].Thinking?
    requires forall i :: 0 <= i < |uses| ==> uses[i].ToolUse?
    ensures !HasResult(plain + uses) && (uses != [] ==> HasUse(plain + uses))
  {
    if uses != [] { assert (plain + uses)[|plain|] == uses[0]; }
  }

  /** Run the tools of a round; each call gets one result, in order. */
  method RunTools(w: World, n: nat, calls: seq<ToolCall>) returns (results: Message)
    requires calls != []
    ensures IsResults(results) && ResultIds(results.content) == CallIds(calls)
    ensures results.role == "user" && |results.content| == |calls|
    ensures forall k :: 0 <= k < |calls| ==> results.content[k] == ToolResult(calls[k].id, w.tool(n, calls[k]))
  {
    var content: seq<Block> := [];
    for i := 0 to |calls|
      invariant |content| == i && ResultIds(content) == CallIds(calls[..i])
      invariant forall k :: 0 <= k < i ==> content[k] == ToolResult(calls[k].id, w.tool(n, calls[k]))
    {
      var b := ToolResult(calls[i].id, w.tool(n, calls[i]));
      ResultIdsSnoc(content, b);
      assert CallIds(calls[..i + 1]) == CallIds(calls[..i]) + [calls[i].id];
      content := content + [b];
    }
    assert calls[..|calls|] == calls;
    results := Message("user", content);
  }

  lemma {:induction false} ResultIdsSnoc(content: seq<Block>, b: Block)
    requires b.ToolResult?
    ensures ResultIds(content + [b]) == ResultIds(content) + [b.toolUseId]
  {
    if content == [] {
      assert content + [b] == [b];
    } else {
      var rest := content[1..] + [b];
      assert (content + [b])[1..] == rest && (content + [b])[0] == content[0];
      ResultIdsSnoc(content[1..], b);
    }
  }

  /** The request ends in the latest turn, if there has been one. */
  predicate UpToDate(request: seq<Message>, added: seq<Message>) {
    added != [] ==> |added| >= 2 && |request| >= 2 && request[|request| - 2..] == added[|added| - 2..]
  }

  /** The turns made so far, and the next request, stay replayable as long as ids are usable. */
  ghost predicate Kept(clean: bool, good: bool, request: seq<Message>, added: seq<Message>) {
    AllTurns(added) && UpToDate(request, added) &&
    (clean ==> Replayable(added)) && (clean && good ==> Replayable(request))
  }

  /** The blocks from the first on are the calls, one by one. */
  predicate UsesFrom(content: seq<Block>, first: nat, calls: seq<ToolCall>) {
    |content| == first + |calls| && forall i :: first <= i < |content| ==>
      content[i] == ToolUse(calls[i - first].id, calls[i - first].name, calls[i - first].arguments)
  }

  /**
    The turn made of a reply: its thinking unless blank, its text unless empty,
    its calls, and the output of each call under its id.
   */
  predicate TurnOf(call: Message, results: Message, w: World, n: nat, reasoning: string, content: string, calls: seq<ToolCall>) {
    var thinks, speaks := HasNonWhitespace(reasoning), content != "";
    var first := (if thinks then 1 else 0) + (if speaks then 1 else 0);
    && call.role == "assistant" && UsesFrom(call.content, first, calls)
    && (thinks ==> call.content[0] == Thinking(reasoning)) && (speaks ==> call.content[first - 1] == TextBlock(content))
    && results.role == "user" && |results.content| == |calls|
    && (forall k :: 0 <= k < |calls| ==> results.content[k] == ToolResult(calls[k].id, w.tool(n, calls[k])))
  }

  predicate OneTurn(w: World, n: nat, reasoning: string, content: string, calls: seq<ToolCall>, made: seq<Message>) {
    |made| == 2 && TurnOf(made[0], made[1], w, n, reasoning, content, calls)
  }

  lemma CallMessageIs(w: World, n: nat, reasoning: string, content: string, calls: seq<ToolCall>, results: Message)
    requires results.role == "user" && |results.content| == |calls|
    requires forall k :: 0 <= k < |calls| ==> results.content[k] == ToolResult(calls[k].id, w.tool(n, calls[k]))
    ensures TurnOf(CallMessage(reasoning, content, calls), results, w, n, reasoning, content, calls)
  {
    var text: seq<Block> := if content != "" then [TextBlock(content)] else [];
    var thought: seq<Block> := if HasNonWhitespace(reasoning) then [Thinking(reasoning)] else [];
    PartsAt(thought, text, UseBlocks(calls), |thought| + |text|);
    BlocksFrom(thought + text + UseBlocks(calls), |thought| + |text|, UseBlocks(calls), calls);
  }

  lemma PartsAt(thought: seq<Block>, text: seq<Block>, uses: seq<Block>, first: nat)
    requires |thought| <= 1 && |text| <= 1 && first == |thought| + |text|
    ensures var all := thought + text + uses;
            (thought != [] ==> all[0] == thought[0]) && (text != [] ==> all[first - 1] == text[0]) && Behind(all, first, uses)
  {
  }

  predicate Behind(all: seq<Block>, first: nat, uses: seq<Block>) {
    |all| == first + |uses| && forall i :: first <= i < |all| ==> all[i] == uses[i - first]
  }

  lemma BlocksFrom(all: seq<Block>, first: nat, uses: seq<Block>, calls: seq<ToolCall>)
    requires Behind(all, first, uses) && uses == UseBlocks(calls)
    ensures UsesFrom(all, first, calls)
  {
    forall i | first <= i < |all| ensures all[i] == ToolUse(calls[i - first].id, calls[i - first].name, calls[i - first].arguments) {
      assert uses[i - first].ToolUse?;
    }
  }

  /** A request and the new messages have both grown by the same messages. */
  predicate Grown(request: seq<Message>, added: seq<Message>, request': seq<Message>, added': seq<Message>) {
    added <= added' && request' == request + added'[|added|..]
  }

  /** One tool round: the call and its results join the request and the new messages. */
  method ToolRound(w: World, n: nat, reasoning: string, content: string, calls: seq<ToolCall>, request: seq<Message>, added: seq<Message>)
    returns (request': seq<Message>, added': seq<Message>)
    requires calls != []
    ensures Grown(request, added, request', added') && OneTurn(w, n, reasoning, content, calls, added'[|added|..])
  {
    var results := RunTools(w, n, calls);
    var call := CallMessage(reasoning, content, calls);
    CallMessageIs(w, n, reasoning, content, calls, results);
    request', added' := request + [call, results], added + [call, results];
    assert added'[|added|..] == [call, results];
  }

  /** A turn made of a reply is a turn: its results answer exactly its calls. */
  lemma TurnOfIsTurn(call: Message, results: Message, w: World, n: nat, reasoning: string, content: string, calls: seq<ToolCall>)
    requires TurnOf(call, results, w, n, reasoning, content, calls) && calls != []
    ensures IsTurn(call, results) && UseIds(call.content) == CallIds(calls)
  {
    CallMessageIs(w, n, reasoning, content, calls, results);
    TurnOfOne(call, CallMessage(reasoning, content, calls), results, w, n, reasoning, content, calls);
    CallMessageIds(reasoning, content, calls);
    AnswerIds(results.content, calls);
  }

  lemma TurnOfOne(a: Message, b: Message, results: Message, w: World, n: nat, reasoning: string, content: string, calls: seq<ToolCall>)
    requires TurnOf(a, results, w, n, reasoning, content, calls) && TurnOf(b, results, w, n, reasoning, content, calls)
    ensures a == b
  {
    var first := (if HasNonWhitespace(reasoning) then 1 else 0) + (if content != "" then 1 else 0);
    forall k | 0 <= k < |a.content| ensures a.content[k] == b.content[k] {
    }
  }

  lemma {:induction false} AnswerIds(content: seq<Block>, calls: seq<ToolCall>)
    requires |content| == |calls| && forall k :: 0 <= k < |calls| ==> content[k].ToolResult? && content[k].toolUseId == calls[k].id
    ensures ResultIds(content) == CallIds(calls)
  {
    if content != [] {
      AnswerIds(content[1..], calls[1..]);
      assert CallIds(calls) == [calls[0].id] + CallIds(calls[1..]);
    }
  }

  lemma TurnKept(request: seq<Message>, added: seq<Message>, call: Message, results: Message, clean: bool, good: bool)
    requires Kept(clean, good, request, added) && IsTurn(call, results) && (clean ==> Hygienic(UseIds(call.content)))
    ensures Kept(clean, good, request + [call, results], added + [call, results])
  {
    TurnIsLast(request, added, call, results);
    if clean {
      PairReplayable(call, results);
      AppendReplayable(added, [call, results]);
      if good { AppendReplayable(request, [call, results]); }
    }
  }

  lemma TurnIsLast(request: seq<Message>, added: seq<Message>, call: Message, results: Message)
    requires AllTurns(added) && IsTurn(call, results)
    ensures AllTurns(added + [call, results]) && UpToDate(request + [call, results], added + [call, results])
  {
    var added', request' := added + [call, results], request + [call, results];
    assert added'[..|added'| - 2] == added;
    assert added'[|added'| - 2..] == [call, results] && request'[|request'| - 2..] == [call, results];
  }

  lemma AddFinal(added: seq<Message>, m: Message)
    requires AllTurns(added) && IsFinal(m)
    ensures TurnsThenFinal(added + [m])
    ensures Replayable(added) ==> Replayable(added + [m])
  {
    assert (added + [m])[..|added|] == added;
    if Replayable(added) {
      PlainReplayable([m]);
      AppendReplayable(added, [m]);
    }
  }

  // ---------- retries ----------

  datatype Progress = Progress(iterations: nat, overflows: nat, calls: nat, slept: nat)

  /** The most that can have been slept by the time a given number of iterations is used up. */
  function SleepBudget(iterations: nat): nat {
    if iterations == 0 then 0 else if iterations == 1 then 1 else if iterations == 2 then 3 else 7
  }

  /** Each model call uses up an iteration or an overflow retry; sleeping uses up early iterations. */
  predicate Accounted(p: Progress) {
    p.calls == p.iterations + p.overflows && p.overflows <= MAX_OVERFLOW_RETRIES && p.slept <= SleepBudget(p.iterations)
  }

  /** 1 << min(iterations, 4) */
  function Backoff(iterations: nat): nat {
    if iterations == 0 then 1 else if iterations == 1 then 2 else if iterations == 2 then 4 else if iterations == 3 then 8 else 16
  }

  datatype Retry = Compact | Again | GiveUp

  /** What a failed call leads to. p counts the calls before the failed one. */
  method AfterFailure(p: Progress, f: Failure) returns (r: Retry, p': Progress)
    requires Accounted(p)
    ensures r.GiveUp? ==> p' == p.(calls := p.calls + 1)
    ensures r.Compact? ==> p' == p.(calls := p.calls + 1, overflows := p.overflows + 1)
    ensures r.Again? ==> p'.iterations == p.iterations + 1 && p' == p.(calls := p.calls + 1, iterations := p.iterations + 1, slept := p'.slept)
    ensures r.Again? && f.ProviderFailure? && f.failover ==> p'.slept == p.slept
    ensures r.Again? && !(f.ProviderFailure? && f.failover) ==>
              p.iterations < 3 && p'.slept == p.slept + if p.iterations == 0 then 1 else if p.iterations == 1 then 2 else 4
    ensures !r.GiveUp? ==> Accounted(p')
    ensures r.Compact? <==> f.ProviderFailure? && f.kind.ContextOverflow? && p.overflows < MAX_OVERFLOW_RETRIES
    ensures f.ProviderFailure? && f.kind.BadRequest? ==> r.GiveUp?
    ensures r.GiveUp? <==>
              (f.ProviderFailure? && f.kind.ContextOverflow? && p.overflows == MAX_OVERFLOW_RETRIES) ||
              (f.ProviderFailure? && f.kind.BadRequest?) ||
              (!(f.ProviderFailure? && (f.kind.ContextOverflow? || f.failover)) && p.iterations >= MAX_TRANSIENT_RETRIES)
  {
    p' := p.(calls := p.calls + 1);
    if f.ProviderFailure? {
      if f.kind.ContextOverflow? && p.overflows < MAX_OVERFLOW_RETRIES {
        p' := p'.(overflows := p.overflows + 1);
        return Compact, p';
      }
      if f.kind.ContextOverflow? || f.kind.BadRequest? {
        return GiveUp, p';
      }
      if f.failover {
        p' := p'.(iterations := p.iterations + 1);
        return Again, p';
      }
    }
    if p.iterations < MAX_TRANSIENT_RETRIES {
      p' := p'.(slept := p.slept + Backoff(p.iterations), iterations := p.iterations + 1);
      return Again, p';
    }
    r := GiveUp;
  }

  /**
    The request a run starts from: the system prompt leads, the message closes,
    and between them stands the history, cut and pruned from the front only.
   */
  ghost predicate IsFirst(cfg: Config, history: seq<Message>, systemPrompt: string, message: string,
                          contextWindow: int, maxTokens: int, request: seq<Message>)
  {
    && SystemPrefix(systemPrompt) <= request
    && (cfg.keepRecent > 0 ==> request != [] && request[|request| - 1] == TextMessage("user", message))
    && exists kept :: IsTruncated(cfg, history, kept) && NotesThenSuffix(kept, history) &&
         NotesThenSuffix(request, Unguarded(systemPrompt, kept, message)) &&
         IsGuarded(systemPrompt, cfg.keepRecent, contextWindow, maxTokens, Unguarded(systemPrompt, kept, message), request)
  }

  /** The request a run starts from. */
  method FirstRequest(cfg: Config, history: seq<Message>, systemPrompt: string, message: string, contextWindow: int, maxTokens: int)
    returns (request: seq<Message>)
    ensures IsFirst(cfg, history, systemPrompt, message, contextWindow, maxTokens, request)
    ensures Replayable(history) ==> Replayable(request)
  {
    var estimated;
    ghost var kept;
    request, estimated, kept := Assemble(cfg, history, systemPrompt, message, contextWindow, maxTokens);
  }

  /** The request after a failure that is retried: compacted on overflow, else the same. */
  method NextRequest(retry: Retry, cfg: Config, request: seq<Message>, systemPrompt: string,
                     summarize: Option<seq<Message> -> string>)
    returns (request': seq<Message>)
    ensures Replayable(request) ==> Replayable(request')
    ensures if retry.Compact? then IsCompaction(cfg, systemPrompt, summarize, 0, request, request') else request' == request
    ensures |request| >= 2 ==> |request'| >= 2 && request'[|request'| - 2..] == request[|request| - 2..]
  {
    request' := request;
    if retry.Compact? {
      request' := CompactOverflow(cfg, request, systemPrompt, 0, summarize);
      ghost var keep := OverflowKeep(|request|, 0, Summarizes(request, summarize));
      if |request| >= 2 {
        assert request[|request| - keep..][keep - 2..] == request[|request| - 2..];
      }
    }
  }

  /** The valid calls of one reply, run as a round if there are any. */
  method RunCalls(w: World, n: nat, reasoning: string, content: string, calls: seq<ToolCall>, request: seq<Message>, added: seq<Message>)
    returns (ran: bool, sawInvalid: bool, request': seq<Message>, added': seq<Message>)
    ensures ran <==> Valid(calls) != []
    ensures sawInvalid <==> HasInvalid(calls)
    ensures !ran ==> request' == request && added' == added
    ensures ran ==> Grown(request, added, request', added') && OneTurn(w, n, reasoning, content, Valid(calls), added'[|added|..])
  {
    var valid;
    valid, sawInvalid := FilterValidToolCalls(calls);
    request', added', ran := request, added, false;
    if valid != [] {
      request', added' := ToolRound(w, n, reasoning, content, valid, request, added);
      ran := true;
    }
  }

  /** A request that was sent, with the turns made by then. */
  datatype Sent = Sent(request: seq<Message>, turns: seq<Message>)

  ghost predicate AllReplayable(requests: seq<Sent>) {
    forall i :: 0 <= i < |requests| ==> Replayable(requests[i].request)
  }

  /** Every request sent ends in the latest turn at that time, and no turn is ever taken back. */
  predicate AllUpToDate(requests: seq<Sent>, added: seq<Message>) {
    forall i :: 0 <= i < |requests| ==> requests[i].turns <= added && UpToDate(requests[i].request, requests[i].turns)
  }

  predicate Overflowed(f: Failure) { f.ProviderFailure? && f.kind.ContextOverflow? }

  function Current(s: LoopState): Sent { Sent(s.request, s.added) }

  /** Each request follows from the one before it. */
  ghost predicate Linked(rel: (nat, Sent, Sent) -> bool, requests: seq<Sent>) {
    forall i: nat, j: nat :: j == i + 1 < |requests| ==> rel(i, requests[i], requests[j])
  }

  /** How: from what the model replied, or from what it streamed. */
  function Follows(w: World, cfg: Config, systemPrompt: string, streaming: bool): (nat, Sent, Sent) -> bool {
    if streaming then (n: nat, a: Sent, b: Sent) => ContinuesStream(w, cfg, systemPrompt, n, a, b)
    else (n: nat, a: Sent, b: Sent) => Continues(w, cfg, systemPrompt, n, a, b)
  }

  /** The requests sent so far, and the one to be sent next if the run goes on. */
  ghost predicate Traced(rel: (nat, Sent, Sent) -> bool, first: seq<Message>, s: LoopState, goesOn: bool) {
    var n := |s.requests| - 1;
    && (if n < 0 then Current(s) == Sent(first, []) else s.requests[0] == Sent(first, []))
    && Linked(rel, s.requests)
    && (n >= 0 && goesOn ==> rel(n, s.requests[n], Current(s)))
  }

  /** Sending the next request, and learning what follows it. */
  lemma TraceOn(rel: (nat, Sent, Sent) -> bool, first: seq<Message>, s: LoopState, s': LoopState, goesOn: bool)
    requires Traced(rel, first, s, true) && s'.requests == s.requests + [Current(s)]
    requires goesOn ==> rel(|s.requests|, Current(s), Current(s'))
    ensures Traced(rel, first, s', goesOn)
  {
    var all := s'.requests;
    forall i: nat, j: nat | j == i + 1 < |all| ensures rel(i, all[i], all[j]) {
      if j < |s.requests| {
        assert rel(i, s.requests[i], s.requests[j]);
      }
    }
  }

  // ---------- what every such run keeps ----------

  ghost predicate Clean(w: World, streaming: bool) { if streaming then StreamHygiene(w) else ReplyHygiene(w) }

  lemma CompactionKept(cfg: Config, systemPrompt: string, summarize: Option<seq<Message> -> string>, request: seq<Message>, request': seq<Message>,
                       added: seq<Message>, clean: bool, good: bool)
    requires Kept(clean, good, request, added) && IsCompaction(cfg, systemPrompt, summarize, 0, request, request')
    ensures Kept(clean, good, request', added)
  {
    var keep := OverflowKeep(|request|, 0, Summarizes(request, summarize));
    var text := OverflowText(cfg, request, summarize);
    if clean && good { CompactionReplayable(request, systemPrompt, TextMessage("system", text), keep, text); }
    if added != [] {
      assert request[|request| - keep..][keep - 2..] == request[|request| - 2..];
      assert request'[|request'| - 2..] == request[|request| - 2..];
    }
  }

  lemma OneTurnIs(w: World, n: nat, reasoning: string, content: string, calls: seq<ToolCall>, made: seq<Message>)
    requires OneTurn(w, n, reasoning, content, Valid(calls), made) && Valid(calls) != []
    ensures |made| == 2 && IsTurn(made[0], made[1]) && UseIds(made[0].content) == CallIds(Valid(calls))
  {
    TurnOfIsTurn(made[0], made[1], w, n, reasoning, content, Valid(calls));
  }

  lemma PairKept(request: seq<Message>, added: seq<Message>, made: seq<Message>, clean: bool, good: bool)
    requires Kept(clean, good, request, added) && |made| == 2 && IsTurn(made[0], made[1]) && (clean ==> Hygienic(UseIds(made[0].content)))
    ensures Kept(clean, good, request + made, added + made)
  {
    assert made == [made[0], made[1]];
    TurnKept(request, added, made[0], made[1], clean, good);
  }

  /** A turn made of a reply keeps everything replayable, if its ids are usable. */
  lemma OneTurnKept(w: World, n: nat, reasoning: string, content: string, calls: seq<ToolCall>, made: seq<Message>,
                    request: seq<Message>, added: seq<Message>, clean: bool, good: bool)
    requires Kept(clean, good, request, added) && OneTurn(w, n, reasoning, content, Valid(calls), made) && Valid(calls) != []
    requires clean ==> Hygienic(CallIds(calls))
    ensures Kept(clean, good, request + made, added + made)
  {
    OneTurnIs(w, n, reasoning, content, calls, made);
    if clean { ValidIdsHygienic(calls); }
    PairKept(request, added, made, clean, good);
  }

  lemma InTwo(front: seq<Message>, made: seq<Message>, k: nat)
    requires k <= |made|
    ensures front + made[..k] + made[k..] == front + made
  {
  }

  lemma {:induction false} StreamTurnsKept(w: World, n: nat, chunks: seq<Chunk>, made: seq<Message>,
                                           request: seq<Message>, added: seq<Message>, clean: bool, good: bool)
    requires Kept(clean, good, request, added) && StreamTurns(w, n, chunks, made)
    requires clean ==> forall i :: 0 <= i < |chunks| ==> Hygienic(CallIds(chunks[i].calls))
    ensures Kept(clean, good, request + made, added + made)
    decreases |chunks|
  {
    if chunks == [] {
      assert request + [] == request && added + [] == added;
    } else {
      var init, last := chunks[..|chunks| - 1], chunks[|chunks| - 1];
      if IsRound(last) {
        var early, late := made[..|made| - 2], made[|made| - 2..];
        StreamTurnsKept(w, n, init, early, request, added, clean, good);
        var reasoning, content := Heard(init).reasoning + last.reasoning, Heard(init).response + last.content;
        OneTurnKept(w, n, reasoning, content, last.calls, late, request + early, added + early, clean, good);
        InTwo(request, made, |made| - 2);
        InTwo(added, made, |made| - 2);
      } else {
        StreamTurnsKept(w, n, init, made, request, added, clean, good);
      }
    }
  }

  lemma FollowsKept(w: World, cfg: Config, systemPrompt: string, streaming: bool, n: nat, a: Sent, b: Sent, good: bool)
    requires Kept(Clean(w, streaming), good, a.request, a.turns) && Follows(w, cfg, systemPrompt, streaming)(n, a, b)
    ensures Kept(Clean(w, streaming), good, b.request, b.turns) && a.turns <= b.turns
  {
    if streaming {
      StreamFollowsKept(w, cfg, systemPrompt, n, a, b, good);
    } else if w.reply(n).Replied? {
      ReplyFollowsKept(w, n, w.reply(n).reply, a, b, good);
    } else if Overflowed(w.reply(n).failure) {
      CompactionKept(cfg, systemPrompt, w.summarize, a.request, b.request, a.turns, ReplyHygiene(w), good);
    }
  }

  lemma ReplyFollowsKept(w: World, n: nat, reply: Reply, a: Sent, b: Sent, good: bool)
    requires Kept(ReplyHygiene(w), good, a.request, a.turns) && w.reply(n) == Replied(reply) && Valid(reply.calls) != []
    requires Grown(a.request, a.turns, b.request, b.turns) && OneTurn(w, n, reply.reasoning, reply.content, Valid(reply.calls), b.turns[|a.turns|..])
    ensures Kept(ReplyHygiene(w), good, b.request, b.turns)
  {
    var made := b.turns[|a.turns|..];
    assert b.turns == a.turns + made;
    OneTurnKept(w, n, reply.reasoning, reply.content, reply.calls, made, a.request, a.turns, ReplyHygiene(w), good);
  }

  lemma StreamFollowsKept(w: World, cfg: Config, systemPrompt: string, n: nat, a: Sent, b: Sent, good: bool)
    requires Kept(StreamHygiene(w), good, a.request, a.turns) && ContinuesStream(w, cfg, systemPrompt, n, a, b)
    ensures Kept(StreamHygiene(w), good, b.request, b.turns)
  {
    var made := b.turns[|a.turns|..];
    assert b.turns == a.turns + made;
    OneStreamKept(w, n, a.request, a.turns, made, good);
    if w.stream(n).broken.Some? && Overflowed(w.stream(n).broken.value) {
      CompactionKept(cfg, systemPrompt, w.summarize, a.request + made, b.request, b.turns, StreamHygiene(w), good);
    }
  }

  lemma OneStreamKept(w: World, n: nat, request: seq<Message>, added: seq<Message>, made: seq<Message>, good: bool)
    requires Kept(StreamHygiene(w), good, request, added) && StreamTurns(w, n, w.stream(n).chunks, made)
    ensures Kept(StreamHygiene(w), good, request + made, added + made)
  {
    assert StreamHygiene(w) ==> CleanStream(w.stream(n));
    StreamTurnsKept(w, n, w.stream(n).chunks, made, request, added, StreamHygiene(w), good);
  }

  lemma {:induction false} AllKept(w: World, cfg: Config, systemPrompt: string, streaming: bool, first: seq<Message>, requests: seq<Sent>, i: nat, good: bool)
    requires i < |requests| && requests[0] == Sent(first, []) && Linked(Follows(w, cfg, systemPrompt, streaming), requests)
    requires good ==> Replayable(first)
    ensures Kept(Clean(w, streaming), good, requests[i].request, requests[i].turns)
    ensures i + 1 < |requests| ==> requests[i].turns <= requests[i + 1].turns
    decreases i
  {
    var rel := Follows(w, cfg, systemPrompt, streaming);
    if i > 0 {
      AllKept(w, cfg, systemPrompt, streaming, first, requests, i - 1, good);
      assert rel(i - 1, requests[i - 1], requests[i]);
      FollowsKept(w, cfg, systemPrompt, streaming, i - 1, requests[i - 1], requests[i], good);
    }
    if i + 1 < |requests| {
      assert rel(i, requests[i], requests[i + 1]);
      FollowsKept(w, cfg, systemPrompt, streaming, i, requests[i], requests[i + 1], good);
    }
  }

  lemma {:induction false} TurnsGrow(w: World, cfg: Config, systemPrompt: string, streaming: bool, first: seq<Message>, requests: seq<Sent>, i: nat, j: nat)
    requires i <= j < |requests| && requests[0] == Sent(first, []) && Linked(Follows(w, cfg, systemPrompt, streaming), requests)
    ensures requests[i].turns <= requests[j].turns
    decreases j - i
  {
    if i < j {
      AllKept(w, cfg, systemPrompt, streaming, first, requests, i, false);
      TurnsGrow(w, cfg, systemPrompt, streaming, first, requests, i + 1, j);
    }
  }

  /** The turns added are those of the last request, and perhaps those it led to. */
  ghost predicate Added(w: World, streaming: bool, requests: seq<Sent>, added: seq<Message>) {
    if streaming then AddedByStream(w, requests, added) else AddedBy(w, requests, added)
  }

  /** Every run of linked requests: turns only, each request ending in the latest one, and all replayable with usable ids. */
  lemma RunSafe(w: World, cfg: Config, systemPrompt: string, streaming: bool, first: seq<Message>, requests: seq<Sent>, added: seq<Message>, history: seq<Message>)
    requires requests != [] ==> requests[0] == Sent(first, [])
    requires Linked(Follows(w, cfg, systemPrompt, streaming), requests) && (Replayable(history) ==> Replayable(first))
    requires Added(w, streaming, requests, added) || (requests != [] && added == requests[|requests| - 1].turns)
    ensures AllTurns(added) && AllUpToDate(requests, added)
    ensures Clean(w, streaming) && Replayable(history) ==> AllReplayable(requests)
    ensures Clean(w, streaming) ==> Replayable(added)
  {
    var good := Replayable(history);
    if requests != [] {
      var n, last := |requests| - 1, requests[|requests| - 1];
      AllKept(w, cfg, systemPrompt, streaming, first, requests, n, good);
      AddedKept(w, streaming, requests, added, good);
    }
    forall i | 0 <= i < |requests| ensures requests[i].turns <= added && UpToDate(requests[i].request, requests[i].turns) {
      AllKept(w, cfg, systemPrompt, streaming, first, requests, i, good);
      TurnsGrow(w, cfg, systemPrompt, streaming, first, requests, i, |requests| - 1);
    }
    if Clean(w, streaming) && good {
      forall i | 0 <= i < |requests| ensures Replayable(requests[i].request) {
        AllKept(w, cfg, systemPrompt, streaming, first, requests, i, good);
      }
    }
  }

  lemma AddedKept(w: World, streaming: bool, requests: seq<Sent>, added: seq<Message>, good: bool)
    requires requests != []
    requires var last := requests[|requests| - 1];
             Kept(Clean(w, streaming), good, last.request, last.turns) && (Added(w, streaming, requests, added) || added == last.turns)
    ensures requests[|requests| - 1].turns <= added && AllTurns(added) && (Clean(w, streaming) ==> Replayable(added))
  {
    var n, last, clean := |requests| - 1, requests[|requests| - 1], Clean(w, streaming);
    if added != last.turns {
      var made := added[|last.turns|..];
      assert added == last.turns + made;
      if streaming {
        assert clean ==> CleanStream(w.stream(n));
        StreamTurnsKept(w, n, w.stream(n).chunks, made, last.request, last.turns, clean, good);
      } else {
        var reply := w.reply(n).reply;
        OneTurnKept(w, n, reply.reasoning, reply.content, reply.calls, made, last.request, last.turns, clean, good);
      }
    }
  }

  // ---------- the blocking form ----------

  /**
    What follows model call n: a reply with calls adds its turn to the request and
    to the new messages; an overflow compacts the request; any other failure that
    is retried repeats it.
   */
  predicate Continues(w: World, cfg: Config, systemPrompt: string, n: nat, a: Sent, b: Sent) {
    match w.reply(n)
    case Replied(reply) =>
      Valid(reply.calls) != [] && Grown(a.request, a.turns, b.request, b.turns) &&
      OneTurn(w, n, reply.reasoning, reply.content, Valid(reply.calls), b.turns[|a.turns|..])
    case Failed(f) =>
      b.turns == a.turns && if Overflowed(f) then IsCompaction(cfg, systemPrompt, w.summarize, 0, a.request, b.request) else b.request == a.request
  }

  /** The message that closes a run: thinking unless blank, and the text. */
  predicate FinalOf(m: Message, reasoning: string, content: string) {
    m.role == "assistant" && m.content != [] && m.content[|m.content| - 1] == TextBlock(content) &&
    if HasNonWhitespace(reasoning) then |m.content| == 2 && m.content[0] == Thinking(reasoning) else |m.content| == 1
  }

  /** The turns of a run that made these requests. */
  predicate AddedBy(w: World, requests: seq<Sent>, added: seq<Message>) {
    if requests == [] then added == []
    else
      var n, last := |requests| - 1, requests[|requests| - 1];
      match w.reply(n)
      case Replied(reply) =>
        if Valid(reply.calls) == [] then added == last.turns
        else last.turns <= added && OneTurn(w, n, reply.reasoning, reply.content, Valid(reply.calls), added[|last.turns|..])
      case Failed(_) => added == last.turns
  }

  /** How it closes: with the text of the last reply if that made no call, else because it was stopped. */
  predicate ClosedBy(w: World, requests: seq<Sent>, final: Message) {
    if requests != [] && w.reply(|requests| - 1).Replied? && Valid(w.reply(|requests| - 1).reply.calls) == [] then
      var reply := w.reply(|requests| - 1).reply;
      if HasNonWhitespace(reply.content) then FinalOf(final, reply.reasoning, reply.content)
      else FinalOf(final, "", if reply.calls != [] then INVALID_CALL_TEXT else STOPPED_TEXT)
    else FinalOf(final, "", STOPPED_TEXT)
  }

  datatype Result = Returned(messages: seq<Message>) | Threw

  const INVALID_CALL_TEXT := "I couldn't continue because the model emitted an invalid tool call. Please try again."
  const EMPTY_STREAM_TEXT := "I couldn't complete that request because the model returned no usable response. Please try again."
  const STOPPED_TEXT := "[Agent turn stopped by user]"

  datatype LoopState = LoopState(request: seq<Message>, added: seq<Message>, requests: seq<Sent>, p: Progress)

  /** Record that the request is sent. */
  function Send(s: LoopState): LoopState {
    s.(requests := s.requests + [Current(s)], p := s.p.(calls := s.p.calls + 1))
  }

  datatype Verdict = GoOn | Finish(final: Message) | Quit | Unusable

  /** A run that is stopped while it could go on. */
  lemma StoppedThere(w: World, cfg: Config, systemPrompt: string, s: LoopState)
    requires s.requests != [] ==> Continues(w, cfg, systemPrompt, |s.requests| - 1, s.requests[|s.requests| - 1], Current(s))
    requires s.requests == [] ==> s.added == []
    ensures AddedBy(w, s.requests, s.added) && ClosedBy(w, s.requests, FinalMessage("", STOPPED_TEXT))
  {
  }

  /** One model call of the blocking form, and what follows from it. */
  method Attempt(w: World, cfg: Config, systemPrompt: string, s: LoopState) returns (v: Verdict, s': LoopState)
    requires Accounted(s.p) && s.p.calls == |s.requests|
    ensures s'.requests == s.requests + [Current(s)] && s'.p.calls == s.p.calls + 1
    ensures s.p.iterations <= s'.p.iterations <= s.p.iterations + 1 && s'.p.slept <= 7
    ensures v.GoOn? ==> Accounted(s'.p)
    ensures v.Finish? ==> IsFinal(v.final)
    ensures v.GoOn? ==> Continues(w, cfg, systemPrompt, s.p.calls, Current(s), Current(s'))
    ensures !v.GoOn? ==> EndsWith(w, s'.requests, s'.added, v)
  {
    s' := Send(s);
    var outcome := w.reply(s.p.calls);
    if outcome.Failed? {
      var retry, p := AfterFailure(s.p, outcome.failure);
      s' := s'.(p := p);
      if retry.GiveUp? {
        return Quit, s';
      }
      var next := NextRequest(retry, cfg, s.request, systemPrompt, w.summarize);
      return GoOn, s'.(request := next, added := s.added);
    }
    var reply := outcome.reply;
    var ran, sawInvalid, request, added :=
      RunCalls(w, s.p.calls, reply.reasoning, reply.content, reply.calls, s.request, s.added);
    if ran {
      s' := s'.(request := request, added := added);
      return GoOn, s'.(p := s'.p.(iterations := s.p.iterations + 1));
    }
    NoneValid(reply.calls);
    if HasNonWhitespace(reply.content) {
      v := Finish(FinalMessage(reply.reasoning, reply.content));
    } else {
      v := if sawInvalid then Finish(FinalMessage("", INVALID_CALL_TEXT)) else Unusable;
    }
    ClosedThere(w, reply, s, s', v);
  }

  /** A reply without valid calls closes the run. */
  lemma ClosedThere(w: World, reply: Reply, s: LoopState, s': LoopState, v: Verdict)
    requires w.reply(|s.requests|) == Replied(reply) && Valid(reply.calls) == []
    requires s'.requests == s.requests + [Current(s)] && s'.added == s.added
    requires v == if HasNonWhitespace(reply.content) then Finish(FinalMessage(reply.reasoning, reply.content))
                  else if reply.calls != [] then Finish(FinalMessage("", INVALID_CALL_TEXT)) else Unusable
    ensures EndsWith(w, s'.requests, s'.added, v) && (v.Finish? ==> IsFinal(v.final))
  {
  }

  /** When no call has a name, there is one without exactly if there is any. */
  lemma NoneValid(calls: seq<ToolCall>)
    requires Valid(calls) == []
    ensures calls != [] <==> HasInvalid(calls)
  {
    FilterOnly(calls, HasName);
    if calls != [] { assert calls[0] in calls && calls[0] !in Filter(calls, HasName); }
  }

  /**
    ProcessMessage. What it returns is a list of answered turns and one final
    message; it makes at most three calls beyond its iteration limit and sleeps
    at most seven seconds; every request it sends can be replayed. Requests, turns
    and the final message are those the replies call for.
   */
  method ProcessMessage(w: World, cfg: Config, message: string, history: seq<Message>, systemPrompt: string,
                        contextWindow: int, maxTokens: int, maxIterations: nat)
    returns (result: Result, requests: seq<Sent>, p: Progress)
    ensures result.Returned? ==> TurnsThenFinal(result.messages) && AllUpToDate(requests, result.messages)
    ensures requests != [] ==> IsFirst(cfg, history, systemPrompt, message, contextWindow, maxTokens, requests[0].request) && requests[0].turns == []
    ensures Linked(Follows(w, cfg, systemPrompt, false), requests)
    ensures result.Returned? ==> ReturnedBy(w, requests, result.messages)
    ensures p.calls == |requests| <= maxIterations + MAX_OVERFLOW_RETRIES && p.slept <= 7
    ensures ReplyHygiene(w) && Replayable(history) ==> AllReplayable(requests)
    ensures ReplyHygiene(w) && result.Returned? ==> Replayable(result.messages)
  {
    var request := FirstRequest(cfg, history, systemPrompt, message, contextWindow, maxTokens);
    var v, s := RunReplies(w, cfg, systemPrompt, request, maxIterations);
    result, requests, p := Threw, s.requests, s.p;
    RunSafe(w, cfg, systemPrompt, false, request, requests, s.added, history);
    if v.Finish? || (!v.Quit? && (w.stoppedLate || (v.GoOn? && s.p.iterations < maxIterations))) {
      var final := if v.Finish? then v.final else FinalMessage("", STOPPED_TEXT);
      Concluding(w, requests, s.added, final);
      result := Returned(s.added + [final]);
    }
  }

  /** What a run returns: the turns it made, and the message that closes it. */
  predicate ReturnedBy(w: World, requests: seq<Sent>, messages: seq<Message>) {
    messages != [] && AddedBy(w, requests, messages[..|messages| - 1]) && ClosedBy(w, requests, messages[|messages| - 1])
  }

  lemma Concluding(w: World, requests: seq<Sent>, added: seq<Message>, final: Message)
    requires AddedBy(w, requests, added) && ClosedBy(w, requests, final)
    requires AllTurns(added) && IsFinal(final) && AllUpToDate(requests, added)
    ensures ReturnedBy(w, requests, added + [final])
    ensures TurnsThenFinal(added + [final]) && AllUpToDate(requests, added + [final])
    ensures Replayable(added) ==> Replayable(added + [final])
  {
    assert (added + [final])[..|added|] == added;
    AddFinal(added, final);
    StaysUpToDate(requests, added, [final]);
  }

  lemma StaysUpToDate(requests: seq<Sent>, added: seq<Message>, more: seq<Message>)
    requires AllUpToDate(requests, added)
    ensures AllUpToDate(requests, added + more)
  {
    forall i | 0 <= i < |requests| ensures requests[i].turns <= added + more {
      assert requests[i].turns <= added;
    }
  }

  /** Where a run ends: the turns it made, and how it is closed unless it is thrown out of. */
  predicate EndsWith(w: World, requests: seq<Sent>, added: seq<Message>, v: Verdict) {
    if v.Quit? then requests != [] && added == requests[|requests| - 1].turns
    else AddedBy(w, requests, added) && ClosedBy(w, requests, if v.Finish? then v.final else FinalMessage("", STOPPED_TEXT))
  }

  /** The loop itself. */
  method RunReplies(w: World, cfg: Config, systemPrompt: string, request: seq<Message>, maxIterations: nat) returns (v: Verdict, s: LoopState)
    ensures s.p.calls == |s.requests| <= maxIterations + MAX_OVERFLOW_RETRIES && s.p.slept <= 7
    ensures Traced(Follows(w, cfg, systemPrompt, false), request, s, v.GoOn?)
    ensures v.Finish? ==> IsFinal(v.final)
    ensures EndsWith(w, s.requests, s.added, v)
    ensures v.GoOn? ==> s.p.iterations >= maxIterations || w.stopped(s.p.calls)
  {
    s, v := LoopState(request, [], [], Progress(0, 0, 0, 0)), GoOn;
    while v.GoOn? && s.p.iterations < maxIterations && !w.stopped(s.p.calls)
      invariant s.p.iterations <= maxIterations && s.p.calls == |s.requests| && s.p.slept <= 7
      invariant v.GoOn? ==> Accounted(s.p)
      invariant s.p.calls <= maxIterations + MAX_OVERFLOW_RETRIES
      invariant Traced(Follows(w, cfg, systemPrompt, false), request, s, v.GoOn?)
      invariant v.Finish? ==> IsFinal(v.final)
      invariant !v.GoOn? ==> EndsWith(w, s.requests, s.added, v)
      decreases maxIterations + MAX_OVERFLOW_RETRIES - s.p.calls
    {
      ghost var before := s;
      v, s := Attempt(w, cfg, systemPrompt, s);
      TraceOn(Follows(w, cfg, systemPrompt, false), request, before, s, v.GoOn?);
    }
    if v.GoOn? { StoppedThere(w, cfg, systemPrompt, s); }
  }

  // ---------- the streaming form ----------

  datatype Event = TextDelta(text: string) | ToolUseEvent(call: ToolCall) | ToolResultEvent(id: string, output: string) | MessageEnd(text: string)

  /** The event log of a run that is still going. */
  predicate Unended(events: seq<Event>) { forall i :: 0 <= i < |events| ==> !events[i].MessageEnd? }

  /** The event log of a finished run: one message_end, and it comes last. */
  predicate Ended(events: seq<Event>) {
    events != [] && events[|events| - 1].MessageEnd? && Unended(events[..|events| - 1])
  }

  /** What the stream callback accumulates. */
  datatype Accumulator = Accumulator(response: string, reasoning: string, handled: bool, sawInvalid: bool, sawEnd: bool)

  /** A chunk that brings calls to run. */
  predicate IsRound(chunk: Chunk) { !chunk.isEnd && Valid(chunk.calls) != [] }

  /**
    What is heard after one more chunk. The closing chunk supplies whatever text
    has not arrived in pieces; a round of calls takes the text along.
   */
  function Hear(acc: Accumulator, chunk: Chunk): Accumulator {
    if chunk.isEnd then
      acc.(sawEnd := true,
           response := if !HasNonWhitespace(acc.response) && HasNonWhitespace(chunk.content) then chunk.content else acc.response,
           reasoning := if !HasNonWhitespace(acc.reasoning) && HasNonWhitespace(chunk.reasoning) then chunk.reasoning else acc.reasoning)
    else
      var round := IsRound(chunk);
      Accumulator(if round then "" else acc.response + chunk.content, if round then "" else acc.reasoning + chunk.reasoning,
                  acc.handled || round, acc.sawInvalid || HasInvalid(chunk.calls), acc.sawEnd)
  }

  predicate HasInvalid(calls: seq<ToolCall>) { exists i :: 0 <= i < |calls| && !HasNonWhitespace(calls[i].name) }

  function Heard(chunks: seq<Chunk>): Accumulator {
    if chunks == [] then Accumulator("", "", false, false, false) else Hear(Heard(chunks[..|chunks| - 1]), chunks[|chunks| - 1])
  }

  /** The turns that the chunks of reply n add, one for each round, with the text heard since the round before. */
  predicate StreamTurns(w: World, n: nat, chunks: seq<Chunk>, made: seq<Message>) {
    if chunks == [] then made == []
    else
      var init, last := chunks[..|chunks| - 1], chunks[|chunks| - 1];
      if !IsRound(last) then StreamTurns(w, n, init, made)
      else
        |made| >= 2 && StreamTurns(w, n, init, made[..|made| - 2]) &&
        OneTurn(w, n, Heard(init).reasoning + last.reasoning, Heard(init).response + last.content, Valid(last.calls), made[|made| - 2..])
  }

  /** The events of a tool round: every use, then every result. */
  function ToolEvents(w: World, n: nat, calls: seq<ToolCall>): (r: seq<Event>)
    ensures Unended(r) && |r| == 2 * |calls|
    ensures forall i :: 0 <= i < |calls| ==> r[i] == ToolUseEvent(calls[i]) && r[|calls| + i] == ToolResultEvent(calls[i].id, w.tool(n, calls[i]))
  {
    seq(|calls|, i requires 0 <= i < |calls| => ToolUseEvent(calls[i])) +
    seq(|calls|, i requires 0 <= i < |calls| => ToolResultEvent(calls[i].id, w.tool(n, calls[i])))
  }

  /** The events of one chunk: its text unless empty, then those of its round. */
  function ChunkEvents(w: World, n: nat, chunk: Chunk): (r: seq<Event>)
    ensures Unended(r)
    ensures chunk.isEnd ==> r == []
    ensures !chunk.isEnd && chunk.content != "" ==> r == [TextDelta(chunk.content)] + ToolEvents(w, n, Valid(chunk.calls))
    ensures !chunk.isEnd && chunk.content == "" ==> r == ToolEvents(w, n, Valid(chunk.calls))
  {
    if chunk.isEnd then [] else (if chunk.content != "" then [TextDelta(chunk.content)] else []) + ToolEvents(w, n, Valid(chunk.calls))
  }

  function StreamEvents(w: World, n: nat, chunks: seq<Chunk>): seq<Event> {
    if chunks == [] then [] else StreamEvents(w, n, chunks[..|chunks| - 1]) + ChunkEvents(w, n, chunks[|chunks| - 1])
  }

  /** The events of the first k model calls. */
  function RunEvents(w: World, k: nat): seq<Event> {
    if k == 0 then [] else RunEvents(w, k - 1) + StreamEvents(w, k - 1, w.stream(k - 1).chunks)
  }

  /** The callback on one chunk. */
  method OnChunk(w: World, n: nat, chunk: Chunk, acc: Accumulator, s: LoopState, events: seq<Event>)
    returns (acc': Accumulator, s': LoopState, events': seq<Event>)
    requires Unended(events)
    ensures s' == s.(request := s'.request, added := s'.added)
    ensures acc' == Hear(acc, chunk) && events' == events + ChunkEvents(w, n, chunk) && Unended(events')
    ensures Grown(s.request, s.added, s'.request, s'.added)
    ensures !IsRound(chunk) ==> s'.added == s.added
    ensures IsRound(chunk) ==> OneTurn(w, n, acc.reasoning + chunk.reasoning, acc.response + chunk.content, Valid(chunk.calls), s'.added[|s.added|..])
  {
    acc', s', events' := acc, s, events;
    NothingGrown(s);
    if chunk.isEnd {
      assert events + [] == events;
      acc' := Hear(acc, chunk);
      return;
    }
    if chunk.content != "" {
      events' := events' + [TextDelta(chunk.content)];
    }
    var response, reasoning := acc.response + chunk.content, acc.reasoning + chunk.reasoning;
    var ran, sawInvalid, request, added := RunCalls(w, n, reasoning, response, chunk.calls, s.request, s.added);
    acc' := Accumulator(response, reasoning, acc.handled, acc.sawInvalid || sawInvalid, acc.sawEnd);
    if ran {
      acc' := acc'.(handled := true, response := "", reasoning := "");
    }
    HearIs(acc, chunk, ran, sawInvalid, acc');
    s' := s.(request := request, added := added);
    events' := events' + ToolEvents(w, n, Valid(chunk.calls));
    EventsOfChunk(w, n, chunk, events, events');
  }

  lemma NothingGrown(s: LoopState)
    ensures Grown(s.request, s.added, s.request, s.added)
  {
    assert s.added[|s.added|..] == [] && s.request + [] == s.request;
  }

  lemma HearIs(acc: Accumulator, chunk: Chunk, ran: bool, sawInvalid: bool, acc': Accumulator)
    requires !chunk.isEnd && ran == (Valid(chunk.calls) != []) && sawInvalid == HasInvalid(chunk.calls)
    requires acc'.sawEnd == acc.sawEnd && acc'.handled == (acc.handled || ran) && acc'.sawInvalid == (acc.sawInvalid || sawInvalid)
    requires acc'.response == (if ran then "" else acc.response + chunk.content)
    requires acc'.reasoning == (if ran then "" else acc.reasoning + chunk.reasoning)
    ensures acc' == Hear(acc, chunk)
  {
  }

  lemma EventsOfChunk(w: World, n: nat, chunk: Chunk, events: seq<Event>, events': seq<Event>)
    requires Unended(events) && !chunk.isEnd
    requires events' == (if chunk.content != "" then events + [TextDelta(chunk.content)] else events) + ToolEvents(w, n, Valid(chunk.calls))
    ensures events' == events + ChunkEvents(w, n, chunk) && Unended(events')
  {
    if chunk.content != "" { AppendAssoc(events, [TextDelta(chunk.content)], ToolEvents(w, n, Valid(chunk.calls))); }
  }

  /** Where the callback stands after some chunks of reply n. */
  predicate HeardSoFar(w: World, n: nat, chunks: seq<Chunk>, s: LoopState, events: seq<Event>, acc: Accumulator, s': LoopState, events': seq<Event>) {
    && s' == s.(request := s'.request, added := s'.added) && acc == Heard(chunks)
    && events' == events + StreamEvents(w, n, chunks) && Unended(events')
    && Grown(s.request, s.added, s'.request, s'.added) && StreamTurns(w, n, chunks, s'.added[|s.added|..])
  }

  /** The callback on the chunks of a reply, one after the other. */
  method OnStream(w: World, n: nat, chunks: seq<Chunk>, s: LoopState, events: seq<Event>)
    returns (acc: Accumulator, s': LoopState, events': seq<Event>)
    requires Unended(events)
    ensures HeardSoFar(w, n, chunks, s, events, acc, s', events')
  {
    acc, s', events' := Accumulator("", "", false, false, false), s, events;
    NothingHeard(w, n, s, events);
    assert chunks[..0] == [];
    for i := 0 to |chunks|
      invariant HeardSoFar(w, n, chunks[..i], s, events, acc, s', events')
    {
      PrefixNext(chunks, i, i + 1);
      acc, s', events' := OnNext(w, n, chunks[..i], chunks[i], s, events, acc, s', events');
    }
    assert chunks[..|chunks|] == chunks;
  }

  lemma PrefixNext(chunks: seq<Chunk>, i: nat, next: nat)
    requires next == i + 1 <= |chunks|
    ensures chunks[..i] + [chunks[i]] == chunks[..next]
  {
  }

  method OnNext(w: World, n: nat, ghost chunks: seq<Chunk>, chunk: Chunk, ghost s: LoopState, ghost events: seq<Event>,
                acc0: Accumulator, s0: LoopState, events0: seq<Event>)
    returns (acc: Accumulator, s': LoopState, events': seq<Event>)
    requires HeardSoFar(w, n, chunks, s, events, acc0, s0, events0)
    ensures HeardSoFar(w, n, chunks + [chunk], s, events, acc, s', events')
  {
    acc, s', events' := OnChunk(w, n, chunk, acc0, s0, events0);
    HeardMore(w, n, chunks, chunk, s, events, acc0, s0, events0, acc, s', events');
  }

  lemma NothingHeard(w: World, n: nat, s: LoopState, events: seq<Event>)
    requires Unended(events)
    ensures HeardSoFar(w, n, [], s, events, Accumulator("", "", false, false, false), s, events)
  {
    assert s.added[|s.added|..] == [] && s.request + [] == s.request && events + [] == events;
  }

  lemma HeardMore(w: World, n: nat, chunks: seq<Chunk>, chunk: Chunk, s: LoopState, events: seq<Event>,
                  acc: Accumulator, s0: LoopState, events0: seq<Event>, acc': Accumulator, s': LoopState, events': seq<Event>)
    requires HeardSoFar(w, n, chunks, s, events, acc, s0, events0)
    requires s' == s0.(request := s'.request, added := s'.added) && acc' == Hear(acc, chunk)
    requires events' == events0 + ChunkEvents(w, n, chunk) && Grown(s0.request, s0.added, s'.request, s'.added)
    requires !IsRound(chunk) ==> s'.added == s0.added
    requires IsRound(chunk) ==> OneTurn(w, n, acc.reasoning + chunk.reasoning, acc.response + chunk.content, Valid(chunk.calls), s'.added[|s0.added|..])
    ensures HeardSoFar(w, n, chunks + [chunk], s, events, acc', s', events')
  {
    EventsOn(w, n, chunks, chunk, events);
    GrownTwice(s, s0, s');
    TurnsOn(w, n, chunks, chunk, s0.added[|s.added|..], s'.added[|s0.added|..]);
  }

  lemma EventsOn(w: World, n: nat, chunks: seq<Chunk>, chunk: Chunk, events: seq<Event>)
    ensures events + StreamEvents(w, n, chunks + [chunk]) == events + StreamEvents(w, n, chunks) + ChunkEvents(w, n, chunk)
    ensures Unended(events + StreamEvents(w, n, chunks)) ==> Unended(events + StreamEvents(w, n, chunks) + ChunkEvents(w, n, chunk))
  {
    assert (chunks + [chunk])[..|chunks|] == chunks;
    AppendAssoc(events, StreamEvents(w, n, chunks), ChunkEvents(w, n, chunk));
  }

  lemma GrownTwice(a: LoopState, b: LoopState, c: LoopState)
    requires Grown(a.request, a.added, b.request, b.added) && Grown(b.request, b.added, c.request, c.added)
    ensures Grown(a.request, a.added, c.request, c.added)
    ensures c.added[|a.added|..] == b.added[|a.added|..] + c.added[|b.added|..]
  {
    AppendAssoc(a.request, b.added[|a.added|..], c.added[|b.added|..]);
  }

  lemma TurnsOn(w: World, n: nat, chunks: seq<Chunk>, chunk: Chunk, made: seq<Message>, more: seq<Message>)
    requires StreamTurns(w, n, chunks, made)
    requires !IsRound(chunk) ==> more == []
    requires IsRound(chunk) ==>
               OneTurn(w, n, Heard(chunks).reasoning + chunk.reasoning, Heard(chunks).response + chunk.content, Valid(chunk.calls), more)
    ensures StreamTurns(w, n, chunks + [chunk], made + more) && Heard(chunks + [chunk]) == Hear(Heard(chunks), chunk)
  {
    assert (chunks + [chunk])[..|chunks|] == chunks;
    if IsRound(chunk) {
      assert (made + more)[..|made|] == made && (made + more)[|made|..] == more;
    } else {
      assert made + more == made;
    }
  }

  /** What follows streamed model call n: its turns join the request, which an overflow then compacts. */
  predicate ContinuesStream(w: World, cfg: Config, systemPrompt: string, n: nat, a: Sent, b: Sent) {
    a.turns <= b.turns && StreamTurns(w, n, w.stream(n).chunks, b.turns[|a.turns|..]) &&
    var heard := a.request + b.turns[|a.turns|..];
    if w.stream(n).broken.Some? && Overflowed(w.stream(n).broken.value)
    then IsCompaction(cfg, systemPrompt, w.summarize, 0, heard, b.request)
    else b.request == heard
  }

  /** The turns of a streamed run that made these requests. */
  predicate AddedByStream(w: World, requests: seq<Sent>, added: seq<Message>) {
    if requests == [] then added == []
    else
      var n, last := |requests| - 1, requests[|requests| - 1];
      last.turns <= added && StreamTurns(w, n, w.stream(n).chunks, added[|last.turns|..])
  }

  /** The text that closes a streamed run: the last reply's, if it came through without calls and ends the run. */
  predicate ClosedByStream(w: World, requests: seq<Sent>, final: Message, stopped: bool) {
    var stopText := if stopped then "[Stopped]" else "[Max iterations reached]";
    if requests == [] then FinalOf(final, "", stopText)
    else
      var st := w.stream(|requests| - 1);
      var acc := Heard(st.chunks);
      if st.broken.Some? || acc.handled then FinalOf(final, "", stopText)
      else if HasNonWhitespace(acc.response) then FinalOf(final, acc.reasoning, acc.response)
      else if acc.sawInvalid then FinalOf(final, "", INVALID_CALL_TEXT)
      else if acc.sawEnd then FinalOf(final, "", EMPTY_STREAM_TEXT)
      else FinalOf(final, "", stopText)
  }

  /** The last message of a streamed reply that made no tool call, if the run ends there. */
  function StreamFinal(acc: Accumulator): (r: Option<Message>)
    ensures r.Some? ==> IsFinal(r.value)
  {
    if HasNonWhitespace(acc.response) then Some(FinalMessage(acc.reasoning, acc.response))
    else if acc.sawInvalid then Some(FinalMessage("", INVALID_CALL_TEXT))
    else if acc.sawEnd then Some(FinalMessage("", EMPTY_STREAM_TEXT))
    else None
  }

  /** What one streamed model call leads to. */
  predicate AfterCall(w: World, cfg: Config, systemPrompt: string, s: LoopState, events: seq<Event>, v: Verdict, s': LoopState, events': seq<Event>) {
    var n := |s.requests|;
    && s'.requests == s.requests + [Current(s)] && AddedByStream(w, s'.requests, s'.added)
    && events' == events + StreamEvents(w, n, w.stream(n).chunks) && Unended(events')
    && (v.GoOn? ==> ContinuesStream(w, cfg, systemPrompt, n, Current(s), Current(s')))
    && LastWord(w, s'.requests) == if v.Finish? then Some(v.final) else None
  }

  /** One streamed model call, and what follows from it. */
  method AttemptStream(w: World, cfg: Config, systemPrompt: string, s: LoopState, events: seq<Event>)
    returns (v: Verdict, s': LoopState, events': seq<Event>)
    requires Accounted(s.p) && s.p.calls == |s.requests| && Unended(events)
    ensures s'.p.calls == s.p.calls + 1 && s'.p.slept <= 7
    ensures s.p.iterations <= s'.p.iterations <= s.p.iterations + 1
    ensures v.GoOn? ==> Accounted(s'.p)
    ensures v.Finish? ==> IsFinal(v.final)
    ensures !v.Unusable? && AfterCall(w, cfg, systemPrompt, s, events, v, s', events')
  {
    var acc;
    acc, s', events' := OnStream(w, s.p.calls, w.stream(s.p.calls).chunks, Send(s), events);
    ghost var heard := s';
    HeardAll(w, s, events, acc, s', events');
    var broken := w.stream(s.p.calls).broken;
    if broken.Some? {
      var retry, p := AfterFailure(s.p, broken.value);
      s' := s'.(p := p);
      if retry.GiveUp? {
        Ending(w, cfg, systemPrompt, s, events, acc, heard, events', Quit, s');
        return Quit, s', events';
      }
      var next := NextRequest(retry, cfg, s'.request, systemPrompt, w.summarize);
      s' := s'.(request := next, added := s'.added);
      GoingOn(w, cfg, systemPrompt, s, events, acc, heard, events', s');
      return GoOn, s', events';
    }
    var final := StreamFinal(acc);
    if acc.handled || final.None? {
      s' := s'.(p := s'.p.(iterations := s.p.iterations + 1));
      GoingOn(w, cfg, systemPrompt, s, events, acc, heard, events', s');
      return GoOn, s', events';
    }
    v := Finish(final.value);
    Ending(w, cfg, systemPrompt, s, events, acc, heard, events', v, s');
  }

  /** A streamed reply, heard to its end. */
  predicate FullyHeard(w: World, s: LoopState, events: seq<Event>, acc: Accumulator, s': LoopState, events': seq<Event>) {
    var n := |s.requests|;
    && s'.requests == s.requests + [Current(s)] && s.added <= s'.added && s'.request == s.request + s'.added[|s.added|..]
    && StreamTurns(w, n, w.stream(n).chunks, s'.added[|s.added|..]) && acc == Heard(w.stream(n).chunks)
    && events' == events + StreamEvents(w, n, w.stream(n).chunks) && Unended(events')
  }

  lemma Ending(w: World, cfg: Config, systemPrompt: string, s: LoopState, events: seq<Event>, acc: Accumulator, heard: LoopState, events': seq<Event>,
               v: Verdict, s': LoopState)
    requires FullyHeard(w, s, events, acc, heard, events') && s'.requests == heard.requests && s'.added == heard.added
    requires var broken := w.stream(|s.requests|).broken;
             (v.Quit? && broken.Some?) || (v.Finish? && broken.None? && !acc.handled && StreamFinal(acc) == Some(v.final))
    ensures AfterCall(w, cfg, systemPrompt, s, events, v, s', events')
  {
  }

  lemma GoingOn(w: World, cfg: Config, systemPrompt: string, s: LoopState, events: seq<Event>, acc: Accumulator, heard: LoopState, events': seq<Event>, s': LoopState)
    requires FullyHeard(w, s, events, acc, heard, events') && s'.requests == heard.requests && s'.added == heard.added
    requires var broken := w.stream(|s.requests|).broken;
             if broken.Some? && Overflowed(broken.value) then IsCompaction(cfg, systemPrompt, w.summarize, 0, heard.request, s'.request)
             else s'.request == heard.request
    requires w.stream(|s.requests|).broken.Some? || acc.handled || StreamFinal(acc).None?
    ensures AfterCall(w, cfg, systemPrompt, s, events, GoOn, s', events')
  {
  }

  /** What a whole streamed reply leaves behind. */
  lemma HeardAll(w: World, s: LoopState, events: seq<Event>, acc: Accumulator, s': LoopState, events': seq<Event>)
    requires s.p.calls == |s.requests| && HeardSoFar(w, s.p.calls, w.stream(s.p.calls).chunks, Send(s), events, acc, s', events')
    ensures FullyHeard(w, s, events, acc, s', events') && s'.p == Send(s).p
  {
  }

  /** The message the last streamed reply closes the run with, if it does. */
  function LastWord(w: World, requests: seq<Sent>): Option<Message> {
    if requests == [] then None
    else
      var st := w.stream(|requests| - 1);
      if st.broken.Some? || Heard(st.chunks).handled then None else StreamFinal(Heard(st.chunks))
  }

  lemma ClosingIs(w: World, requests: seq<Sent>, final: Message, stopped: bool)
    requires LastWord(w, requests).Some? ==> final == LastWord(w, requests).value
    requires LastWord(w, requests).None? ==> final == StopMessage(stopped)
    ensures ClosedByStream(w, requests, final, stopped)
  {
  }

  function StopMessage(stopped: bool): (m: Message)
    ensures IsFinal(m)
  {
    FinalMessage("", if stopped then "[Stopped]" else "[Max iterations reached]")
  }

  /** The text of a closing message. */
  function ClosingText(m: Message): string
    requires IsFinal(m)
  {
    m.content[|m.content| - 1].text
  }

  /** A run that was thrown out of: its turns, and an error. */
  predicate BrokenOff(w: World, requests: seq<Sent>, messages: seq<Message>, last: Event) {
    AddedByStream(w, requests, messages) && last == MessageEnd("error")
  }

  /** A run that came to its end: its turns, the message that closes it, and the text of that message. */
  ghost predicate Completed(w: World, requests: seq<Sent>, messages: seq<Message>, last: Event) {
    TurnsThenFinal(messages) &&
    var k := |messages| - 1;
    AddedByStream(w, requests, messages[..k]) && last == MessageEnd(ClosingText(messages[k])) &&
    exists stopped :: ClosedByStream(w, requests, messages[k], stopped)
  }

  lemma Completing(w: World, requests: seq<Sent>, added: seq<Message>, final: Message, stopped: bool)
    requires AddedByStream(w, requests, added) && IsFinal(final) && ClosedByStream(w, requests, final, stopped)
    requires AllTurns(added) && AllUpToDate(requests, added)
    ensures Completed(w, requests, added + [final], MessageEnd(ClosingText(final)))
    ensures TurnsThenFinal(added + [final]) && AllUpToDate(requests, added + [final])
    ensures Replayable(added) ==> Replayable(added + [final])
  {
    assert (added + [final])[..|added|] == added;
    AddFinal(added, final);
    StaysUpToDate(requests, added, [final]);
  }

  /**
    ProcessMessageStream: answered turns, then at most one final message; one
    message_end, last; the same bounds, and replayable requests. Requests, turns,
    events and the closing text are those the streams call for.
   */
  method ProcessMessageStream(w: World, cfg: Config, message: string, history: seq<Message>, systemPrompt: string,
                              contextWindow: int, maxTokens: int, maxIterations: nat)
    returns (messages: seq<Message>, events: seq<Event>, requests: seq<Sent>, p: Progress)
    ensures AllTurns(messages) || TurnsThenFinal(messages)
    ensures AllUpToDate(requests, messages)
    ensures Ended(events) && events[..|events| - 1] == RunEvents(w, |requests|)
    ensures requests != [] ==> IsFirst(cfg, history, systemPrompt, message, contextWindow, maxTokens, requests[0].request) && requests[0].turns == []
    ensures Linked(Follows(w, cfg, systemPrompt, true), requests)
    ensures BrokenOff(w, requests, messages, events[|events| - 1]) || Completed(w, requests, messages, events[|events| - 1])
    ensures p.calls == |requests| <= maxIterations + MAX_OVERFLOW_RETRIES && p.slept <= 7
    ensures StreamHygiene(w) && Replayable(history) ==> AllReplayable(requests)
    ensures StreamHygiene(w) ==> Replayable(messages)
  {
    var request := FirstRequest(cfg, history, systemPrompt, message, contextWindow, maxTokens);
    var v, s, log := RunStreams(w, cfg, systemPrompt, request, maxIterations);
    requests, p := s.requests, s.p;
    RunSafe(w, cfg, systemPrompt, true, request, requests, s.added, history);
    messages, events := CloseStream(w, requests, s.added, v, w.stoppedLate || s.p.iterations < maxIterations, log);
  }

  /** The end of a streamed run: its last event, and the closing message unless it was thrown out of. */
  method CloseStream(w: World, ghost requests: seq<Sent>, added: seq<Message>, v: Verdict, stopped: bool, log: seq<Event>)
    returns (messages: seq<Message>, events: seq<Event>)
    requires Unended(log) && log == RunEvents(w, |requests|) && !v.Unusable? && (v.Finish? ==> IsFinal(v.final))
    requires AddedByStream(w, requests, added) && LastWord(w, requests) == if v.Finish? then Some(v.final) else None
    requires AllTurns(added) && AllUpToDate(requests, added)
    ensures AllTurns(messages) || TurnsThenFinal(messages)
    ensures AllUpToDate(requests, messages) && (Replayable(added) ==> Replayable(messages))
    ensures Ended(events) && events[..|events| - 1] == RunEvents(w, |requests|)
    ensures BrokenOff(w, requests, messages, events[|events| - 1]) || Completed(w, requests, messages, events[|events| - 1])
  {
    if v.Quit? {
      CloseLog(w, log, |requests|, "error");
      return added, log + [MessageEnd("error")];
    }
    var final := if v.Finish? then v.final else StopMessage(stopped);
    ClosingIs(w, requests, final, stopped);
    CloseLog(w, log, |requests|, ClosingText(final));
    Completing(w, requests, added, final, stopped);
    return added + [final], log + [MessageEnd(ClosingText(final))];
  }

  /** The loop itself. */
  method RunStreams(w: World, cfg: Config, systemPrompt: string, request: seq<Message>, maxIterations: nat)
    returns (v: Verdict, s: LoopState, events: seq<Event>)
    ensures s.p.calls == |s.requests| <= maxIterations + MAX_OVERFLOW_RETRIES && s.p.slept <= 7
    ensures Traced(Follows(w, cfg, systemPrompt, true), request, s, v.GoOn?) && AddedByStream(w, s.requests, s.added)
    ensures events == RunEvents(w, |s.requests|) && Unended(events) && !v.Unusable?
    ensures v.Finish? ==> IsFinal(v.final)
    ensures LastWord(w, s.requests) == if v.Finish? then Some(v.final) else None
  {
    s, v, events := LoopState(request, [], [], Progress(0, 0, 0, 0)), GoOn, [];
    while v.GoOn? && s.p.iterations < maxIterations && !w.stopped(s.p.calls)
      invariant Unended(events) && s.p.iterations <= maxIterations && s.p.calls == |s.requests| && s.p.slept <= 7
      invariant v.GoOn? ==> Accounted(s.p)
      invariant v.Finish? ==> IsFinal(v.final)
      invariant !v.Unusable? && s.p.calls <= maxIterations + MAX_OVERFLOW_RETRIES
      invariant events == RunEvents(w, |s.requests|)
      invariant Traced(Follows(w, cfg, systemPrompt, true), request, s, v.GoOn?) && AddedByStream(w, s.requests, s.added)
      invariant LastWord(w, s.requests) == if v.Finish? then Some(v.final) else None
      decreases maxIterations + MAX_OVERFLOW_RETRIES - s.p.calls
    {
      ghost var s0, events0 := s, events;
      v, s, events := AttemptStream(w, cfg, systemPrompt, s, events);
      OneCallMore(w, cfg, systemPrompt, request, s0, events0, v, s, events);
    }
  }

  lemma OneCallMore(w: World, cfg: Config, systemPrompt: string, request: seq<Message>, s: LoopState, events: seq<Event>,
                    v: Verdict, s': LoopState, events': seq<Event>)
    requires Traced(Follows(w, cfg, systemPrompt, true), request, s, true) && events == RunEvents(w, |s.requests|)
    requires AfterCall(w, cfg, systemPrompt, s, events, v, s', events')
    ensures Traced(Follows(w, cfg, systemPrompt, true), request, s', v.GoOn?) && events' == RunEvents(w, |s'.requests|)
    ensures AddedByStream(w, s'.requests, s'.added) && Unended(events')
    ensures LastWord(w, s'.requests) == if v.Finish? then Some(v.final) else None
  {
    TraceOn(Follows(w, cfg, systemPrompt, true), request, s, s', v.GoOn?);
  }

  lemma CloseLog(w: World, events: seq<Event>, k: nat, text: string)
    requires Unended(events) && events == RunEvents(w, k)
    ensures var log := events + [MessageEnd(text)]; Ended(log) && log[..|log| - 1] == RunEvents(w, k)
  {
    assert (events + [MessageEnd(text)])[..|events|] == events;
  }
}
