/**
  Assembling the messages of a request and compacting them on overflow
  (src/core/default_context_engine.cpp).
 */
module ContextEngine {
  import opened Basics
  import opened Text
  import opened Transcript
  import opened Pruner
  import opened Chunking

  const CONTEXT_WINDOW_MIN_TOKENS := 16384

  /** keepRecent is taken from the end of a vector by iterator arithmetic, so it may not be negative. */
  datatype Config = Config(autoCompact: bool, compactMaxMessages: int, keepRecent: nat, contextWindow: int)

  predicate IsNote(m: Message) { m.role == "system" && IsPlain(m) }

  /** r is the last messages of body with system notes put in front. */
  ghost predicate NotesThenSuffix(r: seq<Message>, body: seq<Message>) {
    exists n: nat, k: nat :: n <= |r| && k <= |body| && r[n..] == body[k..] && forall i :: 0 <= i < n ==> IsNote(r[i])
  }

  lemma NotesThenSuffixReplayable(r: seq<Message>, body: seq<Message>)
    requires NotesThenSuffix(r, body) && Replayable(body)
    ensures Replayable(r)
  {
    var n: nat, k: nat :| n <= |r| && k <= |body| && r[n..] == body[k..] && forall i :: 0 <= i < n ==> IsNote(r[i]);
    PlainReplayable(r[..n]);
    SuffixReplayable(body, k);
    AppendReplayable(r[..n], body[k..]);
    assert r == r[..n] + r[n..];
  }

  lemma NotesPlusSuffix(notes: seq<Message>, body: seq<Message>, k: nat)
    requires k <= |body| && forall m :: m in notes ==> IsNote(m)
    ensures NotesThenSuffix(notes + body[k..], body)
  {
    var r := notes + body[k..];
    assert r[|notes|..] == body[k..];
    assert forall i :: 0 <= i < |notes| ==> r[i] == notes[i] && IsNote(r[i]);
  }

  lemma AllKept(body: seq<Message>)
    ensures NotesThenSuffix(body, body)
  {
    NotesPlusSuffix([], body, 0);
    assert [] + body[0..] == body;
  }

  /** The note in place of the messages removed. */
  function TruncatedText(removed: nat): string {
    "[Context compaction: " + ToDecimal(removed)
    + " earlier messages were removed. Your system instructions remain active. "
    + "Refer to the system prompt for your identity and capabilities.]"
  }

  /** A long history is cut to its last messages, behind a note. */
  predicate IsTruncated(cfg: Config, history: seq<Message>, r: seq<Message>) {
    if cfg.autoCompact && |history| > cfg.compactMaxMessages && |history| > cfg.keepRecent then
      var removed := |history| - cfg.keepRecent;
      r == [TextMessage("system", TruncatedText(removed))] + history[removed..]
    else r == history
  }

  /** Auto-compaction: keep the most recent messages behind a note. */
  method TruncateHistory(cfg: Config, history: seq<Message>) returns (r: seq<Message>)
    ensures IsTruncated(cfg, history, r) && NotesThenSuffix(r, history)
  {
    r := history;
    AllKept(history);
    if cfg.autoCompact && |history| > cfg.compactMaxMessages {
      if |history| > cfg.keepRecent {
        var removed := |history| - cfg.keepRecent;
        var text := TruncatedText(removed);
        TextMessageIsPlain("system", text);
        NotesPlusSuffix([TextMessage("system", text)], history, removed);
        r := [TextMessage("system", text)] + history[removed..];
      }
    }
  }

  function SystemPrefix(systemPrompt: string): (r: seq<Message>)
    ensures systemPrompt == "" ==> r == []
    ensures systemPrompt != "" ==> r == [Message("system", [TextBlock(systemPrompt)])]
    ensures |r| <= 1 && forall m :: m in r ==> IsNote(m)
  {
    if systemPrompt == "" then [] else [TextMessage("system", systemPrompt)]
  }

  const FORCED_TEXT: string := "[Context compaction forced: context window nearly full. Earlier messages removed.]"

  /** The last messages behind the system prompt and a note. */
  method KeepBehind(full: seq<Message>, prefix: seq<Message>, text: string, keep: nat) returns (context: seq<Message>)
    requires keep < |full| && forall m :: m in prefix ==> IsNote(m)
    ensures context == prefix + [TextMessage("system", text)] + full[|full| - keep..]
    ensures NotesThenSuffix(context, full) && prefix <= context && |context| == |prefix| + 1 + keep
    ensures keep > 0 ==> context[|context| - 1] == full[|full| - 1]
  {
    var note := TextMessage("system", text);
    TextMessageIsPlain("system", text);
    NotesPlusSuffix(prefix + [note], full, |full| - keep);
    context := prefix + [note] + full[|full| - keep..];
  }

  /** The estimate leaves less of the window free than is reserved. */
  predicate TooFull(full: seq<Message>, contextWindow: int, maxTokens: int) {
    Cost(full) + maxTokens > contextWindow - CONTEXT_WINDOW_MIN_TOKENS
  }

  /** A list that is too full is cut to its last messages, behind the system prompt and a note. */
  predicate IsGuarded(systemPrompt: string, keepRecent: nat, contextWindow: int, maxTokens: int, full: seq<Message>, context: seq<Message>) {
    if TooFull(full, contextWindow, maxTokens) && keepRecent < |full|
    then context == SystemPrefix(systemPrompt) + [TextMessage("system", FORCED_TEXT)] + full[|full| - keepRecent..]
    else context == full
  }

  /** The context window guard: when the estimate is too high, keep only the most recent messages. */
  method GuardWindow(full: seq<Message>, systemPrompt: string, keepRecent: nat, contextWindow: int, maxTokens: int)
    returns (context: seq<Message>)
    requires SystemPrefix(systemPrompt) <= full
    ensures NotesThenSuffix(context, full)
    ensures SystemPrefix(systemPrompt) <= context
    ensures IsGuarded(systemPrompt, keepRecent, contextWindow, maxTokens, full, context)
    ensures TooFull(full, contextWindow, maxTokens) ==> |context| <= keepRecent + 2
    ensures keepRecent > 0 && full != [] ==> context != [] && context[|context| - 1] == full[|full| - 1]
  {
    context := full;
    AllKept(full);
    if Cost(full) + maxTokens > contextWindow - CONTEXT_WINDOW_MIN_TOKENS {
      var keep := Min(keepRecent, |full|);
      if keep < |full| {
        context := KeepBehind(full, SystemPrefix(systemPrompt), FORCED_TEXT, keep);
      }
    }
  }

  /**
    The request for a user message: nothing but the front of the pruned history
    is ever cut, the system prompt leads, and the user message closes.
   */
  method Assemble(cfg: Config, history: seq<Message>, systemPrompt: string, userMessage: string,
                  contextWindow: int, maxTokens: int)
    returns (context: seq<Message>, estimated: nat, ghost kept: seq<Message>)
    ensures IsTruncated(cfg, history, kept) && NotesThenSuffix(kept, history)
    ensures NotesThenSuffix(context, Unguarded(systemPrompt, kept, userMessage))
    ensures IsGuarded(systemPrompt, cfg.keepRecent, contextWindow, maxTokens, Unguarded(systemPrompt, kept, userMessage), context)
    ensures SystemPrefix(systemPrompt) <= context
    ensures cfg.keepRecent > 0 ==> context != [] && context[|context| - 1] == TextMessage("user", userMessage)
    ensures estimated == Cost(context)
    ensures estimated + maxTokens <= contextWindow - CONTEXT_WINDOW_MIN_TOKENS || |context| <= cfg.keepRecent + 2
    ensures Replayable(history) ==> Replayable(context)
  {
    var effective := TruncateHistory(cfg, history);
    kept := effective;
    var pruned := Prune(effective, DEFAULTS);
    var full := SystemPrefix(systemPrompt) + pruned + [TextMessage("user", userMessage)];
    context := GuardWindow(full, systemPrompt, cfg.keepRecent, contextWindow, maxTokens);
    estimated := Cost(context);
    if Replayable(history) { AssembledReplayable(history, kept, systemPrompt, userMessage, context); }
  }

  lemma AssembledReplayable(history: seq<Message>, kept: seq<Message>, systemPrompt: string, userMessage: string, context: seq<Message>)
    requires Replayable(history) && NotesThenSuffix(kept, history) && NotesThenSuffix(context, Unguarded(systemPrompt, kept, userMessage))
    ensures Replayable(context)
  {
    NotesThenSuffixReplayable(kept, history);
    PruneKeepsReplayable(kept, DEFAULTS);
    FullReplayable(systemPrompt, PruneSpec(kept, DEFAULTS), userMessage);
    NotesThenSuffixReplayable(context, Unguarded(systemPrompt, kept, userMessage));
  }

  /** System prompt, pruned history and user message, before the window guard. */
  function Unguarded(systemPrompt: string, history: seq<Message>, userMessage: string): seq<Message> {
    SystemPrefix(systemPrompt) + PruneSpec(history, DEFAULTS) + [TextMessage("user", userMessage)]
  }

  lemma FullReplayable(systemPrompt: string, pruned: seq<Message>, userMessage: string)
    requires Replayable(pruned)
    ensures Replayable(SystemPrefix(systemPrompt) + pruned + [TextMessage("user", userMessage)])
  {
    PlainReplayable(SystemPrefix(systemPrompt));
    AppendReplayable(SystemPrefix(systemPrompt), pruned);
    TextMessageIsPlain("user", userMessage);
    PlainReplayable([TextMessage("user", userMessage)]);
    AppendReplayable(SystemPrefix(systemPrompt) + pruned, [TextMessage("user", userMessage)]);
  }

  /** How many of the last messages survive an overflow compaction. */
  function OverflowKeep(count: nat, keepRecent: int, summarized: bool): (keep: nat)
    ensures keepRecent > 0 ==> keep == Min(count, Max(2, keepRecent))
    ensures keepRecent <= 0 && summarized ==> keep == Min(count, 4)
    ensures keepRecent <= 0 && !summarized ==> keep == Min(count, Max(2, count / 2))
    ensures keep <= count && (count >= 2 ==> keep >= 2)
  {
    var wanted := if keepRecent > 0 then keepRecent else if summarized then Min(4, count) else count / 2;
    Min(Max(2, wanted), count)
  }

  const OVERFLOW_TEXT: string := "[Context overflow recovery: older messages removed.]"

  predicate NotSystem(m: Message) { m.role != "system" }

  /** Enough messages to be worth a summary, and a way to get one. */
  predicate Summarizes(messages: seq<Message>, summarize: Option<seq<Message> -> string>) { summarize.Some? && |messages| >= 8 }

  /** What stands for the messages removed: a summary of all but the system messages, or a plain note. */
  function OverflowText(cfg: Config, messages: seq<Message>, summarize: Option<seq<Message> -> string>): string {
    if Summarizes(messages, summarize)
    then CompactText(Filter(messages, NotSystem), TruncatingQuarter(cfg.contextWindow), 16384, 8, 1.2, summarize.value)
    else OVERFLOW_TEXT
  }

  /** r is what compaction makes of messages: system prompt, summary or note, last messages. */
  predicate IsCompaction(cfg: Config, systemPrompt: string, summarize: Option<seq<Message> -> string>, keepRecent: int,
                         messages: seq<Message>, r: seq<Message>)
  {
    var keep := OverflowKeep(|messages|, keepRecent, Summarizes(messages, summarize));
    r == SystemPrefix(systemPrompt) + [TextMessage("system", OverflowText(cfg, messages, summarize))] + messages[|messages| - keep..]
  }

  /** After a provider reports an overflow: system prompt, one note or summary, the last messages. */
  method CompactOverflow(cfg: Config, messages: seq<Message>, systemPrompt: string, keepRecent: int,
                         summarize: Option<seq<Message> -> string>)
    returns (r: seq<Message>)
    ensures IsCompaction(cfg, systemPrompt, summarize, keepRecent, messages, r)
    ensures Replayable(messages) ==> Replayable(r)
  {
    var text := OVERFLOW_TEXT;
    var summarized := summarize.Some? && |messages| >= 8;
    var note := TextMessage("system", text);
    if summarized {
      var nonSystem := NonSystem(messages);
      var summary := CompactMultiStage(nonSystem, TruncatingQuarter(cfg.contextWindow), 16384, 8, 1.2, summarize.value);
      note := summary[0];
    }
    var keep := OverflowKeep(|messages|, keepRecent, summarized);
    r := SystemPrefix(systemPrompt) + [note] + messages[|messages| - keep..];
    if Replayable(messages) {
      CompactionReplayable(messages, systemPrompt, note, keep, OverflowText(cfg, messages, summarize));
    }
  }

  lemma CompactionReplayable(messages: seq<Message>, systemPrompt: string, note: Message, keep: nat, text: string)
    requires Replayable(messages) && keep <= |messages| && note == TextMessage("system", text)
    ensures Replayable(SystemPrefix(systemPrompt) + [note] + messages[|messages| - keep..])
  {
    TextMessageIsPlain("system", text);
    var notes := SystemPrefix(systemPrompt) + [note];
    assert IsNote(note) && forall m :: m in notes ==> m in SystemPrefix(systemPrompt) || m == note;
    NotesPlusSuffix(notes, messages, |messages| - keep);
    NotesThenSuffixReplayable(notes + messages[|messages| - keep..], messages);
  }

  /** Integer division by four, towards zero. */
  function TruncatingQuarter(x: int): (r: int)
    ensures x >= 0 ==> 4 * r <= x < 4 * r + 4
    ensures x < 0 ==> 4 * r - 4 < x <= 4 * r
  {
    if x >= 0 then x / 4 else -((-x) / 4)
  }

  method NonSystem(ms: seq<Message>) returns (r: seq<Message>)
    ensures r == Filter(ms, NotSystem)
  {
    r := [];
    for i := 0 to |ms|
      invariant r == Filter(ms[..i], NotSystem)
    {
      assert ms[..i + 1][..i] == ms[..i];
      if ms[i].role != "system" {
        r := r + [ms[i]];
      }
    }
    assert ms[..|ms|] == ms;
  }
}
