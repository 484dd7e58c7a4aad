/**
  Shrinking old tool results before a request (src/core/context_pruner.cpp).
 */
module Pruner {
  import opened Basics
  import opened Text
  import opened Transcript

  datatype Options = Options(
    protectRecent: int,
    softPruneLines: int,
    hardPruneAfter: int,
    maxToolResultChars: int,
    contextWindow: int,
    maxTokens: int,
    targetRatio: real
  )

  const DEFAULTS := Options(3, 5, 10, 2000, 0, 8192, 0.75)

  // ---------- token estimates ----------

  function BlockChars(b: Block): nat {
    match b
    case TextBlock(text) => |text|
    case Thinking(text) => |text|
    case ToolUse(_, _, input) => if input.Null? then 0 else |input.Dump()|
    case ToolResult(_, content) => |content|
    case OtherBlock(_) => 0
  }

  function Chars(content: seq<Block>): nat {
    if content == [] then 0 else BlockChars(content[0]) + Chars(content[1..])
  }

  function EstimateTokens(m: Message): nat {
    (|m.role| + Chars(m.content)) / 4
  }

  function Cost(ms: seq<Message>): nat {
    if ms == [] then 0 else Cost(ms[..|ms| - 1]) + EstimateTokens(ms[|ms| - 1])
  }

  // ---------- budget ----------

  /** A cast of a floating-point value to int: towards zero. */
  function Truncate(x: real): int { if x >= 0.0 then x.Floor else -((-x).Floor) }

  /** A threshold divided by how far the history is over its budget, down to a floor. */
  function Scale(x: int, floor: int, tokens: nat, budget: nat): int
    requires 0 < budget < tokens
  {
    Max(floor, Truncate(x as real / (tokens as real / budget as real)))
  }

  function Budget(opts: Options): int { Truncate(opts.contextWindow as real * opts.targetRatio) - opts.maxTokens }

  /** Thresholds after scaling down for an over-full context window. */
  function Effective(history: seq<Message>, opts: Options): Options {
    var budget, tokens := Budget(opts), Cost(history);
    if opts.contextWindow > 0 && budget > 0 && tokens > budget then
      opts.(maxToolResultChars := Scale(opts.maxToolResultChars, 200, tokens, budget),
            protectRecent := Scale(opts.protectRecent, 1, tokens, budget),
            hardPruneAfter := Scale(opts.hardPruneAfter, 3, tokens, budget))
    else opts
  }

  // ---------- rewriting one result ----------

  /** getline until the end of input. */
  function Lines(s: string): seq<string> {
    match Find(s, "\n", 0)
    case None => if s == "" then [] else [s]
    case Some(k) => [s[..k]] + Lines(s[k + 1..])
  }

  function JoinLines(lines: seq<string>, terminate: bool): string {
    if lines == [] then ""
    else lines[0] + (if terminate || |lines| > 1 then "\n" else "") + JoinLines(lines[1..], terminate)
  }

  /** The first and last lines of a long result, with a count of those left out. */
  function SoftPrune(content: string, keepLines: int): string {
    var lines := Lines(content);
    if keepLines <= 0 || |lines| <= keepLines * 2 then content
    else Shortened(lines, keepLines)
  }

  function Shortened(lines: seq<string>, keepLines: int): string
    requires 0 < keepLines * 2 < |lines|
  {
    JoinLines(lines[..keepLines], true) + Omission(|lines| - keepLines * 2) + JoinLines(lines[|lines| - keepLines..], false)
  }

  function Omission(n: nat): string { "\n... [" + ToDecimal(n) + " lines omitted] ...\n\n" }

  predicate IsStaleError(content: string) {
    |content| <= 300 &&
    (Contains(content, "Permission denied") || Contains(content, "is not allowed") ||
     Contains(content, "tool is not permitted"))
  }

  predicate StaleBlock(b: Block) { b.ToolResult? && IsStaleError(b.content) }

  const STALE_NOTE := "[Tool was unavailable at the time. Retry \U{2014} permissions may have changed.]"
  const OMITTED_NOTE := "[Tool result omitted \U{2014} older context]"

  // ---------- which messages are pruned ----------

  /** Assistant messages at index lo or later. */
  function AssistantsFrom(history: seq<Message>, lo: nat): nat
    decreases |history| - lo
  {
    if lo >= |history| then 0
    else (if history[lo].role == "assistant" then 1 else 0) + AssistantsFrom(history, lo + 1)
  }

  lemma {:induction false} FewerLater(history: seq<Message>, a: nat, b: nat)
    requires a <= b
    ensures AssistantsFrom(history, b) <= AssistantsFrom(history, a)
    decreases b - a
  {
    if a < b { FewerLater(history, a + 1, b); }
  }

  /** No user message comes before i, and one comes at i or later. */
  predicate InBootstrap(history: seq<Message>, i: nat) {
    (forall k :: 0 <= k < i && k < |history| ==> history[k].role != "user") &&
    exists k :: i <= k < |history| && history[k].role == "user"
  }

  /** Followed by fewer than n assistant messages, or in a history with no more than n. */
  predicate Recent(history: seq<Message>, i: nat, n: int) {
    AssistantsFrom(history, 0) <= Max(1, n) || AssistantsFrom(history, i + 1) < Max(1, n)
  }

  /** What becomes of one result that is old enough to be pruned. */
  function PruneResult(b: Block, hard: bool, opts: Options): Block
    requires b.ToolResult?
  {
    if hard then ToolResult(b.toolUseId, OMITTED_NOTE)
    else if |b.content| > opts.maxToolResultChars
    then ToolResult(b.toolUseId, SoftPrune(b.content, opts.softPruneLines))
    else b
  }

  predicate HasStaleError(content: seq<Block>) {
    exists b :: b in content && StaleBlock(b)
  }

  /** A stale error gives way to a note; anything else stays. */
  function Neutral(b: Block): Block {
    if StaleBlock(b) then ToolResult(b.toolUseId, STALE_NOTE) else b
  }

  function Rewrite(content: seq<Block>, stale: bool, hard: bool, opts: Options): seq<Block> {
    seq(|content|, i requires 0 <= i < |content| =>
      var b := content[i];
      if stale then Neutral(b) else if !b.ToolResult? then b else PruneResult(b, hard, opts))
  }

  /** Pruning told by counting assistant messages, for one message. opts are the effective ones. */
  function PruneAt(history: seq<Message>, i: nat, opts: Options): Message
    requires i < |history|
  {
    var m := history[i];
    if !HasResult(m.content) then m
    else if HasStaleError(m.content) then m.(content := Rewrite(m.content, true, false, opts))
    else if Recent(history, i, opts.protectRecent) || InBootstrap(history, i) then m
    else m.(content := Rewrite(m.content, false, !Recent(history, i, opts.hardPruneAfter), opts))
  }

  function PruneSpec(history: seq<Message>, opts: Options): (r: seq<Message>)
    ensures |r| == |history|
  {
    var effective := Effective(history, opts);
    seq(|history|, i requires 0 <= i < |history| => PruneAt(history, i, effective))
  }

  /** Only the texts of tool results ever change: roles, calls and ids stay. */
  lemma PruneKeepsShape(history: seq<Message>, opts: Options)
    ensures forall i :: 0 <= i < |history| ==> SameShape(history[i], PruneSpec(history, opts)[i])
  {
  }

  /**
    A message that fewer assistant messages follow than the effective limit
    protects (at least one) is left alone, but for its stale errors.
   */
  lemma RecentResultsKept(history: seq<Message>, opts: Options, i: nat)
    requires i < |history| && AssistantsFrom(history, i + 1) < Max(1, Effective(history, opts).protectRecent)
    ensures !HasStaleError(history[i].content) ==> PruneSpec(history, opts)[i] == history[i]
    ensures HasStaleError(history[i].content) ==>
              PruneSpec(history, opts)[i].content == seq(|history[i].content|, j requires 0 <= j < |history[i].content| => Neutral(history[i].content[j]))
  {
    var m := history[i];
    if HasStaleError(m.content) {
      var b :| b in m.content && StaleBlock(b);
      var j :| 0 <= j < |m.content| && m.content[j] == b;
      assert HasResult(m.content);
      assert Rewrite(m.content, true, false, Effective(history, opts)) == seq(|m.content|, j requires 0 <= j < |m.content| => Neutral(m.content[j]));
    }
  }

  lemma PruneKeepsReplayable(history: seq<Message>, opts: Options)
    requires Replayable(history)
    ensures Replayable(PruneSpec(history, opts))
  {
    PruneKeepsShape(history, opts);
    SameShapeReplayable(history, PruneSpec(history, opts));
  }

  // ---------- the index-vector form ----------

  /** Index of the first user message, or -1. */
  method FindBootstrapEnd(history: seq<Message>) returns (end: int)
    ensures -1 <= end < |history|
    ensures forall i: nat :: i < |history| ==> (i <= end <==> InBootstrap(history, i))
  {
    end := -1;
    for i := 0 to |history|
      invariant forall k :: 0 <= k < i ==> history[k].role != "user"
    {
      if history[i].role == "user" {
        return i;
      }
    }
  }

  /** Where the n-th assistant message from the end sits, or -1 when there are no more than n. */
  method RecencyThreshold(history: seq<Message>, n: int) returns (threshold: int)
    ensures forall i: nat :: i < |history| ==> (threshold < 0 || i >= threshold <==> Recent(history, i, n))
  {
    var indices: seq<int> := [];
    for i := 0 to |history|
      invariant |indices| + AssistantsFrom(history, i) == AssistantsFrom(history, 0)
      invariant forall p :: 0 <= p < |indices| ==>
                  0 <= indices[p] < i && history[indices[p]].role == "assistant" &&
                  AssistantsFrom(history, indices[p]) + p == AssistantsFrom(history, 0)
    {
      if history[i].role == "assistant" {
        indices := indices + [i];
      }
    }
    threshold := -1;
    var count := Max(1, n);
    if |indices| > count {
      threshold := indices[|indices| - count];
      forall i: nat | i < |history| ensures i >= threshold <==> Recent(history, i, n) {
        if i >= threshold {
          FewerLater(history, threshold + 1, i + 1);
        } else {
          FewerLater(history, i + 1, threshold);
        }
      }
    }
  }

  method Prune(history: seq<Message>, opts: Options) returns (result: seq<Message>)
    ensures result == PruneSpec(history, opts)
  {
    if history == [] {
      return history;
    }
    var effective := Effective(history, opts);
    var bootstrapEnd := FindBootstrapEnd(history);
    var protectThreshold := RecencyThreshold(history, effective.protectRecent);
    var hardThreshold := RecencyThreshold(history, effective.hardPruneAfter);
    result := [];
    for i := 0 to |history|
      invariant |result| == i && forall k :: 0 <= k < i ==> result[k] == PruneAt(history, k, effective)
    {
      var m := history[i];
      if !HasResult(m.content) {
        result := result + [m];
      } else {
        var rewritten, any := NeutralizeStaleErrors(m.content, effective);
        if any {
          result := result + [m.(content := rewritten)];
        } else if protectThreshold < 0 || i >= protectThreshold || i <= bootstrapEnd {
          result := result + [m];
        } else {
          var hard := hardThreshold >= 0 && i < hardThreshold;
          assert hard == !Recent(history, i, effective.hardPruneAfter);
          result := result + [m.(content := Rewrite(m.content, false, hard, effective))];
        }
      }
    }
  }

  /** Rewrite every block, and tell whether any was hit. */
  method RewriteEach(content: seq<Block>, f: Block -> Block, hit: Block -> bool) returns (rewritten: seq<Block>, any: bool)
    ensures |rewritten| == |content| && forall k :: 0 <= k < |content| ==> rewritten[k] == f(content[k])
    ensures any <==> exists b :: b in content && hit(b)
  {
    rewritten, any := [], false;
    for i := 0 to |content|
      invariant |rewritten| == i && forall k :: 0 <= k < i ==> rewritten[k] == f(content[k])
      invariant any <==> exists b :: b in content[..i] && hit(b)
    {
      assert content[..i + 1] == content[..i] + [content[i]];
      rewritten := rewritten + [f(content[i])];
      any := any || hit(content[i]);
    }
    assert content[..|content|] == content;
  }

  method NeutralizeStaleErrors(content: seq<Block>, opts: Options) returns (rewritten: seq<Block>, any: bool)
    ensures any == HasStaleError(content)
    ensures rewritten == Rewrite(content, true, false, opts)
  {
    rewritten, any := RewriteEach(content, Neutral, StaleBlock);
  }
}
