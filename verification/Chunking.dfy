/**
  Splitting a history under a token bound and summarising the pieces
  (src/core/multi_stage_compaction.cpp).
 */
module Chunking {
  import opened Basics
  import opened Text
  import opened Transcript
  import opened Pruner

  function Flatten(chunks: seq<seq<Message>>): seq<Message> {
    if chunks == [] then [] else chunks[0] + Flatten(chunks[1..])
  }

  predicate Fits(chunk: seq<Message>, bound: int) {
    |chunk| == 1 || (chunk != [] && Cost(chunk) <= bound)
  }

  /** Contiguous, non-empty pieces, each a single message or within the bound. */
  predicate IsPartition(chunks: seq<seq<Message>>, ms: seq<Message>, bound: int) {
    Flatten(chunks) == ms && forall i :: 0 <= i < |chunks| ==> Fits(chunks[i], bound)
  }

  lemma {:induction false} FlattenSnoc(chunks: seq<seq<Message>>, last: seq<Message>)
    ensures Flatten(chunks + [last]) == Flatten(chunks) + last
  {
    if chunks == [] {
      assert [last][1..] == [] && chunks + [last] == [last];
    } else {
      FlattenSnoc(chunks[1..], last);
      assert (chunks + [last])[1..] == chunks[1..] + [last];
    }
  }

  lemma {:induction false} CostSplit(a: seq<Message>, b: seq<Message>)
    ensures Cost(a + b) == Cost(a) + Cost(b)
  {
    if b == [] {
      assert a + b == a;
    } else {
      var init := b[..|b| - 1];
      CostSplit(a, init);
      assert (a + b)[..|a + b| - 1] == a + init;
    }
  }

  lemma CostOfOneMore(ms: seq<Message>, m: Message)
    ensures Cost(ms + [m]) == Cost(ms) + EstimateTokens(m)
  {
    assert (ms + [m])[..|ms|] == ms;
  }

  /** The longest first piece that starts with the first n messages. */
  function FirstLen(ms: seq<Message>, n: nat, bound: int): (r: nat)
    requires 1 <= n <= |ms|
    ensures n <= r <= |ms|
    decreases |ms| - n
  {
    if n < |ms| && Cost(ms[..n + 1]) <= bound then FirstLen(ms, n + 1, bound) else n
  }

  /** How many pieces taking the longest fitting one each time makes. */
  function GreedyCount(ms: seq<Message>, bound: int): nat
    decreases |ms|
  {
    if ms == [] then 0 else 1 + GreedyCount(ms[FirstLen(ms, 1, bound)..], bound)
  }

  /** Those pieces. */
  function Greedy(ms: seq<Message>, bound: int): (chunks: seq<seq<Message>>)
    ensures |chunks| == GreedyCount(ms, bound)
    decreases |ms|
  {
    if ms == [] then [] else var n := FirstLen(ms, 1, bound); [ms[..n]] + Greedy(ms[n..], bound)
  }

  /** Without a positive bound everything is one piece. */
  function Pieces(ms: seq<Message>, maxTokens: int): seq<seq<Message>> {
    if ms == [] then [] else if maxTokens <= 0 then [ms] else Greedy(ms, maxTokens)
  }

  lemma {:induction false} FirstLenFits(ms: seq<Message>, n: nat, bound: int)
    requires 1 <= n <= |ms| && Fits(ms[..n], bound)
    ensures Fits(ms[..FirstLen(ms, n, bound)], bound)
    decreases |ms| - n
  {
    if n < |ms| && Cost(ms[..n + 1]) <= bound { FirstLenFits(ms, n + 1, bound); }
  }

  /** No fitting prefix is longer than the first piece. */
  lemma {:induction false} FirstLenLongest(ms: seq<Message>, n: nat, k: nat, bound: int)
    requires 1 <= n <= |ms| && k <= |ms| && Fits(ms[..k], bound)
    ensures k <= FirstLen(ms, n, bound)
    decreases |ms| - n
  {
    if n < k {
      assert ms[..k] == ms[..n + 1] + ms[n + 1..k];
      CostSplit(ms[..n + 1], ms[n + 1..k]);
      FirstLenLongest(ms, n + 1, k, bound);
    }
  }

  /** Starting later, the first piece ends no earlier. */
  lemma FirstPieceReaches(ms: seq<Message>, k: nat, bound: int)
    requires k < |ms| && k < FirstLen(ms, 1, bound)
    ensures FirstLen(ms, 1, bound) <= k + FirstLen(ms[k..], 1, bound)
  {
    var n, rest := FirstLen(ms, 1, bound), ms[k..];
    FirstLenFits(ms, 1, bound);
    assert ms[..n] == ms[..k] + rest[..n - k];
    CostSplit(ms[..k], rest[..n - k]);
    FirstLenLongest(rest, 1, n - k, bound);
  }

  /** Dropping messages from the front never needs more pieces. */
  lemma {:induction false} SuffixNeedsNoMore(ms: seq<Message>, k: nat, bound: int)
    requires k <= |ms|
    ensures GreedyCount(ms[k..], bound) <= GreedyCount(ms, bound)
    decreases |ms|
  {
    if k < |ms| {
      var n := FirstLen(ms, 1, bound);
      var end := if n <= k then k else k + FirstLen(ms[k..], 1, bound);
      if n > k {
        FirstPieceReaches(ms, k, bound);
        assert ms[k..][end - k..] == ms[end..];
      }
      SuffixNeedsNoMore(ms[n..], end - n, bound);
      assert ms[n..][end - n..] == ms[end..];
    }
  }

  /** No partition has fewer pieces than the greedy one. */
  lemma {:induction false} GreedyIsLeast(chunks: seq<seq<Message>>, ms: seq<Message>, bound: int)
    requires IsPartition(chunks, ms, bound)
    ensures GreedyCount(ms, bound) <= |chunks|
    decreases |chunks|
  {
    if chunks != [] {
      var first := chunks[0];
      assert Fits(first, bound) && ms[..|first|] == first && ms[|first|..] == Flatten(chunks[1..]);
      GreedyIsLeast(chunks[1..], ms[|first|..], bound);
      var n := FirstLen(ms, 1, bound);
      FirstLenLongest(ms, 1, |first|, bound);
      SuffixNeedsNoMore(ms[|first|..], n - |first|, bound);
      assert ms[|first|..][n - |first|..] == ms[n..];
    }
  }

  /**
    One pass over the messages. The pieces partition the input, and no
    partition of it into fitting pieces has fewer.
   */
  method ChunkByMaxTokens(ms: seq<Message>, maxTokens: int) returns (result: seq<seq<Message>>)
    ensures result == Pieces(ms, maxTokens)
    ensures maxTokens > 0 ==> IsPartition(result, ms, maxTokens)
    ensures maxTokens > 0 ==> forall other :: IsPartition(other, ms, maxTokens) ==> |result| <= |other|
  {
    if ms == [] {
      return [];
    }
    if maxTokens <= 0 {
      return [ms];
    }
    result := [];
    var current: seq<Message> := [];
    NoneClosed(ms, maxTokens);
    assert ms[0..] == ms;
    var tokens := 0;
    for i := 0 to |ms|
      invariant tokens == Cost(current) && (i > 0 ==> current != []) && (i == 0 ==> current == [])
      invariant Progress(result, current, ms[i..], ms, maxTokens)
    {
      var m := ms[i];
      var cost := EstimateTokens(m);
      CostOfOneMore(current, m);
      CostOfOneMore([], m);
      assert ms[i..][0] == m && ms[i..][1..] == ms[i + 1..] && [] + [m] == [m];
      if current != [] && tokens + cost > maxTokens {
        CloseStep(result, current, ms[i..], ms, maxTokens);
        result := result + [current];
        current := [];
        tokens := 0;
      }
      ExtendStep(result, current, ms[i..], ms, maxTokens);
      current := current + [m];
      tokens := tokens + cost;
    }
    assert ms[|ms|..] == [];
    if current != [] {
      CloseStep(result, current, [], ms, maxTokens);
      result := result + [current];
    }
    AllClosed(result, ms, maxTokens);
  }

  lemma NoneClosed(ms: seq<Message>, bound: int)
    ensures Progress([], [], ms, ms, bound)
  {
    assert Flatten([]) + [] + ms == ms && [] + ms == ms;
  }

  /** The pieces closed so far, the open one and the messages left, against the greedy pieces. */
  predicate Progress(result: seq<seq<Message>>, current: seq<Message>, rest: seq<Message>, ms: seq<Message>, bound: int) {
    (forall i :: 0 <= i < |result| ==> Fits(result[i], bound)) &&
    (current != [] ==> Fits(current, bound)) &&
    Flatten(result) + current + rest == ms &&
    result + Greedy(current + rest, bound) == Greedy(ms, bound)
  }

  lemma AllClosed(result: seq<seq<Message>>, ms: seq<Message>, bound: int)
    requires Progress(result, [], [], ms, bound)
    ensures result == Greedy(ms, bound) && IsPartition(result, ms, bound)
    ensures forall other :: IsPartition(other, ms, bound) ==> |result| <= |other|
  {
    forall other | IsPartition(other, ms, bound) ensures GreedyCount(ms, bound) <= |other| {
      GreedyIsLeast(other, ms, bound);
    }
    assert Flatten(result) + [] + [] == Flatten(result);
    var none: seq<Message> := [];
    assert none + none == none && Greedy(none, bound) == [] && result + [] == result;
  }

  lemma CloseStep(result: seq<seq<Message>>, current: seq<Message>, rest: seq<Message>, ms: seq<Message>, bound: int)
    requires Progress(result, current, rest, ms, bound) && current != []
    requires rest != [] ==> Cost(current + [rest[0]]) > bound
    ensures Progress(result + [current], [], rest, ms, bound)
  {
    CloseChunk(current, rest, bound);
    FlattenSnoc(result, current);
    assert [] + rest == rest && Flatten(result + [current]) + [] == Flatten(result + [current]);
    AppendAssoc(result, [current], Greedy(rest, bound));
  }

  lemma ExtendStep(result: seq<seq<Message>>, current: seq<Message>, rest: seq<Message>, ms: seq<Message>, bound: int)
    requires Progress(result, current, rest, ms, bound) && rest != []
    requires current != [] ==> Cost(current + [rest[0]]) <= bound
    ensures Progress(result, current + [rest[0]], rest[1..], ms, bound)
  {
    AppendAssoc(current, [rest[0]], rest[1..]);
    assert [rest[0]] + rest[1..] == rest;
    AppendAssoc(Flatten(result), current, [rest[0]]);
    AppendAssoc(Flatten(result) + current, [rest[0]], rest[1..]);
  }

  /** A piece that fits and cannot take the next message is the first greedy piece. */
  lemma CloseChunk(current: seq<Message>, rest: seq<Message>, bound: int)
    requires Fits(current, bound)
    requires rest != [] ==> Cost(current + [rest[0]]) > bound
    ensures Greedy(current + rest, bound) == [current] + Greedy(rest, bound)
  {
    var ms := current + rest;
    FirstPiece(current, rest, bound);
    assert ms[..|current|] == current && ms[|current|..] == rest;
  }

  lemma FirstPiece(current: seq<Message>, rest: seq<Message>, bound: int)
    requires Fits(current, bound)
    requires rest != [] ==> Cost(current + [rest[0]]) > bound
    ensures FirstLen(current + rest, 1, bound) == |current|
  {
    var ms := current + rest;
    var n := FirstLen(ms, 1, bound);
    assert ms[..|current|] == current;
    FirstLenLongest(ms, 1, |current|, bound);
    FirstLenFits(ms, 1, bound);
    if n > |current| {
      assert ms[..n] == (current + [rest[0]]) + ms[|current| + 1..n];
      CostSplit(current + [rest[0]], ms[|current| + 1..n]);
    }
  }

  // ---------- summarising ----------

  const PARTS_APART := "\n\n---\n\n"

  /** The summary of each piece under its number. */
  function Parts(chunks: seq<seq<Message>>, summarize: seq<Message> -> string): (r: seq<string>)
    ensures |r| == |chunks|
  {
    seq(|chunks|, i requires 0 <= i < |chunks| => Part(i, chunks, summarize))
  }

  function Part(i: nat, chunks: seq<seq<Message>>, summarize: seq<Message> -> string): (r: string)
    requires i < |chunks|
    ensures r != ""
  {
    "[Part " + ToDecimal(i + 1) + "/" + ToDecimal(|chunks|) + "]\n" + summarize(chunks[i])
  }

  /** Each piece summarised on its own, and the summaries joined. */
  method SummarizeChunks(chunks: seq<seq<Message>>, summarize: seq<Message> -> string) returns (merged: string)
    ensures merged == Join(Parts(chunks, summarize), PARTS_APART)
  {
    merged := "";
    ghost var parts := Parts(chunks, summarize);
    for i := 0 to |chunks|
      invariant merged == Join(parts[..i], PARTS_APART) && (merged == "" <==> i == 0)
    {
      assert parts[..i + 1] == parts[..i] + [parts[i]];
      if i > 0 { JoinSnoc(parts[..i], parts[i], PARTS_APART); }
      if merged != "" {
        merged := merged + PARTS_APART;
      }
      merged := merged + Part(i, chunks, summarize);
    }
    assert parts[..|chunks|] == parts;
  }

  /** How the compacted text is headed: the size of what was compacted, and the number of stages if there were several. */
  function CompactHead(ms: seq<Message>, stages: Option<nat>): string {
    "[Compacted context (" + ToDecimal(|ms|) + " messages, ~" + ToDecimal(Cost(ms)) + " tokens"
    + (if stages.Some? then ", " + ToDecimal(stages.value) + " stages" else "") + ")]\n\n"
  }

  /** Few or cheap messages are summarised in a single pass. */
  predicate SinglePass(ms: seq<Message>, maxChunkTokens: int, minMessages: int) {
    |ms| < minMessages || Cost(ms) <= maxChunkTokens
  }

  /** The merged summaries are themselves too long for the target. */
  predicate NeedsFinalPass(merged: string, targetTokens: int, safetyMargin: real) {
    targetTokens > 0 && |merged| / 4 > Truncate(targetTokens as real * safetyMargin)
  }

  /** The text that compaction leaves. */
  function CompactText(ms: seq<Message>, targetTokens: int, maxChunkTokens: int, minMessages: int,
                       safetyMargin: real, summarize: seq<Message> -> string): string
  {
    if SinglePass(ms, maxChunkTokens, minMessages) then CompactHead(ms, None) + summarize(ms)
    else
      var chunks := Pieces(ms, maxChunkTokens);
      var merged := Join(Parts(chunks, summarize), PARTS_APART);
      CompactHead(ms, Some(|chunks|)) +
      if NeedsFinalPass(merged, targetTokens, safetyMargin) then summarize([TextMessage("system", merged)]) else merged
  }

  /** Compaction always leaves exactly one plain system message. */
  method CompactMultiStage(ms: seq<Message>, targetTokens: int, maxChunkTokens: int, minMessages: int,
                           safetyMargin: real, summarize: seq<Message> -> string)
    returns (result: seq<Message>)
    ensures result == [TextMessage("system", CompactText(ms, targetTokens, maxChunkTokens, minMessages, safetyMargin, summarize))]
    ensures result[0].role == "system" && IsPlain(result[0])
  {
    if SinglePass(ms, maxChunkTokens, minMessages) {
      var text := CompactHead(ms, None) + summarize(ms);
      TextMessageIsPlain("system", text);
      return [TextMessage("system", text)];
    }
    var chunks := ChunkByMaxTokens(ms, maxChunkTokens);
    var merged := SummarizeChunks(chunks, summarize);
    var final := merged;
    if NeedsFinalPass(merged, targetTokens, safetyMargin) {
      final := summarize([TextMessage("system", merged)]);
    }
    var text := CompactHead(ms, Some(|chunks|)) + final;
    TextMessageIsPlain("system", text);
    result := [TextMessage("system", text)];
  }

  /** The single pass sees all messages; otherwise each piece is summarised once, in order, and the pieces are the messages. */
  lemma CompactTextCases(ms: seq<Message>, targetTokens: int, maxChunkTokens: int, minMessages: int,
                         safetyMargin: real, summarize: seq<Message> -> string)
    requires maxChunkTokens > 0
    ensures var text := CompactText(ms, targetTokens, maxChunkTokens, minMessages, safetyMargin, summarize);
            if |ms| < minMessages || Cost(ms) <= maxChunkTokens then CompactHead(ms, None) <= text && text[|CompactHead(ms, None)|..] == summarize(ms)
            else exists chunks :: IsPartition(chunks, ms, maxChunkTokens) &&
                   var head, merged := CompactHead(ms, Some(|chunks|)), Join(Parts(chunks, summarize), PARTS_APART);
                   head <= text && (text[|head|..] == merged || text[|head|..] == summarize([TextMessage("system", merged)]))
  {
    if !SinglePass(ms, maxChunkTokens, minMessages) {
      GreedyPartitions(ms, maxChunkTokens);
      assert IsPartition(Pieces(ms, maxChunkTokens), ms, maxChunkTokens);
    }
  }

  /** The greedy pieces are a partition. */
  lemma NeedsIff(merged: string, targetTokens: int, safetyMargin: real)
    requires safetyMargin >= 0.0
    ensures NeedsFinalPass(merged, targetTokens, safetyMargin) <==>
              targetTokens > 0 && (|merged| / 4) as real > targetTokens as real * safetyMargin
  {
    if targetTokens > 0 {
      assert targetTokens as real * safetyMargin >= 0.0;
    }
  }

  /** The final pass is run when there is a target and the merged summaries, at four characters a token, exceed it by more than the margin. */
  lemma FinalPassIff(ms: seq<Message>, targetTokens: int, maxChunkTokens: int, minMessages: int,
                     safetyMargin: real, summarize: seq<Message> -> string)
    requires |ms| >= minMessages && Cost(ms) > maxChunkTokens && safetyMargin >= 0.0
    ensures var chunks := Pieces(ms, maxChunkTokens);
            var merged := Join(Parts(chunks, summarize), PARTS_APART);
            CompactText(ms, targetTokens, maxChunkTokens, minMessages, safetyMargin, summarize) == CompactHead(ms, Some(|chunks|)) +
              if targetTokens > 0 && (|merged| / 4) as real > targetTokens as real * safetyMargin then summarize([TextMessage("system", merged)]) else merged
  {
    NeedsIff(Join(Parts(Pieces(ms, maxChunkTokens), summarize), PARTS_APART), targetTokens, safetyMargin);
  }

  lemma {:induction false} GreedyPartitions(ms: seq<Message>, bound: int)
    requires bound > 0
    ensures IsPartition(Greedy(ms, bound), ms, bound)
    decreases |ms|
  {
    if ms != [] {
      var n := FirstLen(ms, 1, bound);
      FirstLenFits(ms, 1, bound);
      GreedyPartitions(ms[n..], bound);
      assert ms == ms[..n] + ms[n..];
      assert Greedy(ms, bound)[1..] == Greedy(ms[n..], bound);
    }
  }

  predicate Reads(digits: string, n: nat) { digits != "" && AllDigits(digits) && DigitsValue(digits) == n }

  /** The numbers printed read back: the place of the part and the number of parts. */
  lemma PartReads(i: nat, chunks: seq<seq<Message>>, summarize: seq<Message> -> string) returns (place: string, count: string)
    requires i < |chunks|
    ensures Reads(place, i + 1) && Reads(count, |chunks|)
    ensures Part(i, chunks, summarize) == "[Part " + place + "/" + count + "]\n" + summarize(chunks[i])
  {
    DecimalRoundTrip(i + 1);
    DecimalRoundTrip(|chunks|);
    place, count := ToDecimal(i + 1), ToDecimal(|chunks|);
  }

  /** And so do those of the head: messages, tokens and stages. */
  lemma HeadReads(ms: seq<Message>, stages: Option<nat>) returns (count: string, tokens: string, more: string)
    ensures Reads(count, |ms|) && Reads(tokens, Cost(ms))
    ensures stages.None? ==> more == ""
    ensures stages.Some? ==> exists n :: Reads(n, stages.value) && more == ", " + n + " stages"
    ensures CompactHead(ms, stages) == "[Compacted context (" + count + " messages, ~" + tokens + " tokens" + more + ")]\n\n"
  {
    DecimalRoundTrip(|ms|);
    DecimalRoundTrip(Cost(ms));
    count, tokens, more := ToDecimal(|ms|), ToDecimal(Cost(ms)), "";
    if stages.Some? {
      DecimalRoundTrip(stages.value);
      var n := ToDecimal(stages.value);
      more := ", " + n + " stages";
      assert Reads(n, stages.value);
    }
  }
}
