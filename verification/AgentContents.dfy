/**
  What the agent hears of a streamed reply: the text since the last round of
  calls, in order, and what the closing chunk supplies.
 */
module AgentContents {
  import opened Basics
  import opened Text
  import opened Normalize
  import opened AgentLoop

  function Contents(chunks: seq<Chunk>): (r: seq<string>)
    ensures |r| == |chunks| && forall i :: 0 <= i < |r| ==> r[i] == chunks[i].content
  {
    seq(|chunks|, i requires 0 <= i < |chunks| => chunks[i].content)
  }

  function Reasonings(chunks: seq<Chunk>): (r: seq<string>)
    ensures |r| == |chunks| && forall i :: 0 <= i < |r| ==> r[i] == chunks[i].reasoning
  {
    seq(|chunks|, i requires 0 <= i < |chunks| => chunks[i].reasoning)
  }

  /** The last round, if any, is the chunk before k. */
  predicate SinceRound(chunks: seq<Chunk>, k: nat) {
    k <= |chunks| && (k > 0 ==> IsRound(chunks[k - 1])) && forall i :: k <= i < |chunks| ==> !IsRound(chunks[i])
  }

  lemma JoinNext(texts: seq<string>, text: string)
    ensures Join(texts + [text], "") == Join(texts, "") + text
  {
    if texts != [] { JoinSnoc(texts, text, ""); }
  }

  /** Before the closing chunk: the texts since the last round, joined. */
  lemma {:induction false} HeardSinceRound(chunks: seq<Chunk>, k: nat)
    requires SinceRound(chunks, k) && forall i :: 0 <= i < |chunks| ==> !chunks[i].isEnd
    ensures Heard(chunks).response == Join(Contents(chunks[k..]), "") && Heard(chunks).reasoning == Join(Reasonings(chunks[k..]), "")
  {
    if chunks != [] {
      var init, last := chunks[..|chunks| - 1], chunks[|chunks| - 1];
      if k == |chunks| {
        assert chunks[k..] == [];
      } else {
        HeardSinceRound(init, k);
        ContentsSnoc(chunks, k);
        JoinNext(Contents(init[k..]), last.content);
        JoinNext(Reasonings(init[k..]), last.reasoning);
      }
    }
  }

  lemma ContentsSnoc(chunks: seq<Chunk>, k: nat)
    requires k < |chunks|
    ensures var init, last := chunks[..|chunks| - 1], chunks[|chunks| - 1];
            Contents(chunks[k..]) == Contents(init[k..]) + [last.content] && Reasonings(chunks[k..]) == Reasonings(init[k..]) + [last.reasoning]
  {
  }

  predicate Any(chunks: seq<Chunk>, p: Chunk -> bool) { exists i :: 0 <= i < |chunks| && p(chunks[i]) }

  lemma AnySnoc(chunks: seq<Chunk>, last: Chunk, p: Chunk -> bool)
    ensures Any(chunks + [last], p) <==> Any(chunks, p) || p(last)
  {
    var all := chunks + [last];
    assert all[|chunks|] == last && forall i :: 0 <= i < |chunks| ==> all[i] == chunks[i];
    if Any(chunks, p) {
      var i :| 0 <= i < |chunks| && p(chunks[i]);
      assert p(all[i]);
    }
  }

  predicate HasNameless(chunk: Chunk) { !chunk.isEnd && HasInvalid(chunk.calls) }

  predicate IsEnd(chunk: Chunk) { chunk.isEnd }

  /** And whether there was a round of calls, a call without a name, or the end of the stream. */
  lemma {:induction false} HeardFlags(chunks: seq<Chunk>)
    ensures Heard(chunks).handled <==> Any(chunks, IsRound)
    ensures Heard(chunks).sawInvalid <==> Any(chunks, HasNameless)
    ensures Heard(chunks).sawEnd <==> Any(chunks, IsEnd)
  {
    if chunks != [] {
      var init, last := chunks[..|chunks| - 1], chunks[|chunks| - 1];
      HeardFlags(init);
      assert chunks == init + [last];
      AnySnoc(init, last, IsRound);
      AnySnoc(init, last, HasNameless);
      AnySnoc(init, last, IsEnd);
    }
  }

  lemma {:induction false} LastRound(chunks: seq<Chunk>) returns (k: nat)
    ensures SinceRound(chunks, k)
  {
    if chunks == [] {
      k := 0;
    } else if IsRound(chunks[|chunks| - 1]) {
      k := |chunks|;
    } else {
      k := LastRound(chunks[..|chunks| - 1]);
    }
  }

  /** The closing chunk adds no text of its own, but stands in for text that never came. */
  lemma ClosingChunk(chunks: seq<Chunk>, last: Chunk)
    requires last.isEnd
    ensures var before, after := Heard(chunks), Heard(chunks + [last]);
            && after.sawEnd && after.handled == before.handled && after.sawInvalid == before.sawInvalid
            && (HasNonWhitespace(before.response) || !HasNonWhitespace(last.content) ==> after.response == before.response)
            && (!HasNonWhitespace(before.response) && HasNonWhitespace(last.content) ==> after.response == last.content)
            && (HasNonWhitespace(before.reasoning) || !HasNonWhitespace(last.reasoning) ==> after.reasoning == before.reasoning)
            && (!HasNonWhitespace(before.reasoning) && HasNonWhitespace(last.reasoning) ==> after.reasoning == last.reasoning)
  {
    assert (chunks + [last])[..|chunks|] == chunks;
  }
}
