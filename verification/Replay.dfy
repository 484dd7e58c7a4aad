/**
  Replaying a transcript: sanitizing and then serializing a replayable list
  equals rendering it turn by turn, and what is rendered is well formed.
 */
module Replay {
  import opened Basics
  import opened Text
  import opened Transcript
  import opened Normalize
  import opened Serializer

  /** The list a provider is sent for a request. */
  function Request(ms: seq<Message>, nz: Normalizer, thinking: bool): seq<Wire> {
    Serialize(SanitizeAll(ms, nz), {}, thinking)
  }

  /** One tool message for each result whose call is among the ids kept. */
  function RenderResults(content: seq<Block>, kept: set<string>): seq<Wire> {
    if content == [] then []
    else
      (if content[0].ToolResult? && content[0].toolUseId in kept
       then [WTool(content[0].toolUseId, content[0].content)] else [])
      + RenderResults(content[1..], kept)
  }

  /** A call and its answers: the surviving calls, then exactly their results. */
  function RenderTurn(call: Message, results: Message, nz: Normalizer, thinking: bool): seq<Wire> {
    var sent := call.(content := KeepAndRepair(call.content, nz));
    if HasUse(sent.content)
    then [CallsWire(sent, thinking)] + RenderResults(results.content, IdSet(UseIds(sent.content)))
    else [PlainWire(sent)]
  }

  /** Turn by turn, with nothing carried from one turn to the next; orphaned results vanish. */
  function Render(ms: seq<Message>, nz: Normalizer, thinking: bool): seq<Wire>
    requires Replayable(ms)
  {
    if ms == [] then []
    else if IsCall(ms[0]) then RenderTurn(ms[0], ms[1], nz, thinking) + Render(ms[2..], nz, thinking)
    else (if IsPlain(ms[0]) then [PlainWire(ms[0])] else []) + Render(ms[1..], nz, thinking)
  }

  // ---------- sanitizing, class by class ----------

  lemma {:induction false} NoUseUntouched(content: seq<Block>, seen: set<string>, nz: Normalizer)
    requires !HasUse(content)
    ensures SanitizeBlocks(content, seen, nz) == content
  {
    if content != [] {
      assert content[0] in content;
      NoUseUntouched(content[1..], seen, nz);
    }
  }

  lemma {:induction false} RepairAddsNoResult(content: seq<Block>, nz: Normalizer)
    requires !HasResult(content)
    ensures !HasResult(KeepAndRepair(content, nz))
  {
    if content != [] {
      assert content[0] in content;
      RepairAddsNoResult(content[1..], nz);
    }
  }

  lemma {:induction false} KeptIdsAreIds(content: seq<Block>, nz: Normalizer)
    ensures forall id :: id in UseIds(KeepAndRepair(content, nz)) ==> id in UseIds(content)
  {
    if content != [] {
      KeptIdsAreIds(content[1..], nz);
      KeepCons(content, nz);
    }
  }

  lemma KeepCons(content: seq<Block>, nz: Normalizer)
    requires content != []
    ensures UseIds(KeepAndRepair(content, nz)) ==
            (if content[0].ToolUse? && Survives(content[0], nz) then [content[0].id] else [])
            + UseIds(KeepAndRepair(content[1..], nz))
  {
    var b, rest := content[0], KeepAndRepair(content[1..], nz);
    UseIdsCons(if !b.ToolUse? then [b] else if Survives(b, nz) then [Repair(b, nz)] else [], rest);
  }

  function FilterIn(ids: seq<string>, kept: set<string>): seq<string> {
    if ids == [] then []
    else (if ids[0] in kept then [ids[0]] else []) + FilterIn(ids[1..], kept)
  }

  lemma {:induction false} FilterAgrees(ids: seq<string>, a: set<string>, b: set<string>)
    requires forall id :: id in ids ==> (id in a <==> id in b)
    ensures FilterIn(ids, a) == FilterIn(ids, b)
  {
    if ids != [] {
      assert ids[0] in ids;
      FilterAgrees(ids[1..], a, b);
    }
  }

  /** Filtering all ids by the kept ones gives the kept ones, in order. */
  lemma {:induction false} KeptIdsInOrder(content: seq<Block>, nz: Normalizer)
    requires Distinct(UseIds(content))
    ensures FilterIn(UseIds(content), IdSet(UseIds(KeepAndRepair(content, nz)))) == UseIds(KeepAndRepair(content, nz))
  {
    if content != [] {
      var b := content[0];
      var ids, rest := UseIds(content), UseIds(content[1..]);
      var kept, keptRest := UseIds(KeepAndRepair(content, nz)), UseIds(KeepAndRepair(content[1..], nz));
      KeepCons(content, nz);
      KeptIdsAreIds(content[1..], nz);
      if b.ToolUse? {
        assert ids[0] == b.id && ids[1..] == rest;
        assert b.id !in rest;
      } else {
        assert ids == rest;
      }
      KeptIdsInOrder(content[1..], nz);
      FilterAgrees(rest, IdSet(kept), IdSet(keptRest));
      if b.ToolUse? {
        assert b.id in IdSet(kept) <==> Survives(b, nz);
        assert FilterIn(ids, IdSet(kept)) ==
               (if Survives(b, nz) then [b.id] else []) + FilterIn(rest, IdSet(kept));
      }
    }
  }

  // ---------- results ----------

  /** Answering each waiting id once gives the same as a plain filter, when ids do not repeat. */
  lemma {:induction false} OnceIsFilter(content: seq<Block>, pending: set<string>, kept: set<string>)
    requires Distinct(ResultIds(content))
    requires forall id :: id in ResultIds(content) ==> (id in pending <==> id in kept)
    ensures ToolWires(content, pending) == RenderResults(content, kept)
  {
    if content != [] {
      var ids, rest := ResultIds(content), ResultIds(content[1..]);
      if content[0].ToolResult? {
        assert ids[0] == content[0].toolUseId && ids[1..] == rest;
        OnceIsFilter(content[1..], if ids[0] in pending then pending - {ids[0]} else pending, kept);
      } else {
        assert ids == rest;
        OnceIsFilter(content[1..], pending, kept);
      }
    }
  }

  lemma {:induction false} ResultsUnmatched(content: seq<Block>)
    ensures ToolWires(content, {}) == []
  {
    if content != [] { ResultsUnmatched(content[1..]); }
  }

  // ---------- the serializer against the rendering ----------

  lemma CleanIdsAreNotEmpty(ids: seq<string>)
    requires Hygienic(ids)
    ensures IdSet(ids) - {""} == IdSet(ids)
  {
    assert forall i :: 0 <= i < |ids| ==> IsClean(ids[i]) && ids[i] != "";
  }

  /** Sanitizing the call of a turn keeps its ids, and adds no results. */
  lemma SanitizedCall(call: Message, nz: Normalizer)
    requires IsCall(call)
    ensures var sent := call.(content := KeepAndRepair(call.content, nz));
            && Sanitize(call, nz) == sent && !HasResult(sent.content)
            && Hygienic(UseIds(sent.content))
            && (HasUse(sent.content) <==> UseIds(sent.content) != [])
            && forall id :: id in UseIds(sent.content) ==> id in UseIds(call.content)
  {
    HygienicIdsKept(call.content, {}, nz);
    RepairAddsNoResult(call.content, nz);
    SanitizedIds(call.content, {}, nz);
    KeptIdsAreIds(call.content, nz);
    UseIdsOfBlocks(KeepAndRepair(call.content, nz));
  }

  /** Serializing a call and its results leaves no id waiting. */
  lemma SerializePair(sent: Message, results: Message, rest: seq<Message>, thinking: bool)
    requires !HasResult(sent.content) && Hygienic(UseIds(sent.content))
    requires IsResults(results) && Distinct(ResultIds(results.content))
    requires forall id :: id in UseIds(sent.content) ==> id in ResultIds(results.content)
    ensures Serialize([sent, results] + rest, {}, thinking) ==
            (if HasUse(sent.content)
             then [CallsWire(sent, thinking)] + RenderResults(results.content, IdSet(UseIds(sent.content)))
             else [PlainWire(sent)])
            + Serialize(rest, {}, thinking)
  {
    var list := [sent, results] + rest;
    assert list[0] == sent && list[1..] == [results] + rest && list[1..][1..] == rest;
    assert results.content[0] in results.content && HasResult(results.content);
    var pending, answered := IdSet(UseIds(sent.content)), IdSet(ResultIds(results.content));
    CleanIdsAreNotEmpty(UseIds(sent.content));
    if HasUse(sent.content) {
      assert pending - answered == {};
      OnceIsFilter(results.content, pending, pending);
      AppendAssoc([CallsWire(sent, thinking)], ToolWires(results.content, pending), Serialize(rest, {}, thinking));
    } else {
      ResultsUnmatched(results.content);
      assert {} - answered == {};
      assert Serialize(list[1..], {}, thinking) == [] + Serialize(rest, {}, thinking);
    }
  }

  lemma SerializeTurn(call: Message, results: Message, rest: seq<Message>, nz: Normalizer, thinking: bool)
    requires IsCall(call) && Answers(results, call)
    ensures Serialize([Sanitize(call, nz), Sanitize(results, nz)] + rest, {}, thinking) ==
            RenderTurn(call, results, nz, thinking) + Serialize(rest, {}, thinking)
  {
    SanitizedCall(call, nz);
    SerializePair(Sanitize(call, nz), results, rest, thinking);
  }

  /** What is sent for a replayable list is its turn-by-turn rendering. */
  lemma {:induction false} RequestIsRendering(ms: seq<Message>, nz: Normalizer, thinking: bool)
    requires Replayable(ms)
    ensures Request(ms, nz, thinking) == Render(ms, nz, thinking)
  {
    var all := SanitizeAll(ms, nz);
    if ms == [] {
    } else if IsCall(ms[0]) {
      var rest := SanitizeAll(ms[2..], nz);
      assert all == [Sanitize(ms[0], nz), Sanitize(ms[1], nz)] + rest;
      SerializeTurn(ms[0], ms[1], rest, nz, thinking);
      RequestIsRendering(ms[2..], nz, thinking);
    } else {
      var rest := SanitizeAll(ms[1..], nz);
      assert all[1..] == rest;
      RequestIsRendering(ms[1..], nz, thinking);
      if IsPlain(ms[0]) {
        NoUseUntouched(ms[0].content, {}, nz);
        assert all[0] == ms[0];
      } else {
        assert all[0] == ms[0] && ms[0].content[0] in ms[0].content;
        ResultsUnmatched(ms[0].content);
        assert {} - IdSet(ResultIds(ms[0].content)) == {};
      }
    }
  }

  // ---------- the rendering is well formed ----------

  lemma ConcatWellFormed(a: seq<Wire>, b: seq<Wire>)
    requires WellFormed(a) && WellFormed(b)
    ensures WellFormed(a + b)
  {
    ConcatNoStray(a, b);
    ConcatAnswered(a, b);
  }

  lemma ConcatNoStray(a: seq<Wire>, b: seq<Wire>)
    requires NoStrayReply(a) && NoStrayReply(b)
    ensures NoStrayReply(a + b)
  {
    var w := a + b;
    forall i | 0 <= i < |w| && w[i].WTool?
      ensures exists j :: Replies(w, j, i)
    {
      if i < |a| {
        var j :| Replies(a, j, i);
        assert Replies(w, j, i);
      } else {
        var j :| Replies(b, j, i - |a|);
        ShiftReplies(a, b, j, i - |a|);
      }
    }
  }

  lemma ConcatAnswered(a: seq<Wire>, b: seq<Wire>)
    requires AllAnswered(a) && AllAnswered(b)
    ensures AllAnswered(a + b)
  {
    var w := a + b;
    forall j, id | 0 <= j < |w| && w[j].WCalls? && id in IdsOf(w[j].calls)
      ensures exists i :: Follows(w, j, i) && w[i].callId == id
    {
      if j < |a| {
        assert w[j] == a[j];
        var i :| Follows(a, j, i) && a[i].callId == id;
        assert Follows(w, j, i) && w[i] == a[i];
      } else {
        assert w[j] == b[j - |a|];
        var i :| Follows(b, j - |a|, i) && b[i].callId == id;
        ShiftFollows(a, b, j - |a|, i);
      }
    }
  }

  lemma ShiftFollows(a: seq<Wire>, b: seq<Wire>, j: int, i: int)
    requires Follows(b, j, i)
    ensures Follows(a + b, j + |a|, i + |a|) && (a + b)[i + |a|] == b[i]
  {
    forall k | j + |a| < k <= i + |a| ensures (a + b)[k].WTool? {
      assert (a + b)[k] == b[k - |a|];
    }
  }

  lemma ShiftReplies(a: seq<Wire>, b: seq<Wire>, j: int, i: int)
    requires Replies(b, j, i)
    ensures Replies(a + b, j + |a|, i + |a|)
  {
    ShiftFollows(a, b, j, i);
    forall k | j + |a| < k < i + |a| ensures (a + b)[k].callId != (a + b)[i + |a|].callId {
      assert (a + b)[k] == b[k - |a|];
    }
  }

  lemma {:induction false} RenderedIds(content: seq<Block>, kept: set<string>)
    ensures var w := RenderResults(content, kept);
            var ids := FilterIn(ResultIds(content), kept);
            |w| == |ids| && forall i :: 0 <= i < |w| ==> w[i].WTool? && w[i].callId == ids[i]
  {
    if content != [] {
      RenderedIds(content[1..], kept);
      var rest := ResultIds(content[1..]);
      if content[0].ToolResult? {
        assert ResultIds(content) == [content[0].toolUseId] + rest && ResultIds(content)[1..] == rest;
      } else {
        assert ResultIds(content) == rest;
      }
    }
  }

  /** A call message followed by one tool message for each of its ids. */
  lemma CallThenResults(c: Wire, tools: seq<Wire>)
    requires c.WCalls? && Distinct(IdsOf(c.calls)) && |tools| == |IdsOf(c.calls)|
    requires forall i :: 0 <= i < |tools| ==> tools[i].WTool? && tools[i].callId == IdsOf(c.calls)[i]
    ensures WellFormed([c] + tools)
  {
    var w, ids := [c] + tools, IdsOf(c.calls);
    assert forall i :: 0 < i < |w| ==> w[i] == tools[i - 1];
    forall i | 0 <= i < |w| && w[i].WTool? ensures exists j :: Replies(w, j, i) {
      assert Replies(w, 0, i);
    }
    forall j, id | 0 <= j < |w| && w[j].WCalls? && id in IdsOf(w[j].calls)
      ensures exists i :: Follows(w, j, i) && w[i].callId == id
    {
      var n :| 0 <= n < |ids| && ids[n] == id;
      assert Follows(w, 0, n + 1) && w[n + 1].callId == id;
    }
  }

  lemma TurnWellFormed(call: Message, results: Message, nz: Normalizer, thinking: bool)
    requires IsCall(call) && Answers(results, call)
    ensures WellFormed(RenderTurn(call, results, nz, thinking))
  {
    var sent := call.(content := KeepAndRepair(call.content, nz));
    SanitizedCall(call, nz);
    if HasUse(sent.content) {
      var ids := UseIds(sent.content);
      var c, tools := CallsWire(sent, thinking), RenderResults(results.content, IdSet(ids));
      assert IdsOf(c.calls) == ids;
      assert |tools| == |ids| && forall i :: 0 <= i < |tools| ==> tools[i].WTool? && tools[i].callId == ids[i] by {
        KeptIdsInOrder(call.content, nz);
        RenderedIds(results.content, IdSet(ids));
      }
      CallThenResults(c, tools);
    } else {
      PlainWellFormed(sent);
    }
  }

  lemma PlainWellFormed(m: Message)
    ensures WellFormed([PlainWire(m)])
  {
  }

  lemma {:induction false} RenderingWellFormed(ms: seq<Message>, nz: Normalizer, thinking: bool)
    requires Replayable(ms)
    ensures WellFormed(Render(ms, nz, thinking))
  {
    if ms == [] {
    } else if IsCall(ms[0]) {
      RenderingWellFormed(ms[2..], nz, thinking);
      TurnWellFormed(ms[0], ms[1], nz, thinking);
      ConcatWellFormed(RenderTurn(ms[0], ms[1], nz, thinking), Render(ms[2..], nz, thinking));
    } else {
      RenderingWellFormed(ms[1..], nz, thinking);
      var head: seq<Wire> := if IsPlain(ms[0]) then [PlainWire(ms[0])] else [];
      assert WellFormed(head);
      ConcatWellFormed(head, Render(ms[1..], nz, thinking));
    }
  }

  /** Every replayable list is sent as a well-formed one. */
  lemma RequestWellFormed(ms: seq<Message>, nz: Normalizer, thinking: bool)
    requires Replayable(ms)
    ensures WellFormed(Request(ms, nz, thinking))
  {
    RequestIsRendering(ms, nz, thinking);
    RenderingWellFormed(ms, nz, thinking);
  }

  // ---------- exactly when a turn is answered ----------

  ghost predicate Sent(tools: seq<Wire>, id: string) {
    exists i :: 0 <= i < |tools| && tools[i].WTool? && tools[i].callId == id
  }

  lemma SentCons(w: Wire, tools: seq<Wire>, id: string)
    ensures Sent([w] + tools, id) <==> (w.WTool? && w.callId == id) || Sent(tools, id)
  {
    var all := [w] + tools;
    if w.WTool? && w.callId == id { assert all[0] == w; }
    if Sent(tools, id) {
      var i :| 0 <= i < |tools| && tools[i].WTool? && tools[i].callId == id;
      assert all[i + 1] == tools[i];
    }
    if Sent(all, id) && !(w.WTool? && w.callId == id) {
      var i :| 0 <= i < |all| && all[i].WTool? && all[i].callId == id;
      assert tools[i - 1] == all[i];
    }
  }

  /** The ids answered by some results are those that wait and have a result. */
  lemma {:induction false} WireIds(content: seq<Block>, pending: set<string>, id: string)
    ensures Sent(ToolWires(content, pending), id) <==> id in pending && id in ResultIds(content)
    ensures forall i :: 0 <= i < |ToolWires(content, pending)| ==> ToolWires(content, pending)[i].WTool?
  {
    if content != [] {
      var b := content[0];
      if b.ToolResult? && b.toolUseId in pending {
        WireIds(content[1..], pending - {b.toolUseId}, id);
        SentCons(WTool(b.toolUseId, b.content), ToolWires(content[1..], pending - {b.toolUseId}), id);
      } else {
        WireIds(content[1..], pending, id);
      }
    }
  }

  lemma {:induction false} SetOfDistinct(ids: seq<string>)
    ensures |IdSet(ids)| <= |ids|
    ensures Distinct(ids) <==> |IdSet(ids)| == |ids|
  {
    if ids != [] {
      var init, last := ids[..|ids| - 1], ids[|ids| - 1];
      SetOfDistinct(init);
      assert IdSet(ids) == IdSet(init) + {last};
      if last in init {
        assert IdSet(ids) == IdSet(init);
        var k :| 0 <= k < |init| && init[k] == last;
        assert ids[k] == ids[|ids| - 1];
      } else {
        assert Distinct(ids) <==> Distinct(init);
      }
    }
  }

  /** A call message and the tool messages behind it: every call is answered exactly when its id is among them. */
  lemma AnsweredBehind(c: Wire, tools: seq<Wire>)
    requires c.WCalls? && forall i :: 0 <= i < |tools| ==> tools[i].WTool?
    ensures AllAnswered([c] + tools) <==> forall id :: id in IdsOf(c.calls) ==> Sent(tools, id)
  {
    var w := [c] + tools;
    assert w[0] == c && forall i :: 0 < i < |w| ==> w[i] == tools[i - 1];
    if AllAnswered(w) {
      forall id | id in IdsOf(c.calls) ensures Sent(tools, id) {
        var i :| Follows(w, 0, i) && w[i].callId == id;
        assert tools[i - 1] == w[i];
      }
    }
    if forall id :: id in IdsOf(c.calls) ==> Sent(tools, id) {
      forall j, id | 0 <= j < |w| && w[j].WCalls? && id in IdsOf(w[j].calls) ensures exists i :: Follows(w, j, i) && w[i].callId == id {
        var i :| 0 <= i < |tools| && tools[i].WTool? && tools[i].callId == id;
        assert Follows(w, 0, i + 1) && w[i + 1].callId == id;
      }
    }
  }

  lemma PairWires(sent: Message, results: Message, thinking: bool)
    requires !HasResult(sent.content) && IsResults(results)
    ensures Serialize([sent, results], {}, thinking) ==
            if HasUse(sent.content) then [CallsWire(sent, thinking)] + ToolWires(results.content, IdSet(UseIds(sent.content)) - {""})
            else [PlainWire(sent)]
  {
    var list := [sent, results];
    assert list[1..] == [results] && list[1..][1..] == [];
    assert results.content[0] in results.content && HasResult(results.content);
    var pending := IdSet(UseIds(sent.content)) - {""};
    assert Serialize(list[1..], pending, thinking) == ToolWires(results.content, pending) + [];
    ResultsUnmatched(results.content);
    assert Serialize(list[1..], {}, thinking) == ToolWires(results.content, {}) + [];
  }

  /** The ids that the calls of a turn are sent with. */
  function SentIds(call: Message, nz: Normalizer): seq<string> { UseIds(SanitizeBlocks(call.content, {}, nz)) }

  /**
    Take one tool turn with any ids and any names at all, answered id by id.
    Every call that is sent gets an answer exactly when the ids the surviving
    calls are sent with are ids that were given: sanitizing renames blank,
    untrimmed and repeated ids, and the results keep the old ones.
   */
  lemma AnsweredIff(call: Message, results: Message, nz: Normalizer, thinking: bool)
    requires call.role == "assistant" && HasUse(call.content) && !HasResult(call.content) && Answers(results, call)
    ensures AllAnswered(Request([call, results], nz, thinking)) <==>
              forall id :: id in SentIds(call, nz) ==> id in UseIds(call.content)
  {
    var sent := Sanitize(call, nz);
    SanitizedIds(call.content, {}, nz);
    SanitizingAddsNoResult(call.content, {}, nz);
    assert SanitizeAll([call, results], nz) == [sent, results];
    AnsweredPair(sent, results, thinking);
    assert Request([call, results], nz, thinking) == Serialize([sent, results], {}, thinking);
    assert UseIds(sent.content) == SentIds(call, nz) && ResultIds(results.content) == UseIds(call.content);
  }

  lemma AnsweredPair(sent: Message, results: Message, thinking: bool)
    requires !HasResult(sent.content) && Hygienic(UseIds(sent.content)) && IsResults(results)
    ensures AllAnswered(Serialize([sent, results], {}, thinking)) <==>
              forall id :: id in UseIds(sent.content) ==> id in ResultIds(results.content)
  {
    PairWires(sent, results, thinking);
    UseIdsOfBlocks(sent.content);
    if HasUse(sent.content) {
      CleanIdsAreNotEmpty(UseIds(sent.content));
      AnsweredCalls(CallsWire(sent, thinking), results.content, IdSet(UseIds(sent.content)));
    }
  }

  lemma AnsweredCalls(c: Wire, content: seq<Block>, pending: set<string>)
    requires c.WCalls? && forall id :: id in IdsOf(c.calls) <==> id in pending
    ensures AllAnswered([c] + ToolWires(content, pending)) <==> forall id :: id in pending ==> id in ResultIds(content)
  {
    var tools := ToolWires(content, pending);
    forall id ensures Sent(tools, id) <==> id in pending && id in ResultIds(content) {
      WireIds(content, pending, id);
    }
    WireIds(content, pending, "");
    AnsweredBehind(c, tools);
  }

  /** When no call is dropped, that is exactly when the ids given are clean and distinct. */
  lemma AnsweredIffHygienic(call: Message, results: Message, nz: Normalizer, thinking: bool)
    requires call.role == "assistant" && HasUse(call.content) && !HasResult(call.content) && Answers(results, call)
    requires forall b :: b in call.content ==> Survives(b, nz)
    ensures AllAnswered(Request([call, results], nz, thinking)) <==> Hygienic(UseIds(call.content))
  {
    AnsweredIff(call, results, nz, thinking);
    SanitizedIds(call.content, {}, nz);
    SanitizedCount(call.content, {}, nz);
    if Hygienic(UseIds(call.content)) {
      HygienicIdsKept(call.content, {}, nz);
      KeptIdsAreIds(call.content, nz);
    }
    if forall id :: id in SentIds(call, nz) ==> id in UseIds(call.content) {
      AllSentWereGiven(SentIds(call, nz), UseIds(call.content));
    }
  }

  lemma {:induction false} SanitizingAddsNoResult(content: seq<Block>, seen: set<string>, nz: Normalizer)
    requires !HasResult(content)
    ensures !HasResult(SanitizeBlocks(content, seen, nz))
  {
    if content != [] {
      assert content[0] in content;
      if content[0].ToolUse? {
        SanitizingAddsNoResult(content[1..], seen + {Uniquify(Trim(content[0].id), seen)}, nz);
      } else {
        SanitizingAddsNoResult(content[1..], seen, nz);
      }
    }
  }

  /** As many distinct clean ids as were given, all among them: the given ones were hygienic. */
  lemma AllSentWereGiven(sent: seq<string>, given: seq<string>)
    requires Hygienic(sent) && |sent| == |given| && forall id :: id in sent ==> id in given
    ensures Hygienic(given)
  {
    SetOfDistinct(sent);
    SetOfDistinct(given);
    SubsetOfEqualSize(IdSet(sent), IdSet(given));
    forall i | 0 <= i < |given| ensures IsClean(given[i]) {
      assert given[i] in IdSet(given);
      var k :| 0 <= k < |sent| && sent[k] == given[i];
    }
  }

  lemma SubsetOfEqualSize<T>(a: set<T>, b: set<T>)
    requires a <= b && |b| <= |a|
    ensures a == b
  {
    assert |a| + |b - a| == |b| by { assert b == a + (b - a); }
  }
}
