/**
  The message list sent to an OpenAI-compatible API
  (src/providers/openai_provider.cpp, serialize_messages_to_openai).
 */
module Serializer {
  import opened Basics
  import opened Text
  import opened Transcript
  import opened Normalize

  datatype WireCall = WireCall(id: string, name: string, arguments: string)

  datatype Wire =
    | WPlain(role: string, content: string, reasoning: Option<string>)
    | WCalls(text: Option<string>, thought: Option<string>, calls: seq<WireCall>)
    | WTool(callId: string, output: string)

  function TextOf(content: seq<Block>): string {
    if content == [] then ""
    else (if content[0].TextBlock? then content[0].text else "") + TextOf(content[1..])
  }

  function ReasoningOf(content: seq<Block>): string {
    if content == [] then ""
    else (if content[0].Thinking? then content[0].text else "") + ReasoningOf(content[1..])
  }

  function NonEmpty(s: string): Option<string> { if s == "" then None else Some(s) }

  function PlainWire(m: Message): Wire {
    WPlain(m.role, TextOf(m.content), if m.role == "assistant" then NonEmpty(ReasoningOf(m.content)) else None)
  }

  function CallsOf(content: seq<Block>): (r: seq<WireCall>)
    ensures IdsOf(r) == UseIds(content)
  {
    if content == [] then []
    else if content[0].ToolUse? then
      var b := content[0];
      var rest := CallsOf(content[1..]);
      assert ([WireCall(b.id, b.name, b.input.Dump())] + rest)[1..] == rest;
      [WireCall(b.id, b.name, b.input.Dump())] + rest
    else CallsOf(content[1..])
  }

  function IdsOf(calls: seq<WireCall>): (ids: seq<string>) {
    if calls == [] then [] else [calls[0].id] + IdsOf(calls[1..])
  }

  function CallsWire(m: Message, thinking: bool): Wire {
    var reasoning := ReasoningOf(m.content);
    WCalls(NonEmpty(TextOf(m.content)), if reasoning != "" || thinking then Some(reasoning) else None, CallsOf(m.content))
  }

  /** Result blocks whose call still waits, each answered once. */
  function ToolWires(content: seq<Block>, pending: set<string>): seq<Wire> {
    if content == [] then []
    else if content[0].ToolResult? && content[0].toolUseId in pending then
      [WTool(content[0].toolUseId, content[0].content)] + ToolWires(content[1..], pending - {content[0].toolUseId})
    else ToolWires(content[1..], pending)
  }

  /** The serializer, with the ids still waiting for a result threaded through. */
  function Serialize(ms: seq<Message>, pending: set<string>, thinking: bool): seq<Wire> {
    if ms == [] then []
    else if HasResult(ms[0].content) then
      ToolWires(ms[0].content, pending) + Serialize(ms[1..], pending - IdSet(ResultIds(ms[0].content)), thinking)
    else if HasUse(ms[0].content) then
      [CallsWire(ms[0], thinking)] + Serialize(ms[1..], IdSet(UseIds(ms[0].content)) - {""}, thinking)
    else [PlainWire(ms[0])] + Serialize(ms[1..], {}, thinking)
  }

  // ---------- what a provider accepts ----------

  /** w[i] is one of the tool messages that follow the call message w[j] directly. */
  ghost predicate Follows(w: seq<Wire>, j: int, i: int) {
    0 <= j < i < |w| && w[j].WCalls? && forall k :: j < k <= i ==> w[k].WTool?
  }

  ghost predicate Replies(w: seq<Wire>, j: int, i: int) {
    Follows(w, j, i) && w[i].callId in IdsOf(w[j].calls) &&
    forall k :: j < k < i ==> w[k].callId != w[i].callId
  }

  /** Every tool message answers a call of the call message just before it, and answers it first. */
  ghost predicate NoStrayReply(w: seq<Wire>) {
    forall i :: 0 <= i < |w| && w[i].WTool? ==> exists j :: Replies(w, j, i)
  }

  ghost predicate AllAnswered(w: seq<Wire>) {
    forall j, id :: 0 <= j < |w| && w[j].WCalls? && id in IdsOf(w[j].calls) ==>
      exists i :: Follows(w, j, i) && w[i].callId == id
  }

  ghost predicate WellFormed(w: seq<Wire>) {
    NoStrayReply(w) && AllAnswered(w)
  }

  // ---------- the loop ----------

  /** The ids in pending are unanswered calls of the call message that w ends in. */
  ghost predicate Waiting(w: seq<Wire>, pending: set<string>) {
    pending != {} ==>
      exists j :: 0 <= j < |w| && w[j].WCalls? && (forall k :: j < k < |w| ==> w[k].WTool?) &&
                  (forall id :: id in pending ==> id in IdsOf(w[j].calls)) &&
                  forall k :: j < k < |w| ==> w[k].callId !in pending
  }

  lemma SnocKeepsReplies(w: seq<Wire>, x: Wire)
    requires NoStrayReply(w)
    requires x.WTool? ==> exists j :: Replies(w + [x], j, |w|)
    ensures NoStrayReply(w + [x])
  {
    var w' := w + [x];
    forall i | 0 <= i < |w'| && w'[i].WTool?
      ensures exists j :: Replies(w', j, i)
    {
      if i < |w| {
        var j :| Replies(w, j, i);
        assert Replies(w', j, i);
      }
    }
  }

  lemma ToolSnoc(w: seq<Wire>, pending: set<string>, id: string, text: string)
    requires NoStrayReply(w) && Waiting(w, pending) && id in pending
    ensures NoStrayReply(w + [WTool(id, text)]) && Waiting(w + [WTool(id, text)], pending - {id})
  {
    var w' := w + [WTool(id, text)];
    var j :| 0 <= j < |w| && w[j].WCalls? && (forall k :: j < k < |w| ==> w[k].WTool?) &&
             (forall x :: x in pending ==> x in IdsOf(w[j].calls)) &&
             forall k :: j < k < |w| ==> w[k].callId !in pending;
    assert Replies(w', j, |w|);
    SnocKeepsReplies(w, WTool(id, text));
    assert w'[j].WCalls? && forall k :: j < k < |w'| ==> w'[k].WTool? && w'[k].callId !in pending - {id};
  }

  lemma {:induction false} ToolsKeepOrder(w: seq<Wire>, content: seq<Block>, pending: set<string>)
    requires NoStrayReply(w) && Waiting(w, pending)
    ensures NoStrayReply(w + ToolWires(content, pending)) && Waiting(w + ToolWires(content, pending), pending - IdSet(ResultIds(content)))
    decreases |content|
  {
    if content == [] {
      assert w + [] == w && pending - IdSet([]) == pending;
    } else {
      var b, rest := content[0], content[1..];
      if b.ToolResult? && b.toolUseId in pending {
        var tool := WTool(b.toolUseId, b.content);
        ToolSnoc(w, pending, b.toolUseId, b.content);
        ToolsKeepOrder(w + [tool], rest, pending - {b.toolUseId});
        AppendAssoc(w, [tool], ToolWires(rest, pending - {b.toolUseId}));
        assert pending - {b.toolUseId} - IdSet(ResultIds(rest)) == pending - IdSet(ResultIds(content));
      } else {
        ToolsKeepOrder(w, rest, pending);
        assert pending - IdSet(ResultIds(rest)) == pending - IdSet(ResultIds(content));
      }
    }
  }

  /** Whatever messages come in, no tool message goes out without a call right before it that it is the first to answer. */
  lemma {:induction false} NeverStray(w: seq<Wire>, ms: seq<Message>, pending: set<string>, thinking: bool)
    requires NoStrayReply(w) && Waiting(w, pending)
    ensures NoStrayReply(w + Serialize(ms, pending, thinking))
    decreases |ms|
  {
    if ms == [] {
      assert w + [] == w;
    } else {
      var m, rest := ms[0], ms[1..];
      if HasResult(m.content) {
        var tools, left := ToolWires(m.content, pending), pending - IdSet(ResultIds(m.content));
        ToolsKeepOrder(w, m.content, pending);
        NeverStray(w + tools, rest, left, thinking);
        AppendAssoc(w, tools, Serialize(rest, left, thinking));
      } else if HasUse(m.content) {
        var c, left := CallsWire(m, thinking), IdSet(UseIds(m.content)) - {""};
        SnocKeepsReplies(w, c);
        assert (w + [c])[|w|] == c;
        NeverStray(w + [c], rest, left, thinking);
        AppendAssoc(w, [c], Serialize(rest, left, thinking));
      } else {
        SnocKeepsReplies(w, PlainWire(m));
        NeverStray(w + [PlainWire(m)], rest, {}, thinking);
        AppendAssoc(w, [PlainWire(m)], Serialize(rest, {}, thinking));
      }
    }
  }

  /** The results of one message: those still awaited go out as tool messages. */
  method SerializeResults(content: seq<Block>, before: seq<Wire>, open: set<string>) returns (arr: seq<Wire>, pending: set<string>)
    ensures arr == before + ToolWires(content, open) && pending == open - IdSet(ResultIds(content))
  {
    arr, pending := before, open;
    for j := 0 to |content|
      invariant arr + ToolWires(content[j..], pending) == before + ToolWires(content, open)
      invariant pending - IdSet(ResultIds(content[j..])) == open - IdSet(ResultIds(content))
    {
      var b := content[j];
      assert content[j..][0] == b && content[j..][1..] == content[j + 1..];
      if b.ToolResult? && b.toolUseId in pending {
        AppendAssoc(arr, [WTool(b.toolUseId, b.content)], ToolWires(content[j + 1..], pending - {b.toolUseId}));
        arr := arr + [WTool(b.toolUseId, b.content)];
        pending := pending - {b.toolUseId};
      }
    }
    assert content[|content|..] == [];
  }

  /** The serializer loop. */
  method SerializeMessagesToOpenAI(messages: seq<Message>, thinking: bool) returns (arr: seq<Wire>)
    ensures arr == Serialize(messages, {}, thinking)
    ensures NoStrayReply(arr)
  {
    arr := [];
    var pending: set<string> := {};
    for i := 0 to |messages|
      invariant arr + Serialize(messages[i..], pending, thinking) == Serialize(messages, {}, thinking)
    {
      var m := messages[i];
      ghost var rest := messages[i + 1..];
      assert messages[i..][0] == m && messages[i..][1..] == rest;
      if HasResult(m.content) {
        ghost var before, open := arr, pending;
        arr, pending := SerializeResults(m.content, arr, pending);
        AppendAssoc(before, ToolWires(m.content, open), Serialize(rest, pending, thinking));
      } else if HasUse(m.content) {
        var j := CallsWire(m, thinking);
        pending := set b | b in m.content && b.ToolUse? && b.id != "" :: b.id;
        UseIdsOfBlocks(m.content);
        assert pending == IdSet(UseIds(m.content)) - {""};
        AppendAssoc(arr, [j], Serialize(rest, pending, thinking));
        arr := arr + [j];
      } else {
        pending := {};
        AppendAssoc(arr, [PlainWire(m)], Serialize(rest, pending, thinking));
        arr := arr + [PlainWire(m)];
      }
    }
    NeverStray([], messages, {}, thinking);
    assert [] + arr == arr;
  }

  lemma {:induction false} UseIdsOfBlocks(content: seq<Block>)
    ensures forall id :: id in UseIds(content) <==> exists b :: b in content && b.ToolUse? && b.id == id
    ensures HasUse(content) <==> UseIds(content) != []
  {
    if content != [] {
      UseIdsOfBlocks(content[1..]);
      assert forall b :: b in content <==> b == content[0] || b in content[1..];
    }
  }
}
