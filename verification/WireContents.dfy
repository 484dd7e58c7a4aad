/**
  What the messages sent to an OpenAI-compatible API say: every message that
  carries no results goes out as one wire message, with its texts, its thinking
  and its calls, and every result goes out with its own text.
 */
module WireContents {
  import opened Basics
  import opened Text
  import opened Transcript
  import opened Normalize
  import opened Serializer

  predicate IsText(b: Block) { b.TextBlock? }

  predicate IsThought(b: Block) { b.Thinking? }

  predicate IsUse(b: Block) { b.ToolUse? }

  function WordsOf(b: Block): string { if b.TextBlock? || b.Thinking? then b.text else "" }

  function AllWords(bs: seq<Block>): (r: seq<string>)
    ensures |r| == |bs| && forall i :: 0 <= i < |r| ==> r[i] == WordsOf(bs[i])
  {
    seq(|bs|, i requires 0 <= i < |bs| => WordsOf(bs[i]))
  }

  /** The texts of the blocks of one kind, put together. */
  function Together(content: seq<Block>, kind: Block -> bool): string { Join(AllWords(Filter(content, kind)), "") }

  /** The calls on the wire are the tool_use blocks, one by one: id, name and arguments. */
  ghost predicate CarriesCalls(calls: seq<WireCall>, content: seq<Block>) {
    var uses := Filter(content, IsUse);
    |calls| == |uses| && forall k :: 0 <= k < |uses| ==>
      uses[k].ToolUse? && calls[k].id == uses[k].id && calls[k].name == uses[k].name && calls[k].arguments == uses[k].input.Dump()
  }

  /** What one wire message says of the message it stands for. */
  ghost predicate Says(w: Wire, m: Message, thinking: bool) {
    var text, thought := Together(m.content, IsText), Together(m.content, IsThought);
    if HasUse(m.content) then
      && w.WCalls? && CarriesCalls(w.calls, m.content)
      && (if text == "" then w.text == None else w.text == Some(text))
      && (if thought == "" && !thinking then w.thought == None else w.thought == Some(thought))
    else
      && w.WPlain? && w.role == m.role && w.content == text
      && (if m.role != "assistant" || thought == "" then w.reasoning == None else w.reasoning == Some(thought))
  }

  // ---------- one message ----------

  lemma {:induction false} TextSnoc(content: seq<Block>, b: Block)
    ensures TextOf(content + [b]) == TextOf(content) + (if b.TextBlock? then b.text else "")
    ensures ReasoningOf(content + [b]) == ReasoningOf(content) + (if b.Thinking? then b.text else "")
  {
    if content == [] {
      assert content + [b] == [b] && [b][1..] == [];
    } else {
      var all, first, rest := content + [b], content[0], content[1..];
      assert all[1..] == rest + [b] && all[0] == first;
      TextSnoc(rest, b);
      AppendAssoc(if first.TextBlock? then first.text else "", TextOf(rest), if b.TextBlock? then b.text else "");
      AppendAssoc(if first.Thinking? then first.text else "", ReasoningOf(rest), if b.Thinking? then b.text else "");
    }
  }

  lemma {:induction false} CallsSnoc(content: seq<Block>, b: Block)
    ensures CallsOf(content + [b]) == CallsOf(content) + (if b.ToolUse? then [WireCall(b.id, b.name, b.input.Dump())] else [])
  {
    if content == [] {
      assert content + [b] == [b] && [b][1..] == [];
    } else {
      assert (content + [b])[1..] == content[1..] + [b] && (content + [b])[0] == content[0];
      CallsSnoc(content[1..], b);
    }
  }

  lemma AllWordsSnoc(bs: seq<Block>, b: Block)
    ensures AllWords(bs + [b]) == AllWords(bs) + [WordsOf(b)]
  {
  }

  lemma TogetherSnoc(content: seq<Block>, b: Block, kind: Block -> bool)
    ensures Together(content + [b], kind) == Together(content, kind) + (if kind(b) then WordsOf(b) else "")
  {
    var before := Filter(content, kind);
    FilterSnoc(content, b, kind);
    if kind(b) {
      AllWordsSnoc(before, b);
      if before != [] {
        JoinSnoc(AllWords(before), WordsOf(b), "");
      } else {
        assert [] + [WordsOf(b)] == [WordsOf(b)];
      }
    }
  }

  lemma {:induction false} TextIsTogether(content: seq<Block>)
    ensures TextOf(content) == Together(content, IsText) && ReasoningOf(content) == Together(content, IsThought)
  {
    if content != [] {
      var init, b := content[..|content| - 1], content[|content| - 1];
      assert content == init + [b];
      TextIsTogether(init);
      TextSnoc(init, b);
      TogetherSnoc(init, b, IsText);
      TogetherSnoc(init, b, IsThought);
    }
  }

  lemma {:induction false} CallsAreUses(content: seq<Block>)
    ensures CarriesCalls(CallsOf(content), content)
  {
    if content != [] {
      var init, b := content[..|content| - 1], content[|content| - 1];
      assert content == init + [b];
      CallsAreUses(init);
      CallsSnoc(init, b);
    }
  }

  lemma SaysItself(m: Message, thinking: bool)
    ensures Says(if HasUse(m.content) then CallsWire(m, thinking) else PlainWire(m), m, thinking)
  {
    TextIsTogether(m.content);
    CallsAreUses(m.content);
  }

  // ---------- the whole list ----------

  /** The ids that wait after these messages. */
  function PendingAfter(ms: seq<Message>, pending: set<string>): set<string>
    decreases |ms|
  {
    if ms == [] then pending
    else
      var content := ms[0].content;
      PendingAfter(ms[1..], if HasResult(content) then pending - IdSet(ResultIds(content))
                            else if HasUse(content) then IdSet(UseIds(content)) - {""} else {})
  }

  lemma {:induction false} SerializeAppend(a: seq<Message>, b: seq<Message>, pending: set<string>, thinking: bool)
    ensures Serialize(a + b, pending, thinking) == Serialize(a, pending, thinking) + Serialize(b, PendingAfter(a, pending), thinking)
    decreases |a|
  {
    if a == [] {
      assert a + b == b;
    } else {
      assert (a + b)[0] == a[0] && (a + b)[1..] == a[1..] + b;
      var content := a[0].content;
      var next := if HasResult(content) then pending - IdSet(ResultIds(content)) else if HasUse(content) then IdSet(UseIds(content)) - {""} else {};
      SerializeAppend(a[1..], b, next, thinking);
    }
  }

  /** Where message i of a list starts on the wire. */
  function Place(ms: seq<Message>, i: nat, thinking: bool): nat
    requires i <= |ms|
  {
    |Serialize(ms[..i], {}, thinking)|
  }

  /** Message i and those around it, on the wire. */
  lemma SerializeAround(ms: seq<Message>, i: nat, thinking: bool)
    requires i < |ms|
    ensures var pending := PendingAfter(ms[..i], {});
            var own := if HasResult(ms[i].content) then ToolWires(ms[i].content, pending)
                       else [if HasUse(ms[i].content) then CallsWire(ms[i], thinking) else PlainWire(ms[i])];
            && Place(ms, i + 1, thinking) == Place(ms, i, thinking) + |own| <= |Serialize(ms, {}, thinking)|
            && Serialize(ms, {}, thinking)[Place(ms, i, thinking)..Place(ms, i + 1, thinking)] == own
  {
    var a, b := ms[..i], ms[i + 1..];
    assert ms == (a + [ms[i]]) + b && ms[..i + 1] == a + [ms[i]];
    SerializeAppend(a + [ms[i]], b, {}, thinking);
    SerializeAppend(a, [ms[i]], {}, thinking);
    assert [ms[i]][1..] == [];
  }

  /** Every message without results goes out as exactly one wire message, which says what it says. */
  lemma MessageIsSaid(ms: seq<Message>, i: nat, thinking: bool)
    requires i < |ms| && !HasResult(ms[i].content)
    ensures var wires, at := Serialize(ms, {}, thinking), Place(ms, i, thinking);
            at < |wires| && Place(ms, i + 1, thinking) == at + 1 && Says(wires[at], ms[i], thinking)
  {
    SerializeAround(ms, i, thinking);
    SaysItself(ms[i], thinking);
  }

  /** A tool message carries the text of the first result with its id. */
  ghost predicate FirstResult(content: seq<Block>, j: nat, w: Wire) {
    j < |content| && w.WTool? && content[j] == ToolResult(w.callId, w.output) &&
    forall k :: 0 <= k < j ==> !(content[k].ToolResult? && content[k].toolUseId == w.callId)
  }

  lemma {:induction false} ToolIsSaid(content: seq<Block>, pending: set<string>, k: nat) returns (j: nat)
    requires k < |ToolWires(content, pending)|
    ensures ToolWires(content, pending)[k].WTool? && ToolWires(content, pending)[k].callId in pending
    ensures FirstResult(content, j, ToolWires(content, pending)[k])
    decreases |content|
  {
    var b, rest := content[0], content[1..];
    if b.ToolResult? && b.toolUseId in pending {
      if k == 0 {
        j := 0;
      } else {
        var inner := ToolIsSaid(rest, pending - {b.toolUseId}, k - 1);
        j := inner + 1;
        assert forall x :: 0 < x <= inner + 1 ==> content[x] == rest[x - 1];
      }
    } else {
      var inner := ToolIsSaid(rest, pending, k);
      j := inner + 1;
      assert forall x :: 0 < x <= inner + 1 ==> content[x] == rest[x - 1];
    }
  }

  /** A message with results goes out as tool messages only, each with the text of its result. */
  lemma ResultIsSaid(ms: seq<Message>, i: nat, at: nat, thinking: bool) returns (j: nat)
    requires i < |ms| && HasResult(ms[i].content) && Place(ms, i, thinking) <= at < Place(ms, i + 1, thinking)
    ensures at < |Serialize(ms, {}, thinking)| && FirstResult(ms[i].content, j, Serialize(ms, {}, thinking)[at])
  {
    SerializeAround(ms, i, thinking);
    var pending := PendingAfter(ms[..i], {});
    var k := at - Place(ms, i, thinking);
    j := ToolIsSaid(ms[i].content, pending, k);
    assert Serialize(ms, {}, thinking)[Place(ms, i, thinking)..Place(ms, i + 1, thinking)][k] == Serialize(ms, {}, thinking)[at];
  }
}
