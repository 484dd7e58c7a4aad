/**
  The input list of a Codex request (src/providers/openai_codex_provider.cpp,
  build_input_items). Messages are not sanitized on this path.
 */
module CodexInput {
  import opened Basics
  import opened Text
  import opened Transcript

  datatype Item =
    | InMessage(role: string, content: string)
    | FunctionCall(callId: string, name: string, arguments: string)
    | FunctionOutput(callId: string, output: string)

  /** Message::text: text and thinking blocks alike. */
  function TextOf(content: seq<Block>): string {
    if content == [] then ""
    else (if content[0].TextBlock? || content[0].Thinking? then content[0].text else "") + TextOf(content[1..])
  }

  function CallItems(content: seq<Block>): seq<Item> {
    if content == [] then []
    else
      var b := content[0];
      (if b.ToolUse? then [FunctionCall(b.id, b.name, b.input.Dump())] else []) + CallItems(content[1..])
  }

  function TextItems(content: seq<Block>): seq<Item> {
    if TextOf(content) == "" then [] else [InMessage("assistant", TextOf(content))]
  }

  /** Results whose call still waits, each answered once. */
  function Outputs(content: seq<Block>, pending: set<string>): seq<Item> {
    if content == [] then []
    else if content[0].ToolResult? && content[0].toolUseId in pending then
      [FunctionOutput(content[0].toolUseId, content[0].content)] + Outputs(content[1..], pending - {content[0].toolUseId})
    else Outputs(content[1..], pending)
  }

  function Items(ms: seq<Message>, pending: set<string>): seq<Item> {
    if ms == [] then []
    else
      var content := ms[0].content;
      if ms[0].role == "system" then Items(ms[1..], pending)
      else if HasResult(content) then Outputs(content, pending) + Items(ms[1..], pending - IdSet(ResultIds(content)))
      else if HasUse(content) then CallItems(content) + TextItems(content) + Items(ms[1..], IdSet(UseIds(content)) - {""})
      else [InMessage(ms[0].role, TextOf(content))] + Items(ms[1..], {})
  }

  /** The texts of the system messages, in order, separated by blank lines. */
  function Instructions(ms: seq<Message>): string {
    if ms == [] then ""
    else
      var before, last := Instructions(ms[..|ms| - 1]), ms[|ms| - 1];
      if last.role != "system" || TextOf(last.content) == "" then before
      else (if before == "" then "" else before + "\n\n") + TextOf(last.content)
  }

  method BuildOutputs(content: seq<Block>, before: seq<Item>, open: set<string>) returns (input: seq<Item>, pending: set<string>)
    ensures input == before + Outputs(content, open) && pending == open - IdSet(ResultIds(content))
  {
    input, pending := before, open;
    for j := 0 to |content|
      invariant input + Outputs(content[j..], pending) == before + Outputs(content, open)
      invariant pending - IdSet(ResultIds(content[j..])) == open - IdSet(ResultIds(content))
    {
      var b := content[j];
      assert content[j..][0] == b && content[j..][1..] == content[j + 1..];
      if b.ToolResult? && b.toolUseId in pending {
        AppendAssoc(input, [FunctionOutput(b.toolUseId, b.content)], Outputs(content[j + 1..], pending - {b.toolUseId}));
        input := input + [FunctionOutput(b.toolUseId, b.content)];
        pending := pending - {b.toolUseId};
      }
    }
    assert content[|content|..] == [];
  }

  /** The calls of one message, then its text if it has any. */
  method BuildCalls(content: seq<Block>, before: seq<Item>) returns (input: seq<Item>, pending: set<string>)
    ensures input == before + (CallItems(content) + TextItems(content)) && pending == IdSet(UseIds(content)) - {""}
  {
    input, pending := before, {};
    for j := 0 to |content|
      invariant input + CallItems(content[j..]) == before + CallItems(content)
      invariant pending + (IdSet(UseIds(content[j..])) - {""}) == IdSet(UseIds(content)) - {""}
    {
      var b := content[j];
      assert content[j..][0] == b && content[j..][1..] == content[j + 1..];
      if b.ToolUse? {
        var call := FunctionCall(b.id, b.name, b.input.Dump());
        AppendAssoc(input, [call], CallItems(content[j + 1..]));
        input := input + [call];
        if b.id != "" {
          pending := pending + {b.id};
        }
      }
    }
    assert content[|content|..] == [];
    AppendAssoc(before, CallItems(content), TextItems(content));
    input := input + TextItems(content);
  }

  method BuildInputItems(messages: seq<Message>) returns (input: seq<Item>, instructions: string)
    ensures input == Items(messages, {}) && instructions == Instructions(messages)
    ensures NoStray(input)
  {
    input, instructions := [], "";
    var pending: set<string> := {};
    for i := 0 to |messages|
      invariant input + Items(messages[i..], pending) == Items(messages, {}) && instructions == Instructions(messages[..i])
    {
      var m := messages[i];
      ghost var rest, before := messages[i + 1..], input;
      assert messages[i..][0] == m && messages[i..][1..] == rest && messages[..i + 1][..i] == messages[..i];
      var text := TextOf(m.content);
      if m.role == "system" {
        if text != "" {
          if instructions != "" {
            instructions := instructions + "\n\n";
          }
          instructions := instructions + text;
        }
      } else if HasResult(m.content) {
        ghost var open := pending;
        input, pending := BuildOutputs(m.content, input, pending);
        AppendAssoc(before, Outputs(m.content, open), Items(rest, pending));
      } else if HasUse(m.content) {
        input, pending := BuildCalls(m.content, input);
        AppendAssoc(before, CallItems(m.content) + TextItems(m.content), Items(rest, pending));
      } else {
        pending := {};
        AppendAssoc(input, [InMessage(m.role, text)], Items(rest, pending));
        input := input + [InMessage(m.role, text)];
      }
    }
    assert messages[..|messages|] == messages;
    NeverStray([], messages, {});
    assert [] + input == input;
  }

  // ---------- every output answers a call ----------

  /** A call turn: calls from s to e, perhaps its text, and from b to n nothing but outputs. */
  predicate Turn(items: seq<Item>, s: nat, e: nat, b: nat, n: nat) {
    s < e <= b <= n <= |items| && (forall k :: s <= k < e ==> items[k].FunctionCall?) &&
    (b == e || (b == e + 1 && items[e].InMessage? && items[e].role == "assistant")) &&
    forall k :: b <= k < n ==> items[k].FunctionOutput?
  }

  predicate Called(items: seq<Item>, s: nat, e: nat, id: string) {
    exists k :: s <= k < e && k < |items| && items[k].FunctionCall? && items[k].callId == id
  }

  /** Output i answers a call of turn (s, e, b), and is the first to do so. */
  predicate AnswersTurn(items: seq<Item>, i: nat, s: nat, e: nat, b: nat) {
    i < |items| && b <= i && Turn(items, s, e, b, i + 1) && Called(items, s, e, items[i].callId) &&
    forall k :: b <= k < i ==> items[k].callId != items[i].callId
  }

  ghost predicate Answered(items: seq<Item>, i: nat) {
    exists s: nat, e: nat, b: nat :: AnswersTurn(items, i, s, e, b)
  }

  /** Every output answers, once, a call of the turn right before it. */
  ghost predicate NoStray(items: seq<Item>) {
    forall i: nat :: i < |items| && items[i].FunctionOutput? ==> Answered(items, i)
  }

  /** Turn (s, e, b) reaches to the end of the list, and the ids in pending are calls of it without an output. */
  predicate Waits(items: seq<Item>, pending: set<string>, s: nat, e: nat, b: nat) {
    Turn(items, s, e, b, |items|) && (forall id :: id in pending ==> Called(items, s, e, id)) &&
    forall k :: b <= k < |items| ==> items[k].callId !in pending
  }

  ghost predicate Open(items: seq<Item>, pending: set<string>) {
    pending != {} ==> exists s: nat, e: nat, b: nat :: Waits(items, pending, s, e, b)
  }

  lemma AnsweredKept(items: seq<Item>, more: seq<Item>, i: nat)
    requires i < |items| && Answered(items, i)
    ensures Answered(items + more, i)
  {
    var s: nat, e: nat, b: nat :| AnswersTurn(items, i, s, e, b);
    var all := items + more;
    assert forall k :: 0 <= k < |items| ==> all[k] == items[k];
    var k :| s <= k < e && k < |items| && items[k].FunctionCall? && items[k].callId == items[i].callId;
    assert all[k] == items[k];
    assert AnswersTurn(all, i, s, e, b);
  }

  lemma NoStrayAppend(items: seq<Item>, more: seq<Item>)
    requires NoStray(items) && forall i :: 0 <= i < |more| ==> !more[i].FunctionOutput?
    ensures NoStray(items + more)
  {
    var all := items + more;
    assert forall i :: |items| <= i < |all| ==> all[i] == more[i - |items|];
    forall i: nat | i < |all| && all[i].FunctionOutput? ensures Answered(all, i) {
      assert all[i] == items[i];
      AnsweredKept(items, more, i);
    }
  }

  /** One more output, of an id that waits. */
  lemma OutputSnoc(items: seq<Item>, pending: set<string>, id: string, text: string)
    requires NoStray(items) && Open(items, pending) && id in pending
    ensures NoStray(items + [FunctionOutput(id, text)]) && Open(items + [FunctionOutput(id, text)], pending - {id})
  {
    var more := [FunctionOutput(id, text)];
    var all := items + more;
    var s: nat, e: nat, b: nat :| Waits(items, pending, s, e, b);
    assert forall k :: 0 <= k < |items| ==> all[k] == items[k];
    forall x | x in pending ensures Called(all, s, e, x) {
      var k :| s <= k < e && k < |items| && items[k].FunctionCall? && items[k].callId == x;
      assert all[k] == items[k];
    }
    assert AnswersTurn(all, |items|, s, e, b);
    assert Waits(all, pending - {id}, s, e, b);
    forall i: nat | i < |all| && all[i].FunctionOutput? ensures Answered(all, i) {
      if i < |items| { AnsweredKept(items, more, i); }
    }
  }

  lemma {:induction false} OutputsNeverStray(items: seq<Item>, content: seq<Block>, pending: set<string>)
    requires NoStray(items) && Open(items, pending)
    ensures NoStray(items + Outputs(content, pending)) && Open(items + Outputs(content, pending), pending - IdSet(ResultIds(content)))
    decreases |content|
  {
    if content == [] {
      assert items + [] == items && pending - IdSet([]) == pending;
    } else {
      var b, rest := content[0], content[1..];
      if b.ToolResult? && b.toolUseId in pending {
        var out := FunctionOutput(b.toolUseId, b.content);
        OutputSnoc(items, pending, b.toolUseId, b.content);
        OutputsNeverStray(items + [out], rest, pending - {b.toolUseId});
        AppendAssoc(items, [out], Outputs(rest, pending - {b.toolUseId}));
        assert pending - {b.toolUseId} - IdSet(ResultIds(rest)) == pending - IdSet(ResultIds(content));
      } else {
        OutputsNeverStray(items, rest, pending);
        assert pending - IdSet(ResultIds(rest)) == pending - IdSet(ResultIds(content));
      }
    }
  }

  lemma {:induction false} CallItemsCalled(content: seq<Block>)
    ensures forall i :: 0 <= i < |CallItems(content)| ==> CallItems(content)[i].FunctionCall?
    ensures forall id :: id in UseIds(content) ==> Called(CallItems(content), 0, |CallItems(content)|, id)
    ensures HasUse(content) ==> CallItems(content) != []
  {
    if content != [] {
      CallItemsCalled(content[1..]);
      var all, rest := CallItems(content), CallItems(content[1..]);
      if content[0].ToolUse? {
        assert all[1..] == rest && all[0].callId == content[0].id;
        forall id | id in UseIds(content) ensures Called(all, 0, |all|, id) {
          if id != content[0].id {
            var k :| 0 <= k < |rest| && rest[k].FunctionCall? && rest[k].callId == id;
            assert all[k + 1] == rest[k];
          }
        }
      } else {
        assert all == rest;
        if HasUse(content) {
          var i :| 0 <= i < |content| && content[i].ToolUse?;
          assert content[1..][i - 1] == content[i];
        }
      }
    }
  }

  lemma CalledShift(calls: seq<Item>, all: seq<Item>, s: nat, id: string)
    requires Called(calls, 0, |calls|, id) && s + |calls| <= |all|
    requires forall k :: s <= k < s + |calls| ==> all[k] == calls[k - s]
    ensures Called(all, s, s + |calls|, id)
  {
    var k :| 0 <= k < |calls| && calls[k].FunctionCall? && calls[k].callId == id;
    assert all[s + k] == calls[k];
  }

  /** A new turn: its calls wait from here on. */
  lemma NewTurn(items: seq<Item>, content: seq<Block>)
    requires NoStray(items) && HasUse(content)
    ensures NoStray(items + (CallItems(content) + TextItems(content)))
    ensures Open(items + (CallItems(content) + TextItems(content)), IdSet(UseIds(content)) - {""})
  {
    var calls, text := CallItems(content), TextItems(content);
    var more := calls + text;
    var all := items + more;
    CallItemsCalled(content);
    NoStrayAppend(items, more);
    var s, e := |items|, |items| + |calls|;
    assert forall k :: s <= k < e ==> all[k] == calls[k - s];
    assert text != [] ==> all[e] == text[0];
    forall id | id in UseIds(content) ensures Called(all, s, e, id) {
      CalledShift(calls, all, s, id);
    }
    assert Waits(all, IdSet(UseIds(content)) - {""}, s, e, |all|);
  }

  /** Whatever messages come in: every output answers, once, a call of the nearest call turn. */
  lemma {:induction false} NeverStray(items: seq<Item>, ms: seq<Message>, pending: set<string>)
    requires NoStray(items) && Open(items, pending)
    ensures NoStray(items + Items(ms, pending))
    decreases |ms|
  {
    if ms == [] {
      assert items + [] == items;
    } else {
      var m, rest := ms[0], ms[1..];
      if m.role == "system" {
        NeverStray(items, rest, pending);
      } else if HasResult(m.content) {
        var left := pending - IdSet(ResultIds(m.content));
        OutputsNeverStray(items, m.content, pending);
        NeverStray(items + Outputs(m.content, pending), rest, left);
        AppendAssoc(items, Outputs(m.content, pending), Items(rest, left));
      } else if HasUse(m.content) {
        var turn, left := CallItems(m.content) + TextItems(m.content), IdSet(UseIds(m.content)) - {""};
        NewTurn(items, m.content);
        NeverStray(items + turn, rest, left);
        AppendAssoc(items, turn, Items(rest, left));
      } else {
        var plain := [InMessage(m.role, TextOf(m.content))];
        NoStrayAppend(items, plain);
        NeverStray(items + plain, rest, {});
        AppendAssoc(items, plain, Items(rest, {}));
      }
    }
  }

  // ---------- every call is answered ----------

  ghost predicate HasOutput(items: seq<Item>, id: string) {
    exists i :: 0 <= i < |items| && items[i].FunctionOutput? && items[i].callId == id
  }

  lemma HasOutputCons(item: Item, items: seq<Item>, id: string)
    ensures HasOutput([item] + items, id) <==> (item.FunctionOutput? && item.callId == id) || HasOutput(items, id)
  {
    var all := [item] + items;
    assert all[0] == item && forall i :: 0 <= i < |items| ==> all[i + 1] == items[i];
    if HasOutput(items, id) {
      var i :| 0 <= i < |items| && items[i].FunctionOutput? && items[i].callId == id;
      assert all[i + 1] == items[i];
    }
  }

  lemma {:induction false} OutputIds(content: seq<Block>, pending: set<string>, id: string)
    ensures HasOutput(Outputs(content, pending), id) <==> id in pending && id in ResultIds(content)
  {
    if content != [] {
      var b, rest := content[0], content[1..];
      if b.ToolResult? && b.toolUseId in pending {
        OutputIds(rest, pending - {b.toolUseId}, id);
        HasOutputCons(FunctionOutput(b.toolUseId, b.content), Outputs(rest, pending - {b.toolUseId}), id);
      } else {
        OutputIds(rest, pending, id);
      }
    }
  }

  /** In a turn answered id by id, every call is sent with an answer behind it exactly when no call has an empty id. */
  lemma TurnAnsweredIff(call: Message, results: Message)
    requires Answers(results, call)
    ensures (forall id :: id in UseIds(call.content) ==> HasOutput(Outputs(results.content, IdSet(UseIds(call.content)) - {""}), id))
            <==> "" !in UseIds(call.content)
  {
    var pending := IdSet(UseIds(call.content)) - {""};
    forall id ensures HasOutput(Outputs(results.content, pending), id) <==> id in pending && id in UseIds(call.content) {
      OutputIds(results.content, pending, id);
    }
  }
}
