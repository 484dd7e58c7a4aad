/**
  What a Codex request says, and what a Codex stream adds up to.
 */
module CodexContents {
  import opened Basics
  import opened Text
  import opened Transcript
  import opened Normalize
  import opened Framing
  import In = CodexInput
  import Out = CodexStream

  // ---------- the request ----------

  predicate IsUse(b: Block) { b.ToolUse? }

  predicate HasWords(b: Block) { b.TextBlock? || b.Thinking? }

  function WordsOf(b: Block): string { if HasWords(b) then b.text else "" }

  function AllWords(bs: seq<Block>): (r: seq<string>)
    ensures |r| == |bs| && forall i :: 0 <= i < |r| ==> r[i] == WordsOf(bs[i])
  {
    seq(|bs|, i requires 0 <= i < |bs| => WordsOf(bs[i]))
  }

  /** The texts and thoughts of a message, put together. */
  function Together(content: seq<Block>): string { Join(AllWords(Filter(content, HasWords)), "") }

  /** The calls are the tool_use blocks, one by one: id, name and arguments. */
  ghost predicate CarriesCalls(items: seq<In.Item>, content: seq<Block>) {
    var uses := Filter(content, IsUse);
    |items| == |uses| && forall k :: 0 <= k < |uses| ==>
      uses[k].ToolUse? && items[k] == In.FunctionCall(uses[k].id, uses[k].name, uses[k].input.Dump())
  }

  function OwnCall(b: Block): seq<In.Item> { if b.ToolUse? then [In.FunctionCall(b.id, b.name, b.input.Dump())] else [] }

  lemma {:induction false} ContentSnoc(content: seq<Block>, b: Block)
    ensures In.TextOf(content + [b]) == In.TextOf(content) + WordsOf(b)
    ensures In.CallItems(content + [b]) == In.CallItems(content) + OwnCall(b)
  {
    if content == [] {
      assert content + [b] == [b] && [b][1..] == [];
    } else {
      var all, first, rest := content + [b], content[0], content[1..];
      assert all[1..] == rest + [b] && all[0] == first;
      ContentSnoc(rest, b);
      AppendAssoc(WordsOf(first), In.TextOf(rest), WordsOf(b));
      AppendAssoc(OwnCall(first), In.CallItems(rest), OwnCall(b));
    }
  }

  lemma AllWordsSnoc(bs: seq<Block>, b: Block)
    ensures AllWords(bs + [b]) == AllWords(bs) + [WordsOf(b)]
  {
  }

  lemma TogetherSnoc(content: seq<Block>, b: Block)
    ensures Together(content + [b]) == Together(content) + WordsOf(b)
  {
    var before := Filter(content, HasWords);
    FilterSnoc(content, b, HasWords);
    if HasWords(b) {
      AllWordsSnoc(before, b);
      if before != [] {
        JoinSnoc(AllWords(before), WordsOf(b), "");
      } else {
        assert [] + [WordsOf(b)] == [WordsOf(b)];
      }
    }
  }

  lemma {:induction false} ContentIsSaid(content: seq<Block>)
    ensures In.TextOf(content) == Together(content) && CarriesCalls(In.CallItems(content), content)
  {
    if content != [] {
      var init, b := content[..|content| - 1], content[|content| - 1];
      assert content == init + [b];
      ContentIsSaid(init);
      ContentSnoc(init, b);
      TogetherSnoc(init, b);
    }
  }

  /** The items of one message that is neither a system message nor carries results: calls, then text; or role and text. */
  ghost predicate Says(items: seq<In.Item>, m: Message) {
    var text := Together(m.content);
    if HasUse(m.content) then
      exists calls :: CarriesCalls(calls, m.content) && items == calls + if text == "" then [] else [In.InMessage("assistant", text)]
    else items == [In.InMessage(m.role, text)]
  }

  /** The ids that wait after these messages. */
  function PendingAfter(ms: seq<Message>, pending: set<string>): set<string>
    decreases |ms|
  {
    if ms == [] then pending
    else
      var content := ms[0].content;
      PendingAfter(ms[1..], if ms[0].role == "system" then pending else if HasResult(content) then pending - IdSet(ResultIds(content))
                            else if HasUse(content) then IdSet(UseIds(content)) - {""} else {})
  }

  lemma {:induction false} ItemsAppend(a: seq<Message>, b: seq<Message>, pending: set<string>)
    ensures In.Items(a + b, pending) == In.Items(a, pending) + In.Items(b, PendingAfter(a, pending))
    decreases |a|
  {
    if a == [] {
      assert a + b == b;
    } else {
      assert (a + b)[0] == a[0] && (a + b)[1..] == a[1..] + b;
      var content := a[0].content;
      var next := if a[0].role == "system" then pending else if HasResult(content) then pending - IdSet(ResultIds(content))
                  else if HasUse(content) then IdSet(UseIds(content)) - {""} else {};
      ItemsAppend(a[1..], b, next);
      var later := In.Items(b, PendingAfter(a[1..], next));
      AppendAssoc(In.Outputs(content, pending), In.Items(a[1..], next), later);
      AppendAssoc(In.CallItems(content) + In.TextItems(content), In.Items(a[1..], next), later);
    }
  }

  /** Where message i starts among the items. */
  function Place(ms: seq<Message>, i: nat): nat
    requires i <= |ms|
  {
    |In.Items(ms[..i], {})|
  }

  function OwnItems(m: Message, pending: set<string>): seq<In.Item> { In.Items([m], pending) }

  lemma ItemsAround(ms: seq<Message>, i: nat)
    requires i < |ms|
    ensures var own := OwnItems(ms[i], PendingAfter(ms[..i], {}));
            && Place(ms, i + 1) == Place(ms, i) + |own| <= |In.Items(ms, {})|
            && In.Items(ms, {})[Place(ms, i)..Place(ms, i + 1)] == own
  {
    var a, b := ms[..i], ms[i + 1..];
    assert ms == (a + [ms[i]]) + b && ms[..i + 1] == a + [ms[i]];
    ItemsAppend(a + [ms[i]], b, {});
    ItemsAppend(a, [ms[i]], {});
  }

  /** Every such message goes out in its place, saying what it says; system messages leave no item. */
  lemma MessageIsSaid(ms: seq<Message>, i: nat)
    requires i < |ms|
    ensures Place(ms, i) <= Place(ms, i + 1) <= |In.Items(ms, {})|
    ensures ms[i].role == "system" ==> Place(ms, i + 1) == Place(ms, i)
    ensures ms[i].role != "system" && !HasResult(ms[i].content) ==> Says(In.Items(ms, {})[Place(ms, i)..Place(ms, i + 1)], ms[i])
  {
    ItemsAround(ms, i);
    OwnSays(ms[i], PendingAfter(ms[..i], {}));
  }

  lemma OwnSays(m: Message, pending: set<string>)
    ensures m.role == "system" ==> OwnItems(m, pending) == []
    ensures m.role != "system" && !HasResult(m.content) ==> Says(OwnItems(m, pending), m)
  {
    assert [m][0] == m && [m][1..] == [];
    ContentIsSaid(m.content);
    if m.role == "system" {
      assert OwnItems(m, pending) == In.Items([m][1..], pending);
    } else if !HasResult(m.content) && HasUse(m.content) {
      OwnTurn(m, pending);
    } else if !HasResult(m.content) {
      var own := [In.InMessage(m.role, In.TextOf(m.content))];
      assert OwnItems(m, pending) == own + In.Items([m][1..], {});
      assert own + [] == own;
    }
  }

  lemma OwnTurn(m: Message, pending: set<string>)
    requires m.role != "system" && !HasResult(m.content) && HasUse(m.content)
    ensures OwnItems(m, pending) == In.CallItems(m.content) + In.TextItems(m.content)
  {
    var own := In.CallItems(m.content) + In.TextItems(m.content);
    assert [m][0] == m && [m][1..] == [];
    assert OwnItems(m, pending) == own + In.Items([m][1..], IdSet(UseIds(m.content)) - {""});
    assert own + [] == own;
  }

  /** An output carries the text of the first result with its id. */
  ghost predicate FirstResult(content: seq<Block>, j: nat, item: In.Item) {
    j < |content| && item.FunctionOutput? && content[j] == ToolResult(item.callId, item.output) &&
    forall k :: 0 <= k < j ==> !(content[k].ToolResult? && content[k].toolUseId == item.callId)
  }

  lemma {:induction false} OutputIsSaid(content: seq<Block>, pending: set<string>, k: nat) returns (j: nat)
    requires k < |In.Outputs(content, pending)|
    ensures In.Outputs(content, pending)[k].FunctionOutput? && In.Outputs(content, pending)[k].callId in pending
    ensures FirstResult(content, j, In.Outputs(content, pending)[k])
    decreases |content|
  {
    var b, rest := content[0], content[1..];
    if b.ToolResult? && b.toolUseId in pending {
      if k == 0 {
        j := 0;
      } else {
        var inner := OutputIsSaid(rest, pending - {b.toolUseId}, k - 1);
        j := inner + 1;
        assert forall x :: 0 < x <= inner + 1 ==> content[x] == rest[x - 1];
      }
    } else {
      var inner := OutputIsSaid(rest, pending, k);
      j := inner + 1;
      assert forall x :: 0 < x <= inner + 1 ==> content[x] == rest[x - 1];
    }
  }

  /** And outputs stand in the order of their results. */
  lemma {:induction false} OutputsInOrder(content: seq<Block>, pending: set<string>, k: nat, l: nat) returns (i: nat, j: nat)
    requires k < l < |In.Outputs(content, pending)|
    ensures i < j && FirstResult(content, i, In.Outputs(content, pending)[k]) && FirstResult(content, j, In.Outputs(content, pending)[l])
    decreases |content|
  {
    var b, rest := content[0], content[1..];
    var taken := b.ToolResult? && b.toolUseId in pending;
    var left := if taken then pending - {b.toolUseId} else pending;
    var i', j' := 0, 0;
    if taken && k == 0 {
      j' := OutputIsSaid(rest, left, l - 1);
      i, j := 0, j' + 1;
    } else {
      i', j' := OutputsInOrder(rest, left, if taken then k - 1 else k, if taken then l - 1 else l);
      OutputCarries(rest, left, if taken then k - 1 else k);
      OutputCarries(rest, left, if taken then l - 1 else l);
      i, j := i' + 1, j' + 1;
    }
    assert forall x :: 0 < x <= j ==> content[x] == rest[x - 1];
  }

  lemma OutputCarries(content: seq<Block>, pending: set<string>, k: nat)
    requires k < |In.Outputs(content, pending)|
    ensures In.Outputs(content, pending)[k].FunctionOutput? && In.Outputs(content, pending)[k].callId in pending
  {
    var _ := OutputIsSaid(content, pending, k);
  }

  lemma {:induction false} PendingAfterCall(ms: seq<Message>, pending: set<string>, i: nat)
    requires i < |ms| && ms[i].role != "system" && !HasResult(ms[i].content)
    ensures PendingAfter(ms[..i + 1], pending) == IdSet(UseIds(ms[i].content)) - {""}
    decreases i
  {
    var first := ms[..i + 1];
    var content := first[0].content;
    var next := if first[0].role == "system" then pending else if HasResult(content) then pending - IdSet(ResultIds(content))
                else if HasUse(content) then IdSet(UseIds(content)) - {""} else {};
    assert PendingAfter(first, pending) == PendingAfter(first[1..], next);
    if i > 0 {
      PendingAfterCall(ms[1..], next, i - 1);
      assert first[1..] == ms[1..][..i];
    } else {
      if !HasUse(content) { NoUseNoIds(content); }
      assert first[1..] == [];
    }
  }

  lemma {:induction false} NoUseNoIds(content: seq<Block>)
    requires !HasUse(content)
    ensures UseIds(content) == []
  {
    if content != [] {
      assert !HasUse(content[1..]);
      NoUseNoIds(content[1..]);
    }
  }

  /** The results right behind a message without results are sent in its turn: those of its calls, and no others. */
  lemma ResultsAreSent(ms: seq<Message>, i: nat)
    requires i + 1 < |ms| && ms[i].role != "system" && !HasResult(ms[i].content)
    requires ms[i + 1].role != "system" && HasResult(ms[i + 1].content)
    ensures Place(ms, i + 1) <= Place(ms, i + 2) <= |In.Items(ms, {})|
    ensures In.Items(ms, {})[Place(ms, i + 1)..Place(ms, i + 2)] == In.Outputs(ms[i + 1].content, IdSet(UseIds(ms[i].content)) - {""})
  {
    var m, pending := ms[i + 1], PendingAfter(ms[..i + 1], {});
    ItemsAround(ms, i + 1);
    PendingAfterCall(ms, {}, i);
    assert [m][0] == m && [m][1..] == [];
    assert OwnItems(m, pending) == In.Outputs(m.content, pending) + In.Items([m][1..], pending - IdSet(ResultIds(m.content)));
    assert In.Outputs(m.content, pending) + [] == In.Outputs(m.content, pending);
  }

  // ---------- the instructions ----------

  predicate Instructs(m: Message) { m.role == "system" && Together(m.content) != "" }

  function AllTexts(ms: seq<Message>): (r: seq<string>)
    ensures |r| == |ms| && forall i :: 0 <= i < |r| ==> r[i] == Together(ms[i].content)
  {
    seq(|ms|, i requires 0 <= i < |ms| => Together(ms[i].content))
  }

  lemma {:induction false} JoinedIsSome(texts: seq<string>, separator: string)
    requires texts != [] && forall i :: 0 <= i < |texts| ==> texts[i] != ""
    ensures Join(texts, separator) != ""
  {
    if |texts| > 1 { JoinedIsSome(texts[..|texts| - 1], separator); }
  }

  /** The instructions are the texts of the system messages that have any, with a blank line between each two. */
  lemma {:induction false} InstructionsAreJoined(ms: seq<Message>)
    ensures In.Instructions(ms) == Join(AllTexts(Filter(ms, Instructs)), "\n\n")
  {
    if ms != [] {
      InstructionsAreJoined(ms[..|ms| - 1]);
      ContentIsSaid(ms[|ms| - 1].content);
      InstructionsLast(ms, "\n\n");
    }
  }

  lemma InstructionsLast(ms: seq<Message>, separator: string)
    requires ms != []
    ensures var before, last := Join(AllTexts(Filter(ms[..|ms| - 1], Instructs)), separator), ms[|ms| - 1];
            Join(AllTexts(Filter(ms, Instructs)), separator) ==
              if !Instructs(last) then before else (if before == "" then "" else before + separator) + Together(last.content)
  {
    assert ms == ms[..|ms| - 1] + [ms[|ms| - 1]];
    InstructionsSnoc(ms[..|ms| - 1], ms[|ms| - 1], separator);
  }

  lemma InstructionsSnoc(ms: seq<Message>, last: Message, separator: string)
    ensures var before := Join(AllTexts(Filter(ms, Instructs)), separator);
            Join(AllTexts(Filter(ms + [last], Instructs)), separator) ==
              if !Instructs(last) then before else (if before == "" then "" else before + separator) + Together(last.content)
  {
    var some := Filter(ms, Instructs);
    FilterSnoc(ms, last, Instructs);
    if Instructs(last) {
      AllTextsSnoc(some, last);
      if some != [] {
        InstructingIsSome(ms, separator);
        JoinSnoc(AllTexts(some), Together(last.content), separator);
      } else {
        assert [] + [Together(last.content)] == [Together(last.content)];
      }
    }
  }

  lemma AllTextsSnoc(ms: seq<Message>, last: Message)
    ensures AllTexts(ms + [last]) == AllTexts(ms) + [Together(last.content)]
  {
  }

  lemma InstructingIsSome(ms: seq<Message>, separator: string)
    requires Filter(ms, Instructs) != []
    ensures Join(AllTexts(Filter(ms, Instructs)), separator) != ""
  {
    var some := Filter(ms, Instructs);
    FilterOnly(ms, Instructs);
    forall i | 0 <= i < |some| ensures AllTexts(some)[i] != "" {
      assert some[i] in some;
    }
    JoinedIsSome(AllTexts(some), separator);
  }

  // ---------- the stream ----------

  function Payloads(lines: seq<string>): (r: seq<string>)
    ensures |r| == |lines| && forall i :: 0 <= i < |r| ==> r[i] == if DataField(lines[i]).Some? then DataField(lines[i]).value else ""
  {
    seq(|lines|, i requires 0 <= i < |lines| => if DataField(lines[i]).Some? then DataField(lines[i]).value else "")
  }

  /** The data of a record are the data fields of its lines, in order. */
  lemma {:induction false} DataIsJoined(lines: seq<string>)
    ensures Out.Payloads(lines) == Join(Payloads(lines), "")
  {
    if lines != [] {
      var first, rest := Out.Payload(lines[0]), lines[1..];
      DataIsJoined(rest);
      assert Payloads(lines) == [first] + Payloads(rest);
      if rest != [] {
        JoinFirst(first, Payloads(rest), "");
        assert first + "" == first;
      } else {
        assert Payloads(rest) == [] && [first] + [] == [first] && first + "" == first;
      }
    }
  }

  function RunEvents(s: Out.State, events: seq<Out.Event>): Out.State {
    if events == [] then s else Out.Handle(RunEvents(s, events[..|events| - 1]), events[|events| - 1])
  }

  /** Events that say nothing about a pending item, and are no failure. */
  predicate Elsewhere(e: Out.Event, item: string) {
    match e
    case Failure(_) => false
    case ItemAdded(i, _, _) => i != item
    case ArgumentsDone(i, _, _, _) => i != item
    case _ => true
  }

  lemma {:induction false} ItemStays(s: Out.State, events: seq<Out.Event>, item: string)
    requires item in s.pending && forall i :: 0 <= i < |events| ==> Elsewhere(events[i], item)
    ensures var after := RunEvents(s, events); item in after.pending && after.pending[item] == s.pending[item] && after.error == s.error
  {
    if events != [] { ItemStays(s, events[..|events| - 1], item); }
  }

  /**
    A call that is announced, and whose arguments arrive later, whatever else
    comes between: it is handed out with the id and name announced unless new
    ones come with the arguments, and is pending no more.
   */
  lemma AnnouncedCall(s: Out.State, item: string, id: string, name: string, between: seq<Out.Event>,
                      newId: Option<string>, newName: Option<string>, arguments: Json)
    requires forall i :: 0 <= i < |between| ==> Elsewhere(between[i], item)
    ensures var before := RunEvents(Out.Handle(s, Out.ItemAdded(item, id, name)), between);
            var after := Out.Handle(before, Out.ArgumentsDone(item, newId, newName, arguments));
            && item !in after.pending && after.error == s.error
            && |after.outputs| == |before.outputs| + 1 && before.outputs <= after.outputs
            && after.outputs[|before.outputs|] ==
                 Out.CallOut(ToolCall(if newId.Some? then newId.value else id, if newName.Some? then newName.value else name, arguments))
  {
    ItemStays(Out.Handle(s, Out.ItemAdded(item, id, name)), between, item);
  }

  /** Arguments that no item was announced for make a call of what they bring themselves. */
  lemma UnannouncedCall(s: Out.State, item: string, id: Option<string>, name: Option<string>, arguments: Json)
    requires item !in s.pending
    ensures var after := Out.Handle(s, Out.ArgumentsDone(item, id, name, arguments));
            after == s.(outputs := s.outputs + [Out.CallOut(ToolCall(if id.Some? then id.value else "", if name.Some? then name.value else "", arguments))])
  {
    assert s.pending - {item} == s.pending;
  }

  /** A failure ends the stream: whatever records follow, its message stays and nothing more is handed out. */
  lemma {:induction false} FailureStops(parse: string -> Option<Out.Event>, s: Out.State, message: string, records: seq<string>)
    ensures Out.Run(parse, Out.Handle(s, Out.Failure(message)), records) == s.(error := Some(message))
    decreases |records|
  {
    if records != [] { FailureStops(parse, s, message, records[1..]); }
  }

  /** Texts are handed out as they come, and the end with its reason. */
  lemma TextAndEnd(s: Out.State, text: string, reason: string, usage: Json)
    ensures text != "" ==> Out.Handle(s, Out.TextDelta(text)) == s.(outputs := s.outputs + [Out.TextOut(text)])
    ensures Out.Handle(s, Out.TextDelta("")) == s
    ensures Out.Handle(s, Out.Finished(reason, usage)) == s.(outputs := s.outputs + [Out.EndOut(reason, usage)])
  {
  }
}
