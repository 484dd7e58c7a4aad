/**
  Messages exchanged with a model, and the shape a transcript must keep so that
  it can be replayed to a provider: plain messages, tool turns whose results
  answer exactly the calls made, and result messages whose call was cut away.
 */
module Transcript {
  import opened Text

  /** A JSON value, told apart as far as the code tells it apart. */
  datatype Json =
    | Null
    | Str(text: string)
    | Structured(text: string) // object or array, by its dump
    | Scalar(text: string)     // number or boolean, by its dump
  {
    function Dump(): string {
      match this
      case Null => "null"
      case Str(s) => "\"" + s + "\""
      case Structured(s) => s
      case Scalar(s) => s
    }
  }

  const EMPTY_OBJECT := Structured("{}")

  datatype Block =
    | TextBlock(text: string)
    | Thinking(text: string)
    | ToolUse(id: string, name: string, input: Json)
    | ToolResult(toolUseId: string, content: string)
    | OtherBlock(kind: string)

  datatype Message = Message(role: string, content: seq<Block>)

  /** Message{role, text}: an empty text leaves the content empty. */
  function TextMessage(role: string, text: string): Message {
    Message(role, if text == "" then [] else [TextBlock(text)])
  }

  function UseIds(content: seq<Block>): seq<string> {
    if content == [] then []
    else (if content[0].ToolUse? then [content[0].id] else []) + UseIds(content[1..])
  }

  function ResultIds(content: seq<Block>): seq<string> {
    if content == [] then []
    else (if content[0].ToolResult? then [content[0].toolUseId] else []) + ResultIds(content[1..])
  }

  predicate HasUse(content: seq<Block>) { exists i :: 0 <= i < |content| && content[i].ToolUse? }

  predicate HasResult(content: seq<Block>) { exists i :: 0 <= i < |content| && content[i].ToolResult? }

  predicate Distinct<T(==)>(s: seq<T>) {
    forall i, j :: 0 <= i < j < |s| ==> s[i] != s[j]
  }

  /** Ids a provider can be asked to match: trimmed, not blank, no two alike. */
  predicate Hygienic(ids: seq<string>) {
    Distinct(ids) && forall i :: 0 <= i < |ids| ==> IsClean(ids[i])
  }

  predicate IsPlain(m: Message) { !HasUse(m.content) && !HasResult(m.content) }

  predicate IsResults(m: Message) {
    m.role == "user" && m.content != [] && forall i :: 0 <= i < |m.content| ==> m.content[i].ToolResult?
  }

  predicate IsCall(m: Message) {
    m.role == "assistant" && HasUse(m.content) && !HasResult(m.content) && Hygienic(UseIds(m.content))
  }

  /** r carries one result for each call of m, in order. */
  predicate Answers(r: Message, m: Message) {
    IsResults(r) && ResultIds(r.content) == UseIds(m.content)
  }

  /** Plain messages, answered tool turns and orphaned results, in any order. */
  predicate Replayable(ms: seq<Message>) {
    ms == [] ||
    (if IsCall(ms[0]) then |ms| >= 2 && Answers(ms[1], ms[0]) && Replayable(ms[2..])
     else (IsPlain(ms[0]) || IsResults(ms[0])) && Replayable(ms[1..]))
  }

  lemma ResultsAreNotCalls(m: Message)
    requires IsResults(m)
    ensures !IsCall(m) && !IsPlain(m)
  {
    assert m.content[0].ToolResult?;
  }

  /** Cutting messages off the front of a transcript keeps it replayable. */
  lemma {:induction false} SuffixReplayable(ms: seq<Message>, k: nat)
    requires Replayable(ms) && k <= |ms|
    ensures Replayable(ms[k..])
  {
    if k == 0 {
      assert ms[0..] == ms;
    } else if IsCall(ms[0]) {
      if k == 1 {
        ResultsAreNotCalls(ms[1]);
        assert ms[1..][1..] == ms[2..];
      } else {
        SuffixReplayable(ms[2..], k - 2);
        assert ms[2..][k - 2..] == ms[k..];
      }
    } else {
      SuffixReplayable(ms[1..], k - 1);
      assert ms[1..][k - 1..] == ms[k..];
    }
  }

  lemma {:induction false} AppendReplayable(a: seq<Message>, b: seq<Message>)
    requires Replayable(a) && Replayable(b)
    ensures Replayable(a + b)
  {
    if a == [] {
      assert a + b == b;
    } else if IsCall(a[0]) {
      AppendReplayable(a[2..], b);
      assert (a + b)[2..] == a[2..] + b;
    } else {
      AppendReplayable(a[1..], b);
      assert (a + b)[1..] == a[1..] + b;
    }
  }

  lemma {:induction false} PlainReplayable(ms: seq<Message>)
    requires forall m :: m in ms ==> IsPlain(m)
    ensures Replayable(ms)
  {
    if ms != [] {
      assert ms[0] in ms;
      PlainReplayable(ms[1..]);
    }
  }

  lemma TextMessageIsPlain(role: string, text: string)
    ensures IsPlain(TextMessage(role, text))
  {
  }

  /** A called-and-answered turn on its own. */
  lemma PairReplayable(call: Message, results: Message)
    requires IsCall(call) && Answers(results, call)
    ensures Replayable([call, results])
  {
    assert [call, results][2..] == [];
  }

  // ---------- rewriting the contents of tool results ----------

  /** b is a, with at most the text of a tool result replaced. */
  predicate SameBlock(a: Block, b: Block) {
    if a.ToolResult? then b.ToolResult? && b.toolUseId == a.toolUseId else b == a
  }

  predicate SameShape(a: Message, b: Message) {
    a.role == b.role && |a.content| == |b.content| &&
    forall i :: 0 <= i < |a.content| ==> SameBlock(a.content[i], b.content[i])
  }

  lemma {:induction false} SameIds(a: seq<Block>, b: seq<Block>)
    requires |a| == |b| && forall i :: 0 <= i < |a| ==> SameBlock(a[i], b[i])
    ensures UseIds(a) == UseIds(b) && ResultIds(a) == ResultIds(b)
  {
    if a != [] {
      assert SameBlock(a[0], b[0]);
      SameIds(a[1..], b[1..]);
    }
  }

  lemma SameClass(a: Message, b: Message)
    requires SameShape(a, b)
    ensures IsPlain(a) ==> IsPlain(b)
    ensures IsCall(a) <==> IsCall(b)
    ensures IsResults(a) ==> IsResults(b)
  {
    SameIds(a.content, b.content);
    assert forall i :: 0 <= i < |a.content| ==>
      SameBlock(a.content[i], b.content[i]) &&
      a.content[i].ToolUse? == b.content[i].ToolUse? && a.content[i].ToolResult? == b.content[i].ToolResult?;
  }

  /** Rewriting result texts keeps a transcript replayable. */
  lemma {:induction false} SameShapeReplayable(a: seq<Message>, b: seq<Message>)
    requires Replayable(a) && |a| == |b|
    requires forall i :: 0 <= i < |a| ==> SameShape(a[i], b[i])
    ensures Replayable(b)
  {
    if a != [] {
      SameClass(a[0], b[0]);
      if IsCall(a[0]) {
        SameClass(a[1], b[1]);
        SameIds(a[0].content, b[0].content);
        SameIds(a[1].content, b[1].content);
        SameShapeReplayable(a[2..], b[2..]);
      } else {
        SameShapeReplayable(a[1..], b[1..]);
      }
    }
  }
}
