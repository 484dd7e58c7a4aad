/**
  What a streamed reply adds up to: no text is lost or reordered, and a tool call
  is put together from exactly the deltas of its index.
 */
module OpenAIStreamContents {
  import opened Basics
  import opened Text
  import opened Normalize
  import opened NormalizeContents
  import opened Framing
  import opened OpenAIStream
  import opened OpenAIStreamTheorems

  // ---------- tool-call fragments ----------

  /** The fragment at an index; a slot never touched is empty. */
  function Slot(pending: seq<Fragment>, i: nat): Fragment { if i < |pending| then pending[i] else Fragment(0, "", "", "") }

  /** The deltas of one index, in order. */
  function Mine(ds: seq<CallDelta>, i: int): seq<CallDelta> { Filter(ds, (d: CallDelta) => d.index == i) }

  function Given(o: Option<string>): string { if o.Some? then o.value else "" }

  function Arguments(ds: seq<CallDelta>): (r: seq<string>)
    ensures |r| == |ds| && forall k :: 0 <= k < |r| ==> r[k] == Given(ds[k].arguments)
  {
    seq(|ds|, k requires 0 <= k < |ds| => Given(ds[k].arguments))
  }

  /** v is the last value given, or the default if none is. */
  predicate LastGiven(given: seq<Option<string>>, default: string, v: string) {
    || (v == default && forall k :: 0 <= k < |given| ==> given[k].None?)
    || exists k :: 0 <= k < |given| && given[k] == Some(v) && forall j :: k < j < |given| ==> given[j].None?
  }

  function IdsGiven(ds: seq<CallDelta>): (r: seq<Option<string>>)
    ensures |r| == |ds| && forall k :: 0 <= k < |r| ==> r[k] == ds[k].id
  {
    seq(|ds|, k requires 0 <= k < |ds| => ds[k].id)
  }

  function NamesGiven(ds: seq<CallDelta>): (r: seq<Option<string>>)
    ensures |r| == |ds| && forall k :: 0 <= k < |r| ==> r[k] == ds[k].name
  {
    seq(|ds|, k requires 0 <= k < |ds| => ds[k].name)
  }

  /** A slot after some deltas of its index. */
  ghost predicate AddsUp(before: Fragment, ds: seq<CallDelta>, after: Fragment, i: nat) {
    && after.arguments == before.arguments + Join(Arguments(ds), "")
    && LastGiven(IdsGiven(ds), before.id, after.id) && LastGiven(NamesGiven(ds), before.name, after.name)
    && (if ds == [] then after == before else after.index == i)
  }

  lemma LastGivenSnoc(given: seq<Option<string>>, default: string, v: string, next: Option<string>)
    requires LastGiven(given, default, v)
    ensures LastGiven(given + [next], default, Or(next, v))
  {
    var all := given + [next];
    if next.Some? {
      assert all[|given|] == Some(next.value);
    } else if !(v == default && forall k :: 0 <= k < |given| ==> given[k].None?) {
      var k :| 0 <= k < |given| && given[k] == Some(v) && forall j :: k < j < |given| ==> given[j].None?;
      assert all[k] == Some(v) && forall j :: k < j < |all| ==> all[j].None?;
    }
  }

  lemma AddsUpSnoc(before: Fragment, ds: seq<CallDelta>, f: Fragment, d: CallDelta, i: nat)
    requires AddsUp(before, ds, f, i)
    ensures AddsUp(before, ds + [d], Fragment(i, Or(d.id, f.id), Or(d.name, f.name), f.arguments + Or(d.arguments, "")), i)
  {
    assert IdsGiven(ds + [d]) == IdsGiven(ds) + [d.id] && NamesGiven(ds + [d]) == NamesGiven(ds) + [d.name];
    LastGivenSnoc(IdsGiven(ds), before.id, f.id, d.id);
    LastGivenSnoc(NamesGiven(ds), before.name, f.name, d.name);
    assert Arguments(ds + [d]) == Arguments(ds) + [Given(d.arguments)];
    if ds != [] {
      JoinSnoc(Arguments(ds), Given(d.arguments), "");
      AppendAssoc(before.arguments, Join(Arguments(ds), ""), Given(d.arguments));
    }
  }

  lemma {:induction false} ResizedSlot(pending: seq<Fragment>, size: nat, i: nat)
    ensures Slot(Resized(pending, size), i) == Slot(pending, i)
    decreases size - |pending|
  {
    if |pending| < size { ResizedSlot(pending + [Fragment(0, "", "", "")], size, i); }
  }

  /** One delta touches the slot of its index and no other. */
  lemma AddCallSlot(pending: seq<Fragment>, d: CallDelta, i: nat)
    ensures var f := Slot(pending, i);
            Slot(AddCall(pending, d), i) ==
              if d.index == i && i < MAX_INDEX then Fragment(i, Or(d.id, f.id), Or(d.name, f.name), f.arguments + Or(d.arguments, "")) else f
  {
    if 0 <= d.index < MAX_INDEX {
      ResizedSlot(pending, d.index + 1, i);
      ResizedSlot(pending, d.index + 1, d.index);
    }
  }

  /**
    After any deltas, the slot of an index below 256 holds its old arguments and
    those of the deltas of that index in order, and the last id and name given
    for it; deltas of other indices do not touch it.
   */
  lemma {:induction false} SlotAddsUp(pending: seq<Fragment>, ds: seq<CallDelta>, i: nat)
    requires i < MAX_INDEX
    ensures AddsUp(Slot(pending, i), Mine(ds, i), Slot(AddCalls(pending, ds), i), i)
  {
    if ds != [] {
      var init, d := ds[..|ds| - 1], ds[|ds| - 1];
      SlotAddsUp(pending, init, i);
      AddCallSlot(AddCalls(pending, init), d, i);
      if d.index == i {
        AddsUpSnoc(Slot(pending, i), Mine(init, i), Slot(AddCalls(pending, init), i), d, i);
      } else {
        assert Mine(init, i) + [] == Mine(init, i);
      }
    }
  }

  /** Slots from 256 on are never touched. */
  lemma {:induction false} HighSlots(pending: seq<Fragment>, ds: seq<CallDelta>, i: nat)
    requires i >= MAX_INDEX
    ensures Slot(AddCalls(pending, ds), i) == Slot(pending, i)
  {
    if ds != [] {
      HighSlots(pending, ds[..|ds| - 1], i);
      AddCallSlot(AddCalls(pending, ds[..|ds| - 1]), ds[|ds| - 1], i);
    }
  }

  // ---------- texts over a whole stream ----------

  predicate IsContent(o: Output) { o.Content? }

  predicate IsReasoning(o: Output) { o.Reasoning? }

  function WordsOf(o: Output): string { if o.Content? || o.Reasoning? then o.text else "" }

  function AllWords(os: seq<Output>): (r: seq<string>)
    ensures |r| == |os| && forall i :: 0 <= i < |r| ==> r[i] == WordsOf(os[i])
  {
    seq(|os|, i requires 0 <= i < |os| => WordsOf(os[i]))
  }

  /** The text handed to the caller in outputs of one kind. */
  function Said(os: seq<Output>, kind: Output -> bool): string { Join(AllWords(Filter(os, kind)), "") }

  lemma AllWordsSnoc(os: seq<Output>, o: Output)
    ensures AllWords(os + [o]) == AllWords(os) + [WordsOf(o)]
  {
  }

  lemma SaidSnoc(os: seq<Output>, o: Output, kind: Output -> bool)
    ensures Said(os + [o], kind) == Said(os, kind) + if kind(o) then WordsOf(o) else ""
  {
    var before := Filter(os, kind);
    FilterSnoc(os, o, kind);
    if kind(o) {
      AllWordsSnoc(before, o);
      if before != [] {
        JoinSnoc(AllWords(before), WordsOf(o), "");
      } else {
        assert [] + [WordsOf(o)] == [WordsOf(o)];
      }
    }
  }

  /** What a line brings: content, and both kinds of reasoning. */
  function ContentIn(env: Env, line: string): string {
    var d := DeltaOf(env, line);
    if d.None? then "" else d.value.content
  }

  function ReasoningIn(env: Env, line: string): string {
    var d := DeltaOf(env, line);
    if d.None? then "" else d.value.reasoningContent + d.value.reasoning
  }

  function ContentsOf(env: Env, lines: seq<string>): (r: seq<string>)
    ensures |r| == |lines| && forall i :: 0 <= i < |r| ==> r[i] == ContentIn(env, lines[i])
  {
    seq(|lines|, i requires 0 <= i < |lines| => ContentIn(env, lines[i]))
  }

  function ReasoningsOf(env: Env, lines: seq<string>): (r: seq<string>)
    ensures |r| == |lines| && forall i :: 0 <= i < |r| ==> r[i] == ReasoningIn(env, lines[i])
  {
    seq(|lines|, i requires 0 <= i < |lines| => ReasoningIn(env, lines[i]))
  }

  lemma FlushSays(s: State, nz: Normalizer, keep: bool)
    ensures Said(Flush(s, nz, keep).outputs, IsContent) == Said(s.outputs, IsContent)
    ensures Said(Flush(s, nz, keep).outputs, IsReasoning) == Said(s.outputs, IsReasoning)
  {
    var calls := Emit(s.pending, nz, s.seen).0;
    if calls != [] {
      SaidSnoc(s.outputs, Calls(calls), IsContent);
      SaidSnoc(s.outputs, Calls(calls), IsReasoning);
    } else {
      assert s.outputs + [] == s.outputs;
    }
  }

  /** A text comes out unless it is empty. */
  lemma MaybeSays(os: seq<Output>, o: Output, kind: Output -> bool)
    requires o.Content? || o.Reasoning?
    ensures Said(os + if o.text != "" then [o] else [], kind) == Said(os, kind) + if kind(o) then o.text else ""
  {
    if o.text != "" {
      SaidSnoc(os, o, kind);
    } else {
      assert os + [] == os;
    }
  }

  lemma TextsSay(os: seq<Output>, d: Delta)
    ensures Said(os + Texts(d), IsContent) == Said(os, IsContent) + d.content
    ensures Said(os + Texts(d), IsReasoning) == Said(os, IsReasoning) + (d.reasoningContent + d.reasoning)
  {
    var a: seq<Output> := if d.content != "" then [Content(d.content)] else [];
    var b: seq<Output> := if d.reasoningContent != "" then [Reasoning(d.reasoningContent)] else [];
    var c: seq<Output> := if d.reasoning != "" then [Reasoning(d.reasoning)] else [];
    assert Texts(d) == (a + b) + c;
    AppendAssoc(os, a + b, c);
    AppendAssoc(os, a, b);
    TextsSayKind(os, d, a, b, c, IsContent);
    TextsSayKind(os, d, a, b, c, IsReasoning);
    AppendAssoc(Said(os, IsReasoning), d.reasoningContent, d.reasoning);
    AppendNothing(Said(os, IsContent) + d.content);
    AppendNothing(Said(os, IsReasoning));
  }

  lemma AppendNothing(s: string)
    ensures s + "" == s
  {
  }

  lemma TextsSayKind(os: seq<Output>, d: Delta, a: seq<Output>, b: seq<Output>, c: seq<Output>, kind: Output -> bool)
    requires a == (if d.content != "" then [Content(d.content)] else [])
    requires b == (if d.reasoningContent != "" then [Reasoning(d.reasoningContent)] else [])
    requires c == (if d.reasoning != "" then [Reasoning(d.reasoning)] else [])
    ensures Said(((os + a) + b) + c, kind) ==
            ((Said(os, kind) + (if kind(Content(d.content)) then d.content else ""))
             + (if kind(Reasoning(d.reasoningContent)) then d.reasoningContent else ""))
            + (if kind(Reasoning(d.reasoning)) then d.reasoning else "")
  {
    MaybeSays(os, Content(d.content), kind);
    MaybeSays(os + a, Reasoning(d.reasoningContent), kind);
    MaybeSays((os + a) + b, Reasoning(d.reasoning), kind);
  }

  lemma StepSays(env: Env, s: State, line: string)
    ensures Said(Step(env, s, line).outputs, IsContent) == Said(s.outputs, IsContent) + ContentIn(env, line)
    ensures Said(Step(env, s, line).outputs, IsReasoning) == Said(s.outputs, IsReasoning) + ReasoningIn(env, line)
  {
    var d := DeltaOf(env, line);
    AppendNothing(Said(s.outputs, IsContent));
    AppendNothing(Said(s.outputs, IsReasoning));
    if IsDone(line) {
      FlushSays(s, env.nz, false);
      SaidSnoc(Flush(s, env.nz, false).outputs, End, IsContent);
      SaidSnoc(Flush(s, env.nz, false).outputs, End, IsReasoning);
    } else if d.Some? {
      TextsSay(s.outputs, d.value);
      FlushSays(s.(outputs := s.outputs + Texts(d.value), pending := AddCalls(s.pending, d.value.calls)), env.nz, true);
    }
  }

  lemma JoinWithNext(texts: seq<string>, text: string)
    ensures Join(texts + [text], "") == Join(texts, "") + text
  {
    if texts != [] { JoinSnoc(texts, text, ""); }
  }

  /** Over any lines, the contents handed out are the contents received, in order, and so is the reasoning. */
  lemma {:induction false} TextsAreKept(env: Env, lines: seq<string>)
    ensures Said(Run(env, lines).outputs, IsContent) == Join(ContentsOf(env, lines), "")
    ensures Said(Run(env, lines).outputs, IsReasoning) == Join(ReasoningsOf(env, lines), "")
  {
    if lines == [] {
      assert Filter([], IsContent) == [] && Filter([], IsReasoning) == [];
    } else {
      var init, last := lines[..|lines| - 1], lines[|lines| - 1];
      TextsAreKept(env, init);
      StepSays(env, Run(env, init), last);
      LinesSnoc(env, lines);
      JoinWithNext(ContentsOf(env, init), ContentIn(env, last));
      JoinWithNext(ReasoningsOf(env, init), ReasoningIn(env, last));
    }
  }

  lemma LinesSnoc(env: Env, lines: seq<string>)
    requires lines != []
    ensures var init, last := lines[..|lines| - 1], lines[|lines| - 1];
            && ContentsOf(env, lines) == ContentsOf(env, init) + [ContentIn(env, last)]
            && ReasoningsOf(env, lines) == ReasoningsOf(env, init) + [ReasoningIn(env, last)]
  {
  }

  // ---------- one line ----------

  /** A delta hands out its content, then its reasoning, then its other reasoning, each unless it is empty. */
  lemma TextsInOrder(d: Delta)
    ensures Texts(d) == Filter([Content(d.content), Reasoning(d.reasoningContent), Reasoning(d.reasoning)], IsSpoken)
  {
    var a, b, c := Content(d.content), Reasoning(d.reasoningContent), Reasoning(d.reasoning);
    assert [a, b, c] == ([a] + [b]) + [c] && [a][..0] == [] && [b][..0] == [] && [c][..0] == [];
    FilterAppend([a] + [b], [c], IsSpoken);
    FilterAppend([a], [b], IsSpoken);
  }

  predicate IsSpoken(o: Output) { WordsOf(o) != "" }

  /** Flushing hands out the complete calls in one output, if there are any, and keeps the others only if told to. */
  lemma FlushHandsOut(s: State, nz: Normalizer, keep: bool)
    ensures var complete := Filter(s.pending, f => Complete(f, nz) == true);
            var after := Flush(s, nz, keep);
            && (if complete == [] then after.outputs == s.outputs
                else |after.outputs| == |s.outputs| + 1 && s.outputs <= after.outputs &&
                     after.outputs[|s.outputs|].Calls? && AllCarry(after.outputs[|s.outputs|].calls, complete, nz, s.seen))
            && after.pending == if keep then Filter(s.pending, f => Complete(f, nz) == false) else []
  {
    EmittedInTurn(s.pending, nz, s.seen);
    CompletesIsFilter(s.pending, nz, true);
    CompletesIsFilter(s.pending, nz, false);
  }

  /**
    Texts come before the calls of the same line; its deltas are added to the
    fragments before a tool-call finish hands out calls; and a [DONE] line ends
    with the end of the stream.
   */
  lemma LineInOrder(env: Env, s: State, line: string)
    ensures var d := DeltaOf(env, line);
            d.Some? ==>
              var added := AddCalls(s.pending, d.value.calls);
              Step(env, s, line).pending == if d.value.finish == "tool_calls" then Filter(added, f => Complete(f, env.nz) == false) else added
    ensures var after, d := Step(env, s, line).outputs, DeltaOf(env, line);
            && (d.Some? ==> s.outputs + Texts(d.value) <= after)
            && (d.Some? && d.value.finish != "tool_calls" ==> after == s.outputs + Texts(d.value))
            && (IsDone(line) ==> after == Flush(s, env.nz, false).outputs + [End])
            && (!IsDone(line) && d.None? ==> after == s.outputs)
  {
    var d := DeltaOf(env, line);
    if d.Some? { CompletesIsFilter(AddCalls(s.pending, d.value.calls), env.nz, false); }
  }
}
