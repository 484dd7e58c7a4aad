/**
  Repair of tool calls: unique ids, resolved names, structured arguments
  (src/providers/stream_normalization.cpp).
 */
module Normalize {
  import opened Basics
  import opened Text
  import opened Transcript

  const MAX_NAME_CHARS := 64

  /**
    What a normalization context does to one call. Name resolution and argument
    parsing rest on regular expressions and a JSON library; they are arbitrary
    functions here, so every result holds whatever they return.
   */
  datatype Normalizer = Normalizer(
    resolve: (string, string) -> string, // (raw name, raw id) to a name
    decode: Json -> Json,                // HTML-entity decoding, identity when off
    parse: string -> Json                // argument text to a value, Null when hopeless
  )

  function Fallback(ordinal: nat): string {
    "call_auto_" + ToDecimal(ordinal)
  }

  lemma FallbackInjective(m: nat, n: nat)
    requires Fallback(m) == Fallback(n)
    ensures m == n
  {
    assert Fallback(m)[10..] == ToDecimal(m) && Fallback(n)[10..] == ToDecimal(n);
    DecimalInjective(m, n);
  }

  lemma FallbackIsClean(n: nat)
    ensures IsClean(Fallback(n)) && HasNonWhitespace(Fallback(n))
  {
    var d := ToDecimal(n);
    assert Fallback(n)[0] == 'c' && Fallback(n)[|Fallback(n)| - 1] == d[|d| - 1];
    CleanIsFixed(Fallback(n));
  }

  /**
    The least ordinal from n on whose fallback id is free. The ids already
    tried are distinct members of seen, so the search meets a free one within
    |seen| + 1 probes.
   */
  function FirstFree(seen: set<string>, n: nat, ghost tried: set<string>): (r: nat)
    requires tried <= seen
    requires forall i: nat :: Fallback(i) in tried ==> i < n
    ensures n <= r <= n + |seen| - |tried|
    ensures Fallback(r) !in seen
    ensures forall i :: n <= i < r ==> Fallback(i) in seen
    decreases |seen| - |tried|
  {
    assert |tried| + |seen - tried| == |seen|;
    if Fallback(n) !in seen then n
    else
      assert tried + {Fallback(n)} <= seen && |tried + {Fallback(n)}| == |tried| + 1;
      assert |tried + {Fallback(n)}| + |seen - (tried + {Fallback(n)})| == |seen|;
      assert forall i: nat :: Fallback(i) in tried + {Fallback(n)} ==> i < n + 1 by {
        forall i: nat | Fallback(i) == Fallback(n) ensures i == n { FallbackInjective(i, n); }
      }
      FirstFree(seen, n + 1, tried + {Fallback(n)})
  }

  /** The id given to a call that prefers `preferred` when `seen` are taken. */
  function Uniquify(preferred: string, seen: set<string>): (id: string)
    ensures id !in seen && HasNonWhitespace(id)
    ensures IsClean(preferred) || preferred == "" ==> IsClean(id)
  {
    if HasNonWhitespace(preferred) && preferred !in seen then preferred
    else
      FallbackIsClean(FirstFree(seen, |seen| + 1, {}));
      Fallback(FirstFree(seen, |seen| + 1, {}))
  }

  /** The id given to a call when its caller shares a set of seen ids, or shares none. */
  function GivenId(preferred: string, seen: Option<set<string>>): string {
    if seen.None? then preferred else Uniquify(preferred, seen.value)
  }

  /** The seen ids once this one is taken. */
  function Taken(seen: Option<set<string>>, id: string): Option<set<string>> {
    if seen.None? then None else Some(seen.value + {id})
  }

  /** The insertion loop of the source: probes, inserts, and always terminates. */
  method EnsureUniqueToolCallId(preferred: string, seen: Option<set<string>>) returns (id: string, seen': Option<set<string>>)
    ensures id == GivenId(preferred, seen) && seen' == Taken(seen, id)
  {
    if seen.None? {
      return preferred, None;
    }
    var ids := seen.value;
    id := preferred;
    var ordinal := |ids| + 1;
    ghost var free := FirstFree(ids, ordinal, {});
    if !HasNonWhitespace(id) {
      id := Fallback(ordinal);
    }
    if id !in ids {
      return id, Some(ids + {id});
    }
    id := Fallback(ordinal);
    ordinal := ordinal + 1;
    while id in ids
      invariant |ids| + 1 < ordinal <= free + 1 && id == Fallback(ordinal - 1)
      decreases free + 1 - ordinal
    {
      id := Fallback(ordinal);
      ordinal := ordinal + 1;
    }
    seen' := Some(ids + {id});
  }

  // ---------- replayed assistant messages ----------

  /** The tool_use block with its name resolved and its input repaired. */
  function Repair(b: Block, nz: Normalizer): (r: Block)
    requires b.ToolUse?
    ensures r.ToolUse? && r.id == b.id && !r.input.Null?
  {
    var input := nz.decode(b.input);
    ToolUse(b.id, nz.resolve(b.name, b.id), if input.Null? then EMPTY_OBJECT else input)
  }

  /** A name a provider accepts in a replayed call. */
  predicate GoodName(name: string) {
    HasNonWhitespace(name) && |name| <= MAX_NAME_CHARS &&
    forall c :: c in name ==> c != ' ' && c != '\t' && c != '\r' && c != '\n'
  }

  predicate Survives(b: Block, nz: Normalizer) {
    b.ToolUse? ==> GoodName(Repair(b, nz).name)
  }

  /** What remains of a tool_use block once it has been given an id. */
  function KeptUse(b: Block, id: string, nz: Normalizer): seq<Block>
    requires b.ToolUse?
  {
    if Survives(b, nz) then [ToolUse(id, Repair(b, nz).name, Repair(b, nz).input)] else []
  }

  function SanitizeBlocks(content: seq<Block>, seen: set<string>, nz: Normalizer): seq<Block> {
    if content == [] then []
    else if !content[0].ToolUse? then [content[0]] + SanitizeBlocks(content[1..], seen, nz)
    else
      var id := Uniquify(Trim(content[0].id), seen);
      KeptUse(content[0], id, nz) + SanitizeBlocks(content[1..], seen + {id}, nz)
  }

  function Sanitize(m: Message, nz: Normalizer): Message {
    if m.role != "assistant" then m else m.(content := SanitizeBlocks(m.content, {}, nz))
  }

  function SanitizeAll(ms: seq<Message>, nz: Normalizer): seq<Message> {
    seq(|ms|, i requires 0 <= i < |ms| => Sanitize(ms[i], nz))
  }

  /** The block loop for one assistant message, with its own set of seen ids. */
  method SanitizeContent(content: seq<Block>, nz: Normalizer) returns (sanitized: seq<Block>)
    ensures sanitized == SanitizeBlocks(content, {}, nz)
  {
    sanitized := [];
    var seen: set<string> := {};
    for j := 0 to |content|
      invariant sanitized + SanitizeBlocks(content[j..], seen, nz) == SanitizeBlocks(content, {}, nz)
    {
      var block := content[j];
      ghost var rest := content[j + 1..];
      assert content[j..][0] == block && content[j..][1..] == rest;
      if !block.ToolUse? {
        AppendAssoc(sanitized, [block], SanitizeBlocks(rest, seen, nz));
        sanitized := sanitized + [block];
      } else {
        var id, taken := EnsureUniqueToolCallId(Trim(block.id), Some(seen));
        AppendAssoc(sanitized, KeptUse(block, id, nz), SanitizeBlocks(rest, taken.value, nz));
        var repaired := Repair(block, nz);
        if GoodName(repaired.name) {
          sanitized := sanitized + [ToolUse(id, repaired.name, repaired.input)];
        } else {
          assert sanitized + KeptUse(block, id, nz) == sanitized;
        }
        seen := taken.value;
      }
    }
  }

  /** SanitizeReplayMessages: assistant messages are rewritten in place. */
  method SanitizeReplayMessages(messages: array<Message>, nz: Normalizer)
    modifies messages
    ensures messages[..] == SanitizeAll(old(messages[..]), nz)
  {
    for i := 0 to messages.Length
      invariant forall k :: 0 <= k < i ==> messages[k] == Sanitize(old(messages[k]), nz)
      invariant forall k :: i <= k < messages.Length ==> messages[k] == old(messages[k])
    {
      if messages[i].role == "assistant" {
        var sanitized := SanitizeContent(messages[i].content, nz);
        assert messages[i].(content := sanitized) == Sanitize(messages[i], nz);
        messages[i] := messages[i].(content := sanitized);
      }
    }
    assert forall k :: 0 <= k < messages.Length ==> messages[..][k] == SanitizeAll(old(messages[..]), nz)[k];
  }

  /** Dropping the calls that do not survive and repairing the rest, ids untouched. */
  function KeepAndRepair(content: seq<Block>, nz: Normalizer): seq<Block> {
    if content == [] then []
    else
      (if !content[0].ToolUse? then [content[0]]
       else if Survives(content[0], nz) then [Repair(content[0], nz)]
       else [])
      + KeepAndRepair(content[1..], nz)
  }

  /** Hygienic ids come through sanitizing unchanged. */
  lemma {:induction false} HygienicIdsKept(content: seq<Block>, seen: set<string>, nz: Normalizer)
    requires Hygienic(UseIds(content))
    requires forall id :: id in UseIds(content) ==> id !in seen
    ensures SanitizeBlocks(content, seen, nz) == KeepAndRepair(content, nz)
  {
    if content != [] {
      var rest := UseIds(content[1..]);
      if content[0].ToolUse? {
        var ids := UseIds(content);
        assert ids[0] == content[0].id && ids[1..] == rest;
        CleanIsFixed(content[0].id);
        HygienicIdsKept(content[1..], seen + {content[0].id}, nz);
      } else {
        assert UseIds(content) == rest;
        HygienicIdsKept(content[1..], seen, nz);
      }
    }
  }

  lemma HygienicCons(id: string, ids: seq<string>)
    requires Hygienic(ids) && IsClean(id) && id !in ids
    ensures Hygienic([id] + ids)
  {
  }

  /** Whatever ids come in, the ids sent out are clean and distinct. */
  lemma {:induction false} SanitizedIds(content: seq<Block>, seen: set<string>, nz: Normalizer)
    ensures Hygienic(UseIds(SanitizeBlocks(content, seen, nz)))
    ensures forall id :: id in UseIds(SanitizeBlocks(content, seen, nz)) ==> id !in seen
  {
    if content != [] {
      var b := content[0];
      if b.ToolUse? {
        var id := Uniquify(Trim(b.id), seen);
        TrimIsClean(b.id);
        SanitizedIds(content[1..], seen + {id}, nz);
        var rest := SanitizeBlocks(content[1..], seen + {id}, nz);
        UseIdsCons(KeptUse(b, id, nz), rest);
        if Survives(b, nz) {
          HygienicCons(id, UseIds(rest));
        }
      } else {
        SanitizedIds(content[1..], seen, nz);
        UseIdsCons([b], SanitizeBlocks(content[1..], seen, nz));
      }
    }
  }

  lemma UseIdsCons(head: seq<Block>, rest: seq<Block>)
    requires |head| <= 1
    ensures UseIds(head + rest) == (if |head| == 1 && head[0].ToolUse? then [head[0].id] else []) + UseIds(rest)
  {
    if head == [] {
      assert head + rest == rest;
    } else {
      assert (head + rest)[1..] == rest;
    }
  }

  /** When every call has a usable name, none is dropped. */
  lemma {:induction false} SanitizedCount(content: seq<Block>, seen: set<string>, nz: Normalizer)
    requires forall b :: b in content ==> Survives(b, nz)
    ensures |UseIds(SanitizeBlocks(content, seen, nz))| == |UseIds(content)|
  {
    if content != [] {
      var b := content[0];
      assert b in content;
      if b.ToolUse? {
        var id := Uniquify(Trim(b.id), seen);
        SanitizedCount(content[1..], seen + {id}, nz);
        UseIdsCons(KeptUse(b, id, nz), SanitizeBlocks(content[1..], seen + {id}, nz));
      } else {
        SanitizedCount(content[1..], seen, nz);
        UseIdsCons([b], SanitizeBlocks(content[1..], seen, nz));
      }
    }
  }

  // ---------- calls assembled from a stream ----------

  datatype ToolCall = ToolCall(id: string, name: string, arguments: Json)

  datatype Fragment = Fragment(index: nat, id: string, name: string, arguments: string)

  /** The arguments a call ends up with, or None when the call is dropped. */
  function NormalArguments(arguments: Json, nz: Normalizer): (r: Option<Json>)
    ensures r.Some? ==> r.value.Structured?
  {
    var parsed := if arguments.Str? then nz.parse(arguments.text) else arguments;
    var decoded := nz.decode(parsed);
    var filled :=
      if !decoded.Null? then Some(decoded)
      else if arguments.Str? && HasNonWhitespace(arguments.text) then None
      else Some(EMPTY_OBJECT);
    if filled.Some? && filled.value.Structured? then filled else None
  }

  /** Whether a call is accepted at all; ids play no part. */
  predicate Accepted(call: ToolCall, nz: Normalizer) {
    HasNonWhitespace(nz.resolve(call.name, call.id)) && NormalArguments(call.arguments, nz).Some?
  }

  /** The id an accepted call leaves with: an empty one is replaced by a numbered one. */
  function FinalId(id: string, seen: Option<set<string>>, ordinal: nat): string {
    var given := GivenId(Trim(id), seen);
    if given == "" then GivenId(Fallback(ordinal), seen) else given
  }

  function Normalized(call: ToolCall, nz: Normalizer, seen: Option<set<string>>, ordinal: nat): ToolCall
    requires Accepted(call, nz)
  {
    ToolCall(FinalId(call.id, seen, ordinal), nz.resolve(call.name, call.id), NormalArguments(call.arguments, nz).value)
  }

  /** NormalizeToolCall, with or without a shared set of seen ids. */
  method NormalizeToolCall(call: ToolCall, nz: Normalizer, seen: Option<set<string>>, ordinal: nat)
    returns (ok: bool, call': ToolCall, seen': Option<set<string>>)
    ensures ok <==> Accepted(call, nz)
    ensures ok ==> call' == Normalized(call, nz, seen, ordinal)
    ensures seen' == if ok then Taken(seen, call'.id) else seen
  {
    seen' := seen;
    call' := call.(name := nz.resolve(call.name, call.id));
    if !HasNonWhitespace(call'.name) {
      return false, call', seen';
    }
    var hadText := call.arguments.Str? && HasNonWhitespace(call.arguments.text);
    if call.arguments.Str? {
      call' := call'.(arguments := nz.parse(call.arguments.text));
    }
    call' := call'.(arguments := nz.decode(call'.arguments));
    if call'.arguments.Null? {
      if hadText {
        return false, call', seen';
      }
      call' := call'.(arguments := EMPTY_OBJECT);
    }
    if !call'.arguments.Structured? {
      return false, call', seen';
    }
    var id;
    id, seen' := EnsureUniqueToolCallId(Trim(call.id), seen);
    if id == "" { // only without a set: an id made unique is not blank
      id, seen' := EnsureUniqueToolCallId(Fallback(ordinal), seen');
    }
    call' := call'.(id := id);
    ok := true;
  }

  /** NormalizeToolCalls: the accepted calls of a list; ordinals count all of them. */
  function NormalizeAll(calls: seq<ToolCall>, nz: Normalizer, seen: Option<set<string>>): (seq<ToolCall>, Option<set<string>>) {
    if calls == [] then ([], seen)
    else
      var (done, taken) := NormalizeAll(calls[..|calls| - 1], nz, seen);
      var call := calls[|calls| - 1];
      if !Accepted(call, nz) then (done, taken)
      else
        var next := Normalized(call, nz, taken, |calls|);
        (done + [next], Taken(taken, next.id))
  }

  method NormalizeToolCalls(calls: seq<ToolCall>, nz: Normalizer, seen: Option<set<string>>)
    returns (normalized: seq<ToolCall>, seen': Option<set<string>>)
    ensures (normalized, seen') == NormalizeAll(calls, nz, seen)
  {
    normalized, seen' := [], seen;
    var ordinal := 1;
    for i := 0 to |calls|
      invariant ordinal == i + 1 && (normalized, seen') == NormalizeAll(calls[..i], nz, seen)
    {
      assert calls[..i + 1][..i] == calls[..i];
      var ok, call, taken := NormalizeToolCall(calls[i], nz, seen', ordinal);
      ordinal := ordinal + 1;
      if ok {
        normalized := normalized + [call];
        seen' := taken;
      }
    }
    assert calls[..|calls|] == calls;
  }

  /** Whether a fragment is emitted; the ids already seen play no part. */
  predicate Complete(f: Fragment, nz: Normalizer) {
    var arguments := nz.parse(f.arguments);
    !(HasNonWhitespace(f.arguments) && arguments.Null?) && Accepted(ToolCall(f.id, f.name, arguments), nz)
  }

  function Completes(fs: seq<Fragment>, nz: Normalizer, complete: bool): seq<Fragment> {
    if fs == [] then []
    else
      Completes(fs[..|fs| - 1], nz, complete)
      + (if Complete(fs[|fs| - 1], nz) == complete then [fs[|fs| - 1]] else [])
  }

  /** The calls emitted for the complete fragments, and the ids taken after them. */
  function Emit(fs: seq<Fragment>, nz: Normalizer, seen: set<string>): (seq<ToolCall>, set<string>) {
    if fs == [] then ([], seen)
    else
      var (calls, taken) := Emit(fs[..|fs| - 1], nz, seen);
      var f := fs[|fs| - 1];
      if !Complete(f, nz) then (calls, taken)
      else
        var id := Uniquify(Trim(f.id), taken);
        (calls + [ToolCall(id, nz.resolve(f.name, f.id), NormalArguments(nz.parse(f.arguments), nz).value)], taken + {id})
  }

  /** FinalizePendingToolCalls with a remainder list. */
  method FinalizePendingToolCalls(pending: seq<Fragment>, nz: Normalizer, seen: set<string>)
    returns (calls: seq<ToolCall>, seen': set<string>, remaining: seq<Fragment>)
    ensures (calls, seen') == Emit(pending, nz, seen)
    ensures remaining == Completes(pending, nz, false)
  {
    calls, remaining, seen' := [], [], seen;
    var ordinal := 1;
    for i := 0 to |pending|
      invariant ordinal >= 1
      invariant (calls, seen') == Emit(pending[..i], nz, seen)
      invariant remaining == Completes(pending[..i], nz, false)
    {
      var f := pending[i];
      assert pending[..i + 1][..i] == pending[..i];
      var arguments := nz.parse(f.arguments);
      if HasNonWhitespace(f.arguments) && arguments.Null? {
        remaining := remaining + [f];
      } else {
        var ok, call, taken := NormalizeToolCall(ToolCall(f.id, f.name, arguments), nz, Some(seen'), ordinal);
        ordinal := ordinal + 1;
        if ok {
          calls := calls + [call];
          seen' := taken.value;
        } else {
          remaining := remaining + [f];
        }
      }
    }
    assert pending[..|pending|] == pending;
  }

  function CallIds(calls: seq<ToolCall>): (ids: seq<string>)
    ensures |ids| == |calls| && forall i :: 0 <= i < |calls| ==> ids[i] == calls[i].id
  {
    seq(|calls|, i requires 0 <= i < |calls| => calls[i].id)
  }

  /**
    Ids emitted over a stream sharing one seen set are clean, distinct from each
    other and from every id seen before, and each complete fragment yields one call.
   */
  lemma {:induction false} EmittedIds(fs: seq<Fragment>, nz: Normalizer, seen: set<string>)
    ensures var (calls, taken) := Emit(fs, nz, seen);
            && Hygienic(CallIds(calls))
            && (forall id :: id in CallIds(calls) ==> id !in seen)
            && (forall id :: id in taken <==> id in seen || id in CallIds(calls))
            && |calls| == |Completes(fs, nz, true)|
  {
    if fs != [] {
      var f := fs[|fs| - 1];
      EmittedIds(fs[..|fs| - 1], nz, seen);
      TrimIsClean(f.id);
      var (calls, taken) := Emit(fs[..|fs| - 1], nz, seen);
      if Complete(f, nz) {
        var calls' := Emit(fs, nz, seen).0;
        assert CallIds(calls') == CallIds(calls) + [Uniquify(Trim(f.id), taken)];
      }
    }
  }

  /** Emitted and kept fragments together are the fragments: none lost, none twice. */
  lemma {:induction false} FragmentsConserved(fs: seq<Fragment>, nz: Normalizer)
    ensures multiset(Completes(fs, nz, true)) + multiset(Completes(fs, nz, false)) == multiset(fs)
  {
    if fs != [] {
      var init, f := fs[..|fs| - 1], fs[|fs| - 1];
      FragmentsConserved(init, nz);
      assert fs == init + [f];
      AddedOnce(init, f);
      CompletesSnoc(fs, nz, true);
      CompletesSnoc(fs, nz, false);
      OneMore(multiset(Completes(init, nz, true)), multiset(Completes(init, nz, false)), f);
    }
  }

  /** The last fragment goes to one side. */
  lemma CompletesSnoc(fs: seq<Fragment>, nz: Normalizer, side: bool)
    requires fs != []
    ensures var before := multiset(Completes(fs[..|fs| - 1], nz, side));
            multiset(Completes(fs, nz, side)) ==
              if Complete(fs[|fs| - 1], nz) == side then before + multiset{fs[|fs| - 1]} else before
  {
    var before, f := Completes(fs[..|fs| - 1], nz, side), fs[|fs| - 1];
    AddedOnce(before, f);
    assert before + [] == before;
  }

  lemma OneMore(a: multiset<Fragment>, b: multiset<Fragment>, f: Fragment)
    ensures (a + multiset{f}) + b == (a + b) + multiset{f} == a + (b + multiset{f})
  {
  }

  lemma AddedOnce(fs: seq<Fragment>, f: Fragment)
    ensures multiset(fs + [f]) == multiset(fs) + multiset{f}
  {
  }

  // ---------- calls of a reply that is not streamed ----------

  /** The id call i leaves with when no seen ids are shared. */
  function UnsharedId(calls: seq<ToolCall>, i: nat): (id: string)
    requires i < |calls|
  {
    FinalId(calls[i].id, None, i + 1)
  }

  /** Accepted calls i and j leave with the same id: both had it, or i had the number that j, blank, is given. */
  predicate Clash(calls: seq<ToolCall>, nz: Normalizer, i: nat, j: nat)
    requires i < |calls| && j < |calls|
  {
    && Accepted(calls[i], nz) && Accepted(calls[j], nz) && Trim(calls[i].id) != ""
    && (Trim(calls[j].id) == Trim(calls[i].id) || (Trim(calls[j].id) == "" && Trim(calls[i].id) == Fallback(j + 1)))
  }

  lemma SameIdMeansClash(calls: seq<ToolCall>, nz: Normalizer, i: nat, j: nat)
    requires i < |calls| && j < |calls| && i != j && Accepted(calls[i], nz) && Accepted(calls[j], nz)
    ensures UnsharedId(calls, i) == UnsharedId(calls, j) <==> Clash(calls, nz, i, j) || Clash(calls, nz, j, i)
  {
    if Fallback(i + 1) == Fallback(j + 1) { FallbackInjective(i + 1, j + 1); }
  }

  lemma UnsharedIdIsClean(calls: seq<ToolCall>, i: nat)
    requires i < |calls|
    ensures IsClean(UnsharedId(calls, i))
  {
    TrimIsClean(calls[i].id);
    FallbackIsClean(i + 1);
  }

  /** The ids sent on are those of the accepted calls, none shared. */
  lemma {:induction false} UnsharedIds(calls: seq<ToolCall>, nz: Normalizer)
    ensures NormalizeAll(calls, nz, None).1 == None
    ensures forall id :: id in CallIds(NormalizeAll(calls, nz, None).0) <==>
              exists i :: 0 <= i < |calls| && Accepted(calls[i], nz) && UnsharedId(calls, i) == id
  {
    if calls != [] {
      var init, n := calls[..|calls| - 1], |calls| - 1;
      UnsharedIds(init, nz);
      assert forall i :: 0 <= i < n ==> UnsharedId(init, i) == UnsharedId(calls, i);
      if Accepted(calls[n], nz) {
        UnsharedSnoc(calls, nz);
      }
    }
  }

  lemma UnsharedSnoc(calls: seq<ToolCall>, nz: Normalizer)
    requires calls != [] && Accepted(calls[|calls| - 1], nz) && NormalizeAll(calls[..|calls| - 1], nz, None).1 == None
    ensures CallIds(NormalizeAll(calls, nz, None).0) ==
            CallIds(NormalizeAll(calls[..|calls| - 1], nz, None).0) + [UnsharedId(calls, |calls| - 1)]
  {
  }

  lemma HygienicSnocIff(ids: seq<string>, id: string)
    ensures Hygienic(ids + [id]) <==> Hygienic(ids) && IsClean(id) && id !in ids
  {
    var all := ids + [id];
    if Hygienic(all) {
      assert forall i :: 0 <= i < |ids| ==> all[i] == ids[i];
      assert all[|ids|] == id;
    }
  }

  /** No two of these calls clash. */
  predicate NoClash(calls: seq<ToolCall>, nz: Normalizer) {
    forall i, j :: 0 <= i < |calls| && 0 <= j < |calls| && i != j ==> !Clash(calls, nz, i, j)
  }

  /**
    Without a set of seen ids, as for a reply that is not streamed, the ids sent
    on are clean and distinct exactly when no two accepted calls clash.
   */
  lemma {:induction false} UnsharedHygienicIff(calls: seq<ToolCall>, nz: Normalizer)
    ensures Hygienic(CallIds(NormalizeAll(calls, nz, None).0)) <==> NoClash(calls, nz)
  {
    if calls != [] {
      var init, n := calls[..|calls| - 1], |calls| - 1;
      UnsharedHygienicIff(init, nz);
      UnsharedIds(init, nz);
      assert forall i :: 0 <= i < n ==> UnsharedId(init, i) == UnsharedId(calls, i);
      ClashSnoc(calls, nz);
      if Accepted(calls[n], nz) {
        UnsharedSnoc(calls, nz);
        UnsharedIdIsClean(calls, n);
        HygienicSnocIff(CallIds(NormalizeAll(init, nz, None).0), UnsharedId(calls, n));
      }
    }
  }

  /** Clashes with the last call are what the shorter list does not have. */
  lemma ClashSnoc(calls: seq<ToolCall>, nz: Normalizer)
    requires calls != []
    ensures var init, n := calls[..|calls| - 1], |calls| - 1;
            NoClash(calls, nz) <==> NoClash(init, nz) && (Accepted(calls[n], nz) ==>
              forall i :: 0 <= i < n && Accepted(calls[i], nz) ==> UnsharedId(calls, i) != UnsharedId(calls, n))
  {
    var init, n := calls[..|calls| - 1], |calls| - 1;
    assert forall i, j :: 0 <= i < n && 0 <= j < n ==> Clash(init, nz, i, j) == Clash(calls, nz, i, j);
    forall i | 0 <= i < n && Accepted(calls[i], nz) && Accepted(calls[n], nz)
      ensures UnsharedId(calls, i) == UnsharedId(calls, n) <==> Clash(calls, nz, i, n) || Clash(calls, nz, n, i)
    {
      SameIdMeansClash(calls, nz, i, n);
    }
  }

  /** So any accepted call that carries an id and is repeated leaves twice with it. */
  lemma UnsharedIdsCollide(call: ToolCall, nz: Normalizer)
    requires Accepted(call, nz) && Trim(call.id) != ""
    ensures !Hygienic(CallIds(NormalizeAll([call, call], nz, None).0))
  {
    assert Clash([call, call], nz, 0, 1);
    UnsharedHygienicIff([call, call], nz);
  }

  /** With a shared set they are always clean, distinct and new. */
  lemma {:induction false} SharedIds(calls: seq<ToolCall>, nz: Normalizer, seen: set<string>)
    ensures var (done, taken) := NormalizeAll(calls, nz, Some(seen));
            && Hygienic(CallIds(done)) && taken.Some?
            && (forall id :: id in CallIds(done) ==> id !in seen)
            && (forall id :: id in taken.value <==> id in seen || id in CallIds(done))
  {
    if calls != [] {
      var call := calls[|calls| - 1];
      SharedIds(calls[..|calls| - 1], nz, seen);
      TrimIsClean(call.id);
      var (done, taken) := NormalizeAll(calls[..|calls| - 1], nz, Some(seen));
      if Accepted(call, nz) {
        var next := Normalized(call, nz, taken, |calls|);
        assert CallIds(done + [next]) == CallIds(done) + [next.id];
        HygienicSnocIff(CallIds(done), next.id);
      }
    }
  }
}
