/**
  What repaired calls carry: which of them are kept, in which order, and the
  name and arguments each one leaves with.
 */
module NormalizeContents {
  import opened Basics
  import opened Text
  import opened Transcript
  import opened Normalize

  // ---------- replayed messages ----------

  /** A block is kept unless it is a call whose resolved name no provider accepts. */
  predicate Keeps(b: Block, nz: Normalizer) { b.ToolUse? ==> GoodName(nz.resolve(b.name, b.id)) }

  /** What a kept block becomes: a call gets its resolved name and decoded input, anything else stays. */
  predicate Becomes(b: Block, r: Block, nz: Normalizer) {
    if !b.ToolUse? then r == b
    else r.ToolUse? && r.name == nz.resolve(b.name, b.id) &&
         (if nz.decode(b.input).Null? then r.input == Structured("{}") else r.input == nz.decode(b.input))
  }

  ghost predicate BecomeInTurn(kept: seq<Block>, r: seq<Block>, nz: Normalizer) {
    |kept| == |r| && forall k :: 0 <= k < |kept| ==> Becomes(kept[k], r[k], nz)
  }

  /** Sanitizing keeps exactly these blocks, in order, and makes of each what it should. */
  lemma {:induction false} SanitizedInTurn(content: seq<Block>, seen: set<string>, nz: Normalizer)
    ensures BecomeInTurn(Filter(content, b => Keeps(b, nz)), SanitizeBlocks(content, seen, nz), nz)
    decreases |content|
  {
    if content != [] {
      var b, rest, p := content[0], content[1..], (b: Block) => Keeps(b, nz);
      assert content == [b] + rest && [b][..0] == [];
      FilterAppend([b], rest, p);
      assert Filter([b], p) == if Keeps(b, nz) then [b] else [];
      if b.ToolUse? {
        var id := Uniquify(Trim(b.id), seen);
        SanitizedInTurn(rest, seen + {id}, nz);
        OneUse(b, id, nz);
        BothInTurn(Filter([b], p), KeptUse(b, id, nz), Filter(rest, p), SanitizeBlocks(rest, seen + {id}, nz), nz);
      } else {
        SanitizedInTurn(rest, seen, nz);
        BothInTurn([b], [b], Filter(rest, p), SanitizeBlocks(rest, seen, nz), nz);
      }
    }
  }

  lemma OneUse(b: Block, id: string, nz: Normalizer)
    requires b.ToolUse?
    ensures BecomeInTurn(if Keeps(b, nz) then [b] else [], KeptUse(b, id, nz), nz)
  {
  }

  lemma BothInTurn(a: seq<Block>, a': seq<Block>, b: seq<Block>, b': seq<Block>, nz: Normalizer)
    requires BecomeInTurn(a, a', nz) && BecomeInTurn(b, b', nz)
    ensures BecomeInTurn(a + b, a' + b', nz)
  {
  }

  // ---------- calls assembled from a stream ----------

  lemma {:induction false} CompletesIsFilter(fs: seq<Fragment>, nz: Normalizer, side: bool)
    ensures Completes(fs, nz, side) == Filter(fs, f => Complete(f, nz) == side)
  {
    if fs != [] { CompletesIsFilter(fs[..|fs| - 1], nz, side); }
  }

  /** A call carries the resolved name and the parsed arguments of its fragment. */
  predicate Carries(call: ToolCall, f: Fragment, nz: Normalizer) {
    call.name == nz.resolve(f.name, f.id) && NormalArguments(nz.parse(f.arguments), nz) == Some(call.arguments)
  }

  /** And its trimmed id, unless that is blank or taken. */
  predicate CarriesId(calls: seq<ToolCall>, k: nat, f: Fragment, seen: set<string>)
    requires k < |calls|
  {
    HasNonWhitespace(Trim(f.id)) && Trim(f.id) !in seen && (forall i :: 0 <= i < k ==> calls[i].id != Trim(f.id)) ==> calls[k].id == Trim(f.id)
  }

  ghost predicate AllCarry(calls: seq<ToolCall>, sent: seq<Fragment>, nz: Normalizer, seen: set<string>) {
    |calls| == |sent| && forall k :: 0 <= k < |sent| ==> Carries(calls[k], sent[k], nz) && CarriesId(calls, k, sent[k], seen)
  }

  /** The calls emitted are those of the complete fragments, in order. */
  lemma {:induction false} EmittedInTurn(fs: seq<Fragment>, nz: Normalizer, seen: set<string>)
    ensures AllCarry(Emit(fs, nz, seen).0, Completes(fs, nz, true), nz, seen)
  {
    if fs != [] {
      var init, f := fs[..|fs| - 1], fs[|fs| - 1];
      EmittedInTurn(init, nz, seen);
      if Complete(f, nz) {
        EmittedIds(init, nz, seen);
        var (calls, taken) := Emit(init, nz, seen);
        OneMoreCarries(calls, Completes(init, nz, true), Emit(fs, nz, seen).0[|calls|], f, nz, seen, taken);
      }
    }
  }

  lemma OneMoreCarries(calls: seq<ToolCall>, sent: seq<Fragment>, call: ToolCall, f: Fragment, nz: Normalizer, seen: set<string>, taken: set<string>)
    requires AllCarry(calls, sent, nz, seen) && Carries(call, f, nz) && call.id == Uniquify(Trim(f.id), taken)
    requires forall id :: id in taken <==> id in seen || id in CallIds(calls)
    ensures AllCarry(calls + [call], sent + [f], nz, seen)
  {
    var all := calls + [call];
    forall k | 0 <= k < |calls| ensures CarriesId(all, k, sent[k], seen) {
      assert CarriesId(calls, k, sent[k], seen) && all[..k + 1] == calls[..k + 1];
    }
    if HasNonWhitespace(Trim(f.id)) && Trim(f.id) !in seen && forall i :: 0 <= i < |calls| ==> all[i].id != Trim(f.id) {
      assert forall i :: 0 <= i < |calls| ==> calls[i].id == all[i].id;
      KeepsPreferred(calls, taken, seen, f);
    }
  }

  lemma KeepsPreferred(calls: seq<ToolCall>, taken: set<string>, seen: set<string>, f: Fragment)
    requires forall id :: id in taken <==> id in seen || id in CallIds(calls)
    requires HasNonWhitespace(Trim(f.id)) && Trim(f.id) !in seen && forall i :: 0 <= i < |calls| ==> calls[i].id != Trim(f.id)
    ensures Uniquify(Trim(f.id), taken) == Trim(f.id)
  {
  }

  /** What arguments end up as, case by case; v is what parsing and decoding make of them. */
  lemma ArgumentsCases(arguments: Json, nz: Normalizer)
    ensures var v := nz.decode(if arguments.Str? then nz.parse(arguments.text) else arguments);
            && (v.Structured? ==> NormalArguments(arguments, nz) == Some(v))
            && (v.Str? || v.Scalar? ==> NormalArguments(arguments, nz) == None)
            && (v.Null? && arguments.Str? && HasNonWhitespace(arguments.text) ==> NormalArguments(arguments, nz) == None)
            && (v.Null? && !(arguments.Str? && HasNonWhitespace(arguments.text)) ==> NormalArguments(arguments, nz) == Some(Structured("{}")))
  {
  }

  /** The calls of a whole reply: the accepted ones, in order, each with its name and arguments. */
  lemma {:induction false} NormalizedInTurn(calls: seq<ToolCall>, nz: Normalizer, seen: Option<set<string>>)
    ensures var kept, r := Filter(calls, c => Accepted(c, nz)), NormalizeAll(calls, nz, seen).0;
            |r| == |kept| && forall k :: 0 <= k < |kept| ==>
              r[k].name == nz.resolve(kept[k].name, kept[k].id) && NormalArguments(kept[k].arguments, nz) == Some(r[k].arguments)
  {
    if calls != [] { NormalizedInTurn(calls[..|calls| - 1], nz, seen); }
  }
}
