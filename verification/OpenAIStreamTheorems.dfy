/**
  When the OpenAI stream reader does, and when it does not, depend on how the
  bytes are cut into callbacks; and which tool-call ids it may emit.
 */
module OpenAIStreamTheorems {
  import opened Basics
  import opened Text
  import opened Transcript
  import opened Normalize
  import opened Framing
  import opened OpenAIStream

  /** The complete lines of a stream. */
  function LinesOf(bytes: string): seq<string> { Records(bytes, "\n") }

  predicate HasDone(lines: seq<string>) { exists i :: 0 <= i < |lines| && IsDone(lines[i]) }

  /** How many lines from i on it takes to get past the first [DONE], or to the end. */
  function UpTo(lines: seq<string>, i: nat): (n: nat)
    requires i <= |lines|
    ensures i <= n <= |lines| && forall j :: i <= j < n - 1 ==> !IsDone(lines[j])
    ensures n < |lines| ==> i < n && IsDone(lines[n - 1])
    decreases |lines| - i
  {
    if i == |lines| then i else if IsDone(lines[i]) then i + 1 else UpTo(lines, i + 1)
  }

  /** The lines up to and including the first [DONE]. */
  function UpToDone(lines: seq<string>): seq<string> { lines[..UpTo(lines, 0)] }

  lemma UpToIs(lines: seq<string>, n: nat)
    requires n <= |lines| && forall j :: 0 <= j < n - 1 ==> !IsDone(lines[j])
    requires n < |lines| ==> n > 0 && IsDone(lines[n - 1])
    ensures UpTo(lines, 0) == n
  {
  }

  // ---------- how far a delivery gets ----------

  /** The first `handled` bytes are complete lines and were handled; the others wait in the buffer, stuck behind a [DONE] if they hold a line. */
  ghost predicate Reached(env: Env, bytes: string, handled: string, s: State, buffer: string) {
    && bytes == handled + buffer && Rest(handled, "\n") == "" && s == Run(env, LinesOf(handled))
    && (Find(buffer, "\n", 0).Some? ==> HasDone(LinesOf(handled)))
  }

  /** One more line at the end of complete lines. */
  lemma LineAppended(handled: string, line: string)
    requires Rest(handled, "\n") == "" && '\n' !in line
    ensures LinesOf(handled + (line + "\n")) == LinesOf(handled) + [line]
    ensures Rest(handled + (line + "\n"), "\n") == ""
  {
    SplitAppend(handled, line + "\n", "\n");
    assert "" + (line + "\n") == line + "\n";
    OneLine(line);
  }

  lemma OneLine(line: string)
    requires '\n' !in line
    ensures LinesOf(line + "\n") == [line] && Rest(line + "\n", "\n") == ""
  {
    FoundAfter(line, '\n', "");
    assert line + ['\n'] + "" == line + "\n";
    assert (line + "\n")[..|line|] == line && (line + "\n")[|line| + 1..] == "";
    assert Records("", "\n") == [] && Rest("", "\n") == "";
  }

  lemma NoNewlineBefore(s: string, k: nat)
    requires Find(s, "\n", 0) == Some(k)
    ensures '\n' !in s[..k] && s == s[..k] + "\n" + s[k + 1..]
  {
    forall i | 0 <= i < k ensures s[i] != '\n' {
      assert !OccursAt(s, "\n", i) && s[i..i + 1] == [s[i]];
    }
  }

  lemma RunSnoc(env: Env, lines: seq<string>, line: string)
    ensures Run(env, lines + [line]) == Step(env, Run(env, lines), line)
  {
    assert (lines + [line])[..|lines|] == lines;
  }

  lemma DeliverSnoc(env: Env, chunks: seq<string>, chunk: string)
    ensures var (s, buffer) := Deliver(env, chunks); Deliver(env, chunks + [chunk]) == Consume(env, s, buffer + chunk)
  {
    assert (chunks + [chunk])[..|chunks|] == chunks;
  }

  lemma HasDoneSnoc(lines: seq<string>, line: string)
    ensures HasDone(lines + [line]) <==> HasDone(lines) || IsDone(line)
  {
    var all := lines + [line];
    if HasDone(lines) {
      var i :| 0 <= i < |lines| && IsDone(lines[i]);
      assert all[i] == lines[i];
    }
    if IsDone(line) { assert all[|lines|] == line; }
  }

  /** Handling the first line of the buffer. */
  lemma NextLine(env: Env, handled: string, buffer: string, k: nat) returns (next: string)
    requires Rest(handled, "\n") == "" && Find(buffer, "\n", 0) == Some(k)
    ensures handled + buffer == next + buffer[k + 1..] && handled <= next && Rest(next, "\n") == ""
    ensures LinesOf(next) == LinesOf(handled) + [buffer[..k]]
    ensures Run(env, LinesOf(next)) == Step(env, Run(env, LinesOf(handled)), buffer[..k])
    ensures HasDone(LinesOf(next)) <==> HasDone(LinesOf(handled)) || IsDone(buffer[..k])
  {
    var line := buffer[..k];
    NoNewlineBefore(buffer, k);
    LineAppended(handled, line);
    RunSnoc(env, LinesOf(handled), line);
    HasDoneSnoc(LinesOf(handled), line);
    AppendAssoc(handled, line + "\n", buffer[k + 1..]);
    next := handled + (line + "\n");
  }

  /** One callback hands on from whatever the buffer holds. */
  lemma {:induction false} ConsumeReaches(env: Env, handled: string, s: State, buffer: string) returns (handled': string)
    requires Rest(handled, "\n") == "" && s == Run(env, LinesOf(handled))
    ensures Reached(env, handled + buffer, handled', Consume(env, s, buffer).0, Consume(env, s, buffer).1)
    decreases |buffer|
  {
    match Find(buffer, "\n", 0) {
      case None => handled' := handled;
      case Some(k) =>
        var next := NextLine(env, handled, buffer, k);
        if IsDone(buffer[..k]) {
          handled' := next;
        } else {
          handled' := ConsumeReaches(env, next, Step(env, s, buffer[..k]), buffer[k + 1..]);
        }
    }
  }

  lemma {:induction false} DeliverReaches(env: Env, chunks: seq<string>) returns (handled: string)
    ensures Reached(env, Concat(chunks), handled, Deliver(env, chunks).0, Deliver(env, chunks).1)
  {
    if chunks == [] {
      handled := "";
      assert Records("", "\n") == [] && Find("", "\n", 0) == None;
    } else {
      var init, last := chunks[..|chunks| - 1], chunks[|chunks| - 1];
      var before := DeliverReaches(env, init);
      var (s, buffer) := Deliver(env, init);
      AppendAssoc(before, buffer, last);
      handled := ConsumeReaches(env, before, s, buffer + last);
    }
  }

  /**
    Whatever the chunks, the lines handled are a prefix of the stream's lines
    that reaches at least to the first [DONE], and all of them without one.
   */
  lemma HandledLines(env: Env, chunks: seq<string>) returns (n: nat)
    ensures n <= |LinesOf(Concat(chunks))| && Deliver(env, chunks).0 == Run(env, LinesOf(Concat(chunks))[..n])
    ensures |UpToDone(LinesOf(Concat(chunks)))| <= n
  {
    var handled := DeliverReaches(env, chunks);
    var bytes, buffer := Concat(chunks), Deliver(env, chunks).1;
    var lines := LinesOf(bytes);
    n := |LinesOf(handled)|;
    SplitAppend(handled, buffer, "\n");
    assert "" + buffer == buffer;
    assert lines[..n] == LinesOf(handled);
    if HasDone(LinesOf(handled)) {
      var i :| 0 <= i < n && IsDone(LinesOf(handled)[i]);
      assert lines[i] == LinesOf(handled)[i];
    } else {
      assert LinesOf(buffer) == [];
    }
  }

  // ---------- the two extremes ----------

  /** Everything at once: handled up to the first [DONE]. */
  lemma {:induction false} ConsumeAll(env: Env, handled: string, s: State, buffer: string)
    requires Rest(handled, "\n") == "" && s == Run(env, LinesOf(handled)) && !HasDone(LinesOf(handled))
    ensures Consume(env, s, buffer).0 == Run(env, UpToDone(LinesOf(handled) + LinesOf(buffer)))
    decreases |buffer|
  {
    match Find(buffer, "\n", 0) {
      case None =>
        assert LinesOf(handled) + LinesOf(buffer) == LinesOf(handled);
        UpToIs(LinesOf(handled), |LinesOf(handled)|);
        assert UpToDone(LinesOf(handled)) == LinesOf(handled);
      case Some(k) =>
        var line, rest, before := buffer[..k], buffer[k + 1..], LinesOf(handled);
        var next := NextLine(env, handled, buffer, k);
        assert LinesOf(buffer) == [line] + LinesOf(rest);
        AppendAssoc(before, [line], LinesOf(rest));
        if IsDone(line) {
          DoneFirst(before, line, LinesOf(rest));
        } else {
          ConsumeAll(env, next, Step(env, s, line), rest);
        }
    }
  }

  lemma DoneFirst(before: seq<string>, line: string, later: seq<string>)
    requires !HasDone(before) && IsDone(line)
    ensures UpToDone((before + [line]) + later) == before + [line]
  {
    var all := (before + [line]) + later;
    assert all[|before|] == line && forall j :: 0 <= j < |before| ==> all[j] == before[j];
    UpToIs(all, |before| + 1);
  }

  lemma AllAtOnce(env: Env, bytes: string)
    ensures Deliver(env, [bytes]).0 == Run(env, UpToDone(LinesOf(bytes)))
  {
    assert [bytes][..0] == [] && Deliver(env, []) == (START, "");
    assert "" + bytes == bytes;
    assert LinesOf("") == [] && Rest("", "\n") == "" && LinesOf("") + LinesOf(bytes) == LinesOf(bytes);
    ConsumeAll(env, "", START, bytes);
  }

  function ByteByByte(bytes: string): (chunks: seq<string>) {
    seq(|bytes|, i requires 0 <= i < |bytes| => [bytes[i]])
  }

  lemma ByteByByteSnoc(bytes: string)
    requires bytes != []
    ensures ByteByByte(bytes) == ByteByByte(bytes[..|bytes| - 1]) + [[bytes[|bytes| - 1]]]
  {
  }

  /** One byte at a time: every line is handled, [DONE] or not. */
  lemma {:induction false} OneByteAtATime(env: Env, bytes: string)
    ensures Concat(ByteByByte(bytes)) == bytes
    ensures Deliver(env, ByteByByte(bytes)) == (Run(env, LinesOf(bytes)), Rest(bytes, "\n"))
  {
    if bytes == [] {
      assert ByteByByte(bytes) == [];
    } else {
      var init, c := bytes[..|bytes| - 1], [bytes[|bytes| - 1]];
      OneByteAtATime(env, init);
      ByteByByteSnoc(bytes);
      ConcatSnoc(ByteByByte(init), c);
      assert bytes == init + c;
      SplitAppend(init, c, "\n");
      var rest := Rest(init, "\n");
      DeliverSnoc(env, ByteByByte(init), c);
      OneByteMore(env, Run(env, LinesOf(init)), rest, c[0]);
      if c[0] == '\n' {
        RunSnoc(env, LinesOf(init), rest);
      } else {
        assert LinesOf(init) + [] == LinesOf(init);
      }
    }
  }

  lemma OneByteMore(env: Env, s: State, rest: string, c: char)
    requires Find(rest, "\n", 0) == None
    ensures if c == '\n' then LinesOf(rest + [c]) == [rest] && Rest(rest + [c], "\n") == "" && Consume(env, s, rest + [c]) == (Step(env, s, rest), "")
            else LinesOf(rest + [c]) == [] && Rest(rest + [c], "\n") == rest + [c] && Consume(env, s, rest + [c]) == (s, rest + [c])
  {
    forall i | 0 <= i < |rest| ensures rest[i] != '\n' {
      assert !OccursAt(rest, "\n", i) && rest[i..i + 1] == [rest[i]];
    }
    if c == '\n' {
      OneLine(rest);
      FoundAfter(rest, '\n', "");
      assert rest + ['\n'] + "" == rest + [c];
      assert (rest + [c])[..|rest|] == rest && (rest + [c])[|rest| + 1..] == "";
      assert Find("", "\n", 0) == None;
    } else {
      NotFound(rest + [c], '\n', 0);
    }
  }

  // ---------- chunking independence ----------

  lemma StepGrows(env: Env, s: State, line: string)
    ensures s.outputs <= Step(env, s, line).outputs
  {
  }

  lemma {:induction false} RunGrows(env: Env, lines: seq<string>, m: nat)
    requires m <= |lines|
    ensures Run(env, lines[..m]).outputs <= Run(env, lines).outputs
    decreases |lines| - m
  {
    if m == |lines| {
      assert lines[..m] == lines;
    } else {
      assert lines[..m + 1] == lines[..m] + [lines[m]];
      RunSnoc(env, lines[..m], lines[m]);
      StepGrows(env, Run(env, lines[..m]), lines[m]);
      RunGrows(env, lines, m + 1);
    }
  }

  /** Every way of cutting these bytes gives the caller the same outputs as one callback. */
  ghost predicate ChunkingDoesNotMatter(env: Env, bytes: string) {
    forall chunks :: Concat(chunks) == bytes ==> Deliver(env, chunks).0.outputs == Deliver(env, [bytes]).0.outputs
  }

  /** The delta a line carries, if it carries one. */
  function DeltaOf(env: Env, line: string): Option<Delta> {
    var data := DataField(line);
    if data.None? || IsDone(line) then None else env.parse(data.value)
  }

  /** The fragments that the tool-call deltas of these lines add up to. */
  function Accumulated(env: Env, lines: seq<string>): seq<Fragment> {
    if lines == [] then []
    else
      var before, d := Accumulated(env, lines[..|lines| - 1]), DeltaOf(env, lines[|lines| - 1]);
      if d.None? then before else AddCalls(before, d.value.calls)
  }

  predicate NoneComplete(fs: seq<Fragment>, nz: Normalizer) { forall i :: 0 <= i < |fs| ==> !Complete(fs[i], nz) }

  /**
    Line i is no [DONE], brings no text, and if it finishes with tool calls then
    no fragment accumulated in these lines up to it is a complete call.
   */
  predicate Silent(env: Env, lines: seq<string>, i: nat)
    requires i < |lines|
  {
    var d := DeltaOf(env, lines[i]);
    && !IsDone(lines[i])
    && (d.Some? ==> d.value.content == "" && d.value.reasoningContent == "" && d.value.reasoning == "")
    && (d.Some? && d.value.finish == "tool_calls" ==> NoneComplete(Accumulated(env, lines[..i + 1]), env.nz))
  }

  /** The lines after the first [DONE]. */
  function Later(lines: seq<string>): seq<string> { lines[UpTo(lines, 0)..] }

  predicate SilentAfterDone(env: Env, lines: seq<string>) {
    forall i :: 0 <= i < |Later(lines)| ==> Silent(env, Later(lines), i)
  }

  lemma {:induction false} NothingEmitted(fs: seq<Fragment>, nz: Normalizer, seen: set<string>)
    ensures Emit(fs, nz, seen).0 == [] <==> NoneComplete(fs, nz)
    ensures NoneComplete(fs, nz) ==> Completes(fs, nz, false) == fs
  {
    if fs != [] {
      var init := fs[..|fs| - 1];
      NothingEmitted(init, nz, seen);
      assert fs == init + [fs[|fs| - 1]];
    }
  }

  lemma FlushQuiet(s: State, nz: Normalizer)
    ensures Flush(s, nz, true).outputs == s.outputs <==> NoneComplete(s.pending, nz)
    ensures NoneComplete(s.pending, nz) ==> Flush(s, nz, true).pending == s.pending
  {
    NothingEmitted(s.pending, nz, s.seen);
    assert s.outputs + [] == s.outputs;
  }

  /** One later line, met with the fragments of the lines before it. */
  lemma StepQuiet(env: Env, s: State, lines: seq<string>, i: nat)
    requires i < |lines| && s.pending == Accumulated(env, lines[..i])
    ensures Step(env, s, lines[i]).outputs == s.outputs <==> Silent(env, lines, i)
    ensures Silent(env, lines, i) ==> Step(env, s, lines[i]).pending == Accumulated(env, lines[..i + 1])
  {
    var line := lines[i];
    assert lines[..i + 1][..i] == lines[..i];
    var d := DeltaOf(env, line);
    if IsDone(line) {
      FlushGrows(s, env.nz);
    } else if d.Some? {
      var s' := s.(outputs := s.outputs + Texts(d.value), pending := AddCalls(s.pending, d.value.calls));
      assert s'.pending == Accumulated(env, lines[..i + 1]);
      TextsQuiet(s.outputs, d.value);
      FlushQuiet(s', env.nz);
      StepGrows(env, s', line);
      assert s'.outputs <= Flush(s', env.nz, true).outputs;
    }
  }

  lemma FlushGrows(s: State, nz: Normalizer)
    ensures s.outputs <= Flush(s, nz, false).outputs
  {
  }

  lemma TextsQuiet(outputs: seq<Output>, d: Delta)
    ensures outputs + Texts(d) == outputs <==> d.content == "" && d.reasoningContent == "" && d.reasoning == ""
  {
    assert |outputs + Texts(d)| == |outputs| + |Texts(d)|;
  }

  /** After a [DONE] nothing is pending. */
  lemma DoneClears(env: Env, lines: seq<string>)
    requires UpTo(lines, 0) < |lines|
    ensures Run(env, UpToDone(lines)).pending == []
  {
    var n := UpTo(lines, 0);
    assert UpToDone(lines)[..n - 1] == lines[..n - 1] && UpToDone(lines)[n - 1] == lines[n - 1];
  }

  predicate SilentUpTo(env: Env, lines: seq<string>, k: nat)
    requires k <= |lines|
  {
    forall i :: 0 <= i < k ==> Silent(env, lines, i)
  }

  /** Where the reader stands after k of the later lines, if it has been silent. */
  predicate StillQuiet(env: Env, base: seq<Output>, s: State, later: seq<string>, k: nat)
    requires k <= |later|
  {
    base <= s.outputs && (s.outputs == base <==> SilentUpTo(env, later, k)) &&
    (SilentUpTo(env, later, k) ==> s.pending == Accumulated(env, later[..k]))
  }

  lemma QuietStep(env: Env, base: seq<Output>, s: State, later: seq<string>, k: nat, next: nat)
    requires next == k + 1 <= |later| && StillQuiet(env, base, s, later, k)
    ensures StillQuiet(env, base, Step(env, s, later[k]), later, next)
  {
    StepGrows(env, s, later[k]);
    assert SilentUpTo(env, later, next) <==> SilentUpTo(env, later, k) && Silent(env, later, k);
    if SilentUpTo(env, later, k) {
      StepQuiet(env, s, later, k);
    }
  }

  /** As long as nothing is emitted, the later lines are silent and the fragments are theirs. */
  lemma {:induction false} QuietSoFar(env: Env, front: seq<string>, later: seq<string>, k: nat)
    requires k <= |later| && Run(env, front).pending == []
    ensures StillQuiet(env, Run(env, front).outputs, Run(env, front + later[..k]), later, k)
  {
    if k == 0 {
      assert front + later[..0] == front && later[..0] == [];
    } else {
      QuietSoFar(env, front, later, k - 1);
      assert front + later[..k] == (front + later[..k - 1]) + [later[k - 1]];
      RunSnoc(env, front + later[..k - 1], later[k - 1]);
      QuietStep(env, Run(env, front).outputs, Run(env, front + later[..k - 1]), later, k - 1, k);
    }
  }

  lemma SilentMeansQuiet(env: Env, lines: seq<string>)
    ensures Run(env, lines).outputs == Run(env, UpToDone(lines)).outputs <==> SilentAfterDone(env, lines)
  {
    var front, later := UpToDone(lines), Later(lines);
    assert front + later == lines;
    if later == [] {
      assert front == lines;
    } else {
      DoneClears(env, lines);
      QuietSoFar(env, front, later, |later|);
      assert later[..|later|] == later;
    }
  }

  /**
    The outputs are independent of chunking exactly for streams whose lines after
    the first [DONE] are silent.
   */
  lemma IndependentIff(env: Env, bytes: string)
    ensures ChunkingDoesNotMatter(env, bytes) <==> SilentAfterDone(env, LinesOf(bytes))
  {
    var lines := LinesOf(bytes);
    AllAtOnce(env, bytes);
    OneByteAtATime(env, bytes);
    SilentMeansQuiet(env, lines);
    if SilentAfterDone(env, lines) {
      forall chunks | Concat(chunks) == bytes ensures Deliver(env, chunks).0.outputs == Deliver(env, [bytes]).0.outputs {
        QuietChunks(env, chunks);
      }
    }
  }

  lemma QuietChunks(env: Env, chunks: seq<string>)
    requires var lines := LinesOf(Concat(chunks)); Run(env, lines).outputs == Run(env, UpToDone(lines)).outputs
    ensures Deliver(env, chunks).0.outputs == Run(env, UpToDone(LinesOf(Concat(chunks)))).outputs
  {
    var lines := LinesOf(Concat(chunks));
    var n := HandledLines(env, chunks);
    var d := |UpToDone(lines)|;
    RunGrows(env, lines, n);
    RunGrows(env, lines[..n], d);
    assert lines[..n][..d] == lines[..d];
  }

  /** Blank lines, and all lines without a data field, change nothing. */
  lemma {:induction false} QuietTail(env: Env, lines: seq<string>, m: nat)
    requires m <= |lines| && forall i :: m <= i < |lines| ==> DataField(lines[i]) == None
    ensures Run(env, lines) == Run(env, lines[..m])
    decreases |lines|
  {
    if m == |lines| {
      assert lines[..m] == lines;
    } else {
      QuietTail(env, lines[..|lines| - 1], m);
      assert lines[..|lines| - 1][..m] == lines[..m];
    }
  }

  /** With nothing but such lines after the first [DONE], every chunking ends in the very same state. */
  lemma ProtocolStreams(env: Env, chunks: seq<string>)
    requires var lines := LinesOf(Concat(chunks));
             forall i :: |UpToDone(lines)| <= i < |lines| ==> DataField(lines[i]) == None
    ensures Deliver(env, chunks).0 == Run(env, LinesOf(Concat(chunks))) == Deliver(env, [Concat(chunks)]).0
  {
    var lines := LinesOf(Concat(chunks));
    var n := HandledLines(env, chunks);
    QuietTail(env, lines, n);
    QuietTail(env, lines, |UpToDone(lines)|);
    AllAtOnce(env, Concat(chunks));
  }

  const DONE_LINE: string := "data: [DONE]"

  /** A stream that ends twice is told apart: once at a time it ends twice, all at once only once. */
  lemma TwoEndsMatter(env: Env)
    ensures !ChunkingDoesNotMatter(env, DONE_LINE + "\n" + DONE_LINE + "\n")
  {
    var line := DONE_LINE;
    var bytes := line + "\n" + line + "\n";
    OneLine(line);
    LineAppended(line + "\n", line);
    assert bytes == (line + "\n") + (line + "\n");
    var lines := LinesOf(bytes);
    assert lines == [line] + [line];
    assert IsDone(line) by { assert StripCr(line) == line && line[6..] == "[DONE]"; }
    UpToIs(lines, 1);
    assert Later(lines)[0] == line && !Silent(env, Later(lines), 0);
    IndependentIff(env, bytes);
  }

  // ---------- ids over a whole stream ----------

  /** The ids of the tool calls handed to the caller, in order. */
  function IdsOf(outputs: seq<Output>): seq<string> {
    if outputs == [] then []
    else
      var last := outputs[|outputs| - 1];
      IdsOf(outputs[..|outputs| - 1]) + (if last.Calls? then CallIds(last.calls) else [])
  }

  lemma IdsOfSnoc(outputs: seq<Output>, o: Output)
    ensures IdsOf(outputs + [o]) == IdsOf(outputs) + (if o.Calls? then CallIds(o.calls) else [])
  {
    assert (outputs + [o])[..|outputs|] == outputs;
  }

  /** The seen set is exactly what was emitted, and that is clean and distinct. */
  ghost predicate IdsOk(s: State) {
    Hygienic(IdsOf(s.outputs)) && forall id :: id in s.seen <==> id in IdsOf(s.outputs)
  }

  lemma HygienicAppend(a: seq<string>, b: seq<string>)
    requires Hygienic(a) && Hygienic(b) && forall id :: id in b ==> id !in a
    ensures Hygienic(a + b)
  {
    forall i, j | 0 <= i < j < |a + b| ensures (a + b)[i] != (a + b)[j] {
      if i < |a| <= j { assert b[j - |a|] in b; }
    }
  }

  lemma FlushIds(s: State, nz: Normalizer, keep: bool)
    requires IdsOk(s)
    ensures IdsOk(Flush(s, nz, keep))
  {
    EmittedIds(s.pending, nz, s.seen);
    var (calls, seen) := Emit(s.pending, nz, s.seen);
    if s.pending != [] {
      if calls != [] {
        IdsOfSnoc(s.outputs, Calls(calls));
        HygienicAppend(IdsOf(s.outputs), CallIds(calls));
      } else {
        assert CallIds(calls) == [] && s.outputs + [] == s.outputs;
      }
    }
  }

  lemma {:induction false} QuietOutputs(outputs: seq<Output>, more: seq<Output>)
    requires forall o :: o in more ==> !o.Calls?
    ensures IdsOf(outputs + more) == IdsOf(outputs)
    decreases |more|
  {
    if more == [] {
      assert outputs + more == outputs;
    } else {
      var init, o := more[..|more| - 1], more[|more| - 1];
      assert outputs + more == (outputs + init) + [o];
      QuietOutputs(outputs, init);
      IdsOfSnoc(outputs + init, o);
    }
  }

  lemma StepIds(env: Env, s: State, line: string)
    requires IdsOk(s)
    ensures IdsOk(Step(env, s, line))
  {
    var data := DataField(line);
    if data.Some? {
      if IsDone(line) {
        FlushIds(s, env.nz, false);
        IdsOfSnoc(Flush(s, env.nz, false).outputs, End);
      } else if env.parse(data.value).Some? {
        DeltaIds(env, s, line, env.parse(data.value).value);
      }
    }
  }

  lemma DeltaIds(env: Env, s: State, line: string, d: Delta)
    requires IdsOk(s) && DataField(line).Some? && !IsDone(line) && env.parse(DataField(line).value) == Some(d)
    ensures IdsOk(Step(env, s, line))
  {
    var next := s.(outputs := s.outputs + Texts(d), pending := AddCalls(s.pending, d.calls));
    QuietOutputs(s.outputs, Texts(d));
    FlushIds(next, env.nz, true);
  }

  lemma {:induction false} RunIds(env: Env, lines: seq<string>)
    ensures IdsOk(Run(env, lines))
  {
    if lines == [] {
      assert IdsOf([]) == [];
    } else {
      RunIds(env, lines[..|lines| - 1]);
      StepIds(env, Run(env, lines[..|lines| - 1]), lines[|lines| - 1]);
    }
  }

  /** On any stream, cut in any way, the tool-call ids handed out are clean and pairwise distinct. */
  lemma StreamIds(env: Env, chunks: seq<string>)
    ensures Hygienic(IdsOf(Deliver(env, chunks).0.outputs))
  {
    var n := HandledLines(env, chunks);
    RunIds(env, LinesOf(Concat(chunks))[..n]);
  }
}
