/**
  What pruning leaves of a tool result, and what a message is counted for.
 */
module PrunerContents {
  import opened Basics
  import opened Text
  import opened Transcript
  import opened Framing
  import opened Pruner

  // ---------- which results, and how ----------

  /**
    An old message without stale errors, behind the first user message: its
    results are omitted if at least hardPruneAfter assistant messages follow,
    shortened if they are too long, and kept otherwise; all else stays.
   */
  lemma OldResults(history: seq<Message>, opts: Options, i: nat, j: nat)
    requires i < |history| && j < |history[i].content|
    requires HasResult(history[i].content) && !HasStaleError(history[i].content) && !InBootstrap(history, i)
    requires var n := Max(1, Effective(history, opts).protectRecent); AssistantsFrom(history, 0) > n && AssistantsFrom(history, i + 1) >= n
    ensures |PruneSpec(history, opts)[i].content| == |history[i].content|
    ensures var b, r := history[i].content[j], PruneSpec(history, opts)[i].content[j];
            var effective := Effective(history, opts);
            var n := Max(1, effective.hardPruneAfter);
            if !b.ToolResult? then r == b
            else if AssistantsFrom(history, 0) > n && AssistantsFrom(history, i + 1) >= n then r == ToolResult(b.toolUseId, OMITTED_NOTE)
            else if |b.content| > effective.maxToolResultChars then r == ToolResult(b.toolUseId, SoftPrune(b.content, effective.softPruneLines))
            else r == b
  {
  }

  /** The first message from a user and all before it keep their results, but for stale errors. */
  lemma BootstrapKept(history: seq<Message>, opts: Options, i: nat)
    requires i < |history| && InBootstrap(history, i) && !HasStaleError(history[i].content)
    ensures PruneSpec(history, opts)[i] == history[i]
  {
  }

  predicate IsAssistant(m: Message) { m.role == "assistant" }

  /** What is counted are the assistant messages from lo on. */
  lemma {:induction false} CountsAssistants(history: seq<Message>, lo: nat)
    requires lo <= |history|
    ensures AssistantsFrom(history, lo) == |Filter(history[lo..], IsAssistant)|
    decreases |history| - lo
  {
    if lo < |history| {
      CountsAssistants(history, lo + 1);
      assert history[lo..] == [history[lo]] + history[lo + 1..];
      FilterAppend([history[lo]], history[lo + 1..], IsAssistant);
      assert [history[lo]][..0] == [];
    }
  }

  /** The bootstrap part ends with the first message from a user. */
  lemma BootstrapEnds(history: seq<Message>, first: nat, i: nat)
    requires first < |history| && history[first].role == "user" && forall k :: 0 <= k < first ==> history[k].role != "user"
    ensures InBootstrap(history, i) <==> i <= first
  {
  }

  // ---------- shortening ----------

  lemma {:induction false} LinesAreRecords(s: string)
    ensures Lines(s) == Records(s, "\n") + if Rest(s, "\n") != "" then [Rest(s, "\n")] else []
    decreases |s|
  {
    match Find(s, "\n", 0) {
      case None =>
      case Some(k) =>
        LinesAreRecords(s[k + 1..]);
        var last: seq<string> := if Rest(s, "\n") != "" then [Rest(s, "\n")] else [];
        AppendAssoc([s[..k]], Records(s[k + 1..], "\n"), last);
    }
  }

  lemma {:induction false} JoinedLines(lines: seq<string>)
    requires lines != []
    ensures JoinLines(lines, false) == Join(lines, "\n") && JoinLines(lines, true) == Join(lines, "\n") + "\n"
  {
    var first, rest := lines[0], lines[1..];
    assert lines == [first] + rest;
    if rest != [] {
      JoinedLines(rest);
      JoinFirst(first, rest, "\n");
      AppendAssoc(first + "\n", Join(rest, "\n"), "\n");
    } else {
      assert JoinLines(rest, true) == "" && JoinLines(rest, false) == "";
    }
  }

  /** A long text is cut to its first and last lines, with the number of those left out between them. */
  lemma SoftPruneText(content: string, lines: seq<string>, keep: nat) returns (head: string, note: string, count: string, tail: string)
    requires lines == Lines(content) && 0 < keep && |lines| > 2 * keep
    ensures count != "" && AllDigits(count) && DigitsValue(count) == |lines| - 2 * keep
    ensures note == "\n... [" + count + " lines omitted] ...\n\n"
    ensures head == Join(lines[..keep], "\n") + "\n" && tail == Join(lines[|lines| - keep..], "\n")
    ensures SoftPrune(content, keep) == head + note + tail
  {
    head, tail := JoinLines(lines[..keep], true), JoinLines(lines[|lines| - keep..], false);
    note, count := OmissionText(|lines| - keep * 2);
    assert SoftPrune(content, keep) == Shortened(lines, keep);
    Ends(lines, keep);
  }

  lemma OmissionText(n: nat) returns (note: string, count: string)
    ensures count != "" && AllDigits(count) && DigitsValue(count) == n
    ensures note == Omission(n) == "\n... [" + count + " lines omitted] ...\n\n"
  {
    note, count := Omission(n), ToDecimal(n);
    DecimalRoundTrip(n);
  }

  lemma Ends(lines: seq<string>, keep: nat)
    requires 0 < keep <= |lines|
    ensures JoinLines(lines[..keep], true) == Join(lines[..keep], "\n") + "\n"
    ensures JoinLines(lines[|lines| - keep..], false) == Join(lines[|lines| - keep..], "\n")
  {
    JoinedLines(lines[..keep]);
    JoinedLines(lines[|lines| - keep..]);
  }

  lemma ShortTextKept(content: string, keep: int)
    requires keep <= 0 || |Lines(content)| <= 2 * keep
    ensures SoftPrune(content, keep) == content
  {
  }

  // ---------- thresholds and estimates ----------

  lemma TruncateBound(x: real, n: int)
    requires 0.0 <= x <= n as real
    ensures 0 <= Truncate(x) <= n
  {
  }

  lemma Shrinks(x: nat, over: real)
    requires over >= 1.0
    ensures 0 <= Truncate(x as real / over) <= x
  {
    Quotient(x as real, over);
    TruncateBound(x as real / over, x);
  }

  lemma Quotient(x: real, over: real)
    requires x >= 0.0 && over >= 1.0
    ensures 0.0 <= x / over <= x
  {
    var q := x / over;
    assert q * over == x && q * (over - 1.0) == x - q;
  }

  lemma AtLeastOne(a: real, b: real)
    requires a >= b > 0.0
    ensures a / b >= 1.0
  {
    assert (a / b) * b == a;
  }

  lemma Scaled(x: nat, floor: nat, tokens: nat, budget: nat)
    requires x >= floor && 0 < budget < tokens
    ensures floor <= Scale(x, floor, tokens, budget) <= x
  {
    AtLeastOne(tokens as real, budget as real);
    Shrinks(x, tokens as real / budget as real);
  }

  /** A threshold is scaled down by budget over tokens, rounded down, but not below its floor. */
  lemma ScaleIs(x: nat, floor: nat, tokens: nat, budget: nat) returns (n: nat)
    requires 0 < budget < tokens
    ensures IsShare(n, x, tokens, budget) && Scale(x, floor, tokens, budget) == Max(floor, n)
  {
    var t, b := tokens as real, budget as real;
    var q := x as real / (t / b);
    Cross(x as real, t, b);
    n := q.Floor;
    Between(n, n + 1, x, tokens, budget, q, t);
  }

  lemma Cross(x: real, t: real, b: real)
    requires x >= 0.0 && t > 0.0 && b > 0.0
    ensures (x / (t / b)) * t == x * b && x / (t / b) >= 0.0
  {
    var over := t / b;
    assert over * b == t && over > 0.0;
    var q := x / over;
    assert q * over == x;
    assert q * t == q * (over * b) == (q * over) * b;
  }

  lemma Times(a: real, b: real, t: real)
    requires a <= b && t > 0.0
    ensures a * t <= b * t
  {
    assert (b - a) * t >= 0.0;
  }

  lemma TimesLess(a: real, b: real, t: real)
    requires a < b && t > 0.0
    ensures a * t < b * t
  {
    assert (b - a) * t > 0.0;
  }

  /** Products of integers are the same among the reals. */
  lemma RealTimes(a: int, b: int)
    ensures (a * b) as real == a as real * b as real
  {
  }

  lemma Ordered(low: int, share: int, high: int, a: real, b: real, c: real)
    requires low as real == a && share as real == b && high as real == c && a <= b < c
    ensures low <= share < high
  {
  }

  lemma Between(n: int, m: int, x: nat, tokens: nat, budget: nat, q: real, t: real)
    requires t > 0.0 && t == tokens as real && q * t == x as real * budget as real && n as real <= q < m as real
    ensures n * tokens <= x * budget < m * tokens
  {
    Times(n as real, q, t);
    TimesLess(q, m as real, t);
    RealTimes(n, tokens);
    RealTimes(x, budget);
    RealTimes(m, tokens);
    Ordered(n * tokens, x * budget, m * tokens, n as real * t, q * t, m as real * t);
  }

  /** The budget is a share of the window, rounded down, less what is set aside for the answer. */
  lemma BudgetIs(opts: Options)
    requires opts.contextWindow >= 0 && opts.targetRatio >= 0.0
    ensures var n := (Budget(opts) + opts.maxTokens) as real;
            n <= opts.contextWindow as real * opts.targetRatio < n + 1.0
  {
    assert opts.contextWindow as real * opts.targetRatio >= 0.0;
  }

  /** How share n of x is told: in integers. */
  predicate IsShare(n: nat, x: int, tokens: nat, budget: int) { n * tokens <= x * budget < (n + 1) * tokens }

  /** The thresholds change only for a history over its budget, each to the same share of itself and not below its floor. */
  lemma EffectiveIs(history: seq<Message>, opts: Options) returns (chars: nat, recent: nat, hard: nat)
    requires opts.maxToolResultChars >= 0 && opts.protectRecent >= 0 && opts.hardPruneAfter >= 0
    ensures var e, b, t := Effective(history, opts), Budget(opts), Cost(history);
            if opts.contextWindow > 0 && 0 < b < t then
              && e == opts.(maxToolResultChars := Max(200, chars), protectRecent := Max(1, recent), hardPruneAfter := Max(3, hard))
              && IsShare(chars, opts.maxToolResultChars, t, b) && IsShare(recent, opts.protectRecent, t, b) && IsShare(hard, opts.hardPruneAfter, t, b)
            else e == opts
  {
    var b, t := Budget(opts), Cost(history);
    chars, recent, hard := 0, 0, 0;
    if opts.contextWindow > 0 && 0 < b < t {
      chars := ScaleIs(opts.maxToolResultChars, 200, t, b);
      recent := ScaleIs(opts.protectRecent, 1, t, b);
      hard := ScaleIs(opts.hardPruneAfter, 3, t, b);
    }
  }

  /** A full window only tightens the thresholds, down to a floor. */
  lemma ThresholdsTighten(history: seq<Message>, opts: Options)
    requires opts.protectRecent >= 1 && opts.hardPruneAfter >= 3 && opts.maxToolResultChars >= 200
    ensures var e := Effective(history, opts);
            && 1 <= e.protectRecent <= opts.protectRecent && 3 <= e.hardPruneAfter <= opts.hardPruneAfter
            && 200 <= e.maxToolResultChars <= opts.maxToolResultChars && e.softPruneLines == opts.softPruneLines
  {
    var budget, tokens := Budget(opts), Cost(history);
    if opts.contextWindow > 0 && budget > 0 && tokens > budget {
      Scaled(opts.protectRecent, 1, tokens, budget);
      Scaled(opts.hardPruneAfter, 3, tokens, budget);
      Scaled(opts.maxToolResultChars, 200, tokens, budget);
    }
  }

  lemma {:induction false} CharsAppend(a: seq<Block>, b: seq<Block>)
    ensures Chars(a + b) == Chars(a) + Chars(b)
  {
    if a == [] {
      assert a + b == b;
    } else {
      assert (a + b)[1..] == a[1..] + b && (a + b)[0] == a[0];
      CharsAppend(a[1..], b);
    }
  }

  /** Every block counts with its text: words, thoughts, results and the arguments of calls. */
  lemma CharsOfOne(b: Block)
    ensures b.TextBlock? || b.Thinking? ==> Chars([b]) == |b.text|
    ensures b.ToolResult? ==> Chars([b]) == |b.content|
    ensures b.ToolUse? ==> Chars([b]) == if b.input == Null then 0 else |b.input.Dump()|
  {
    assert [b][1..] == [];
  }

  /** Four characters are taken for a token, the role included. */
  lemma TextCost(role: string, text: string)
    ensures var n := EstimateTokens(TextMessage(role, text)); 4 * n <= |role| + |text| < 4 * n + 4
  {
    if text != "" { CharsOfOne(TextBlock(text)); }
  }
}
