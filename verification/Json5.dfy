/**
  Removing comments from a configuration file, outside string literals
  (src/core/config.cpp).
 */
module Json5 {
  import opened Basics
  import opened Text
  import opened Framing

  /** How much of s, from inside a string literal, belongs to it; escapes hide quotes. */
  function LiteralLength(s: string): (n: nat)
    ensures n <= |s|
  {
    if s == [] then 0
    else if s[0] == '"' then 1
    else if s[0] == '\\' && |s| > 1 then 2 + LiteralLength(s[2..])
    else 1 + LiteralLength(s[1..])
  }

  /** How much of s belongs to a line comment; its newline does not. */
  function LineLength(s: string): (n: nat)
    ensures n <= |s|
  {
    if s == [] || s[0] == '\n' then 0 else 1 + LineLength(s[1..])
  }

  /** How much of s, after the opener, belongs to a block comment. An unclosed one leaves its last character over. */
  function BlockLength(s: string): (n: nat)
    ensures n <= |s|
  {
    if |s| <= 1 then 0
    else if s[0] == '*' && s[1] == '/' then 2
    else 1 + BlockLength(s[1..])
  }

  predicate OpensLine(s: string) { |s| > 1 && s[0] == '/' && s[1] == '/' }

  predicate OpensBlock(s: string) { |s| > 1 && s[0] == '/' && s[1] == '*' }

  function Strip(s: string): string
    decreases |s|
  {
    if s == [] then []
    else if s[0] == '"' then
      var n := 1 + LiteralLength(s[1..]);
      s[..n] + Strip(s[n..])
    else if OpensLine(s) then Strip(s[2 + LineLength(s[2..])..])
    else if OpensBlock(s) then Strip(s[2 + BlockLength(s[2..])..])
    else [s[0]] + Strip(s[1..])
  }

  lemma SliceMore(s: string, a: nat, b: nat, c: nat)
    requires a <= b <= c <= |s|
    ensures s[a..b] + s[b..c] == s[a..c]
  {
  }

  /** An escaped character is passed in one step with its backslash. */
  lemma LiteralStep(s: string, i: nat)
    requires i < |s| && s[i] != '"'
    ensures var next := if s[i] == '\\' && i + 1 < |s| then i + 2 else i + 1;
            i + LiteralLength(s[i..]) == next + LiteralLength(s[next..])
  {
    assert s[i..][1..] == s[i + 1..] && (i + 1 < |s| ==> s[i..][2..] == s[i + 2..]);
  }

  /** Copies the literal whose opening quote is at start. */
  method CopyLiteral(input: string, start: nat) returns (i: nat, out: string)
    requires start < |input| && input[start] == '"'
    ensures i == start + 1 + LiteralLength(input[start + 1..]) && out == input[start..i]
  {
    i, out := start + 1, "\"";
    while i < |input| && input[i] != '"'
      invariant start < i <= |input| && out == input[start..i]
      invariant i + LiteralLength(input[i..]) == start + 1 + LiteralLength(input[start + 1..])
    {
      LiteralStep(input, i);
      var next := if input[i] == '\\' && i + 1 < |input| then i + 2 else i + 1;
      SliceMore(input, start, i, next);
      out := out + input[i..next];
      i := next;
    }
    if i < |input| {
      SliceMore(input, start, i, i + 1);
      out := out + ['"'];
      i := i + 1;
    }
  }

  method SkipLine(input: string, start: nat) returns (i: nat)
    requires start <= |input|
    ensures i == start + LineLength(input[start..])
  {
    i := start;
    while i < |input| && input[i] != '\n'
      invariant start <= i <= |input| && i + LineLength(input[i..]) == start + LineLength(input[start..])
    {
      assert input[i..][1..] == input[i + 1..];
      i := i + 1;
    }
  }

  method SkipBlock(input: string, start: nat) returns (i: nat)
    requires start <= |input|
    ensures i == start + BlockLength(input[start..])
  {
    i := start;
    while i + 1 < |input| && !(input[i] == '*' && input[i + 1] == '/')
      invariant start <= i <= |input| && i + BlockLength(input[i..]) == start + BlockLength(input[start..])
    {
      assert input[i..][1..] == input[i + 1..];
      i := i + 1;
    }
    if i + 1 < |input| {
      i := i + 2;
    }
  }

  lemma StripLiteral(input: string, i: nat, end: nat)
    requires i < |input| && input[i] == '"' && end == i + 1 + LiteralLength(input[i + 1..])
    ensures Strip(input[i..]) == input[i..end] + Strip(input[end..])
  {
    var rest := input[i..];
    assert rest[1..] == input[i + 1..] && rest[..end - i] == input[i..end] && rest[end - i..] == input[end..];
  }

  lemma StripLine(input: string, i: nat, end: nat)
    requires i < |input| && OpensLine(input[i..]) && end == i + 2 + LineLength(input[i + 2..])
    ensures Strip(input[i..]) == Strip(input[end..])
  {
    assert input[i..][2..] == input[i + 2..] && input[i..][end - i..] == input[end..];
  }

  lemma StripBlock(input: string, i: nat, end: nat)
    requires i < |input| && OpensBlock(input[i..]) && end == i + 2 + BlockLength(input[i + 2..])
    ensures Strip(input[i..]) == Strip(input[end..])
  {
    assert input[i..][2..] == input[i + 2..] && input[i..][end - i..] == input[end..];
  }

  lemma StripOther(input: string, i: nat)
    requires i < |input| && input[i] != '"' && !OpensLine(input[i..]) && !OpensBlock(input[i..])
    ensures Strip(input[i..]) == [input[i]] + Strip(input[i + 1..])
  {
    assert input[i..][1..] == input[i + 1..];
  }

  /** The comment pass of strip_json5. */
  method StripComments(input: string) returns (out: string)
    ensures out == Strip(input)
  {
    out := "";
    var i := 0;
    while i < |input|
      invariant 0 <= i <= |input| && out + Strip(input[i..]) == Strip(input)
      decreases |input| - i
    {
      if input[i] == '"' {
        var end, text := CopyLiteral(input, i);
        StripLiteral(input, i, end);
        AppendAssoc(out, text, Strip(input[end..]));
        out := out + text;
        i := end;
      } else if i + 1 < |input| && input[i] == '/' && input[i + 1] == '/' {
        var end := SkipLine(input, i + 2);
        StripLine(input, i, end);
        i := end;
      } else if i + 1 < |input| && input[i] == '/' && input[i + 1] == '*' {
        var end := SkipBlock(input, i + 2);
        StripBlock(input, i, end);
        i := end;
      } else {
        StripOther(input, i);
        AppendAssoc(out, [input[i]], Strip(input[i + 1..]));
        out := out + [input[i]];
        i := i + 1;
      }
    }
    assert input[i..] == [];
  }

  // ---------- piece by piece ----------

  /** Text between the quotes of a literal: no quote but behind a backslash, and no backslash left open. */
  predicate IsBody(b: string) {
    b == [] || (if b[0] == '\\' then |b| > 1 && IsBody(b[2..]) else b[0] != '"' && IsBody(b[1..]))
  }

  lemma {:induction false} BodyLength(b: string, rest: string)
    requires IsBody(b)
    ensures LiteralLength(b + rest) == |b| + LiteralLength(rest)
  {
    if b == [] {
      assert b + rest == rest;
    } else if b[0] == '\\' {
      assert (b + rest)[2..] == b[2..] + rest;
      BodyLength(b[2..], rest);
    } else {
      assert (b + rest)[1..] == b[1..] + rest;
      BodyLength(b[1..], rest);
    }
  }

  lemma {:induction false} LineEnds(c: string, rest: string)
    requires '\n' !in c
    ensures LineLength(c + rest) == |c| + LineLength(rest)
  {
    if c == [] {
      assert c + rest == rest;
    } else {
      assert (c + rest)[1..] == c[1..] + rest;
      LineEnds(c[1..], rest);
    }
  }

  /** Text without quotes and slashes is copied. */
  lemma {:induction false} PlainPart(a: string, rest: string)
    requires '"' !in a && '/' !in a
    ensures Strip(a + rest) == a + Strip(rest)
  {
    if a == [] {
      assert a + rest == rest;
    } else {
      PlainPart(a[1..], rest);
      PlainOne(a[0], a[1..] + rest);
      assert a + rest == [a[0]] + (a[1..] + rest);
    }
  }

  lemma PlainOne(c: char, rest: string)
    requires c != '"' && c != '/'
    ensures Strip([c] + rest) == [c] + Strip(rest)
  {
    assert ([c] + rest)[1..] == rest;
  }

  /** A slash alone is copied. */
  lemma SlashPart(rest: string)
    requires rest == [] || (rest[0] != '/' && rest[0] != '*')
    ensures Strip(['/'] + rest) == ['/'] + Strip(rest)
  {
    assert (['/'] + rest)[1..] == rest;
  }

  /** A literal is copied, whatever it holds; one that is never closed is copied to the end. */
  lemma LiteralPart(body: string, rest: string)
    requires IsBody(body)
    ensures Strip(['"'] + body + ['"'] + rest) == ['"'] + body + ['"'] + Strip(rest)
    ensures Strip(['"'] + body) == ['"'] + body
  {
    var s, literal := ['"'] + body + ['"'] + rest, ['"'] + body + ['"'];
    assert s[1..] == body + (['"'] + rest) && s[..|body| + 2] == literal && s[|body| + 2..] == rest;
    BodyLength(body, ['"'] + rest);
    var open := ['"'] + body;
    assert open[1..] == body && body + [] == body && open[..|open|] == open && open[|open|..] == [];
    BodyLength(body, []);
  }

  /** A line comment goes, its newline stays. */
  lemma LinePart(c: string, rest: string)
    requires '\n' !in c
    ensures Strip(['/', '/'] + c + ['\n'] + rest) == ['\n'] + Strip(rest)
    ensures Strip(['/', '/'] + c) == []
  {
    var s, left := ['/', '/'] + c + ['\n'] + rest, ['\n'] + rest;
    assert s[2..] == c + left && s[|c| + 2..] == left && left[1..] == rest;
    LineEnds(c, left);
    var last := ['/', '/'] + c;
    assert last[2..] == c && c + [] == c && last[|last|..] == [];
    LineEnds(c, []);
  }

  /** A block comment goes up to its first closer. */
  lemma BlockPart(c: string, rest: string)
    requires Find(c + "*/", "*/", 0) == Some(|c|)
    ensures Strip("/*" + c + "*/" + rest) == Strip(rest)
  {
    var s := "/*" + (c + "*/" + rest);
    assert s == "/*" + c + "*/" + rest;
    assert s[2..] == (c + "*/") + rest && s[|c| + 4..] == rest;
    FindInFront(c + "*/", rest, "*/");
    BlockScan(s[2..], 0);
    assert s[2..][0..] == s[2..];
  }

  // ---------- what is left ----------

  /** A literal that was closed ends at the same place whatever follows; an open one is the whole text. */
  lemma {:induction false} LiteralKept(s: string, t: string)
    requires LiteralLength(s) < |s| || t == []
    ensures LiteralLength(s[..LiteralLength(s)] + t) == LiteralLength(s)
  {
    var n := LiteralLength(s);
    var u := s[..n] + t;
    if t == [] && n == |s| {
      assert u == s;
    } else if s[0] == '"' {
      assert u[0] == '"';
    } else if s[0] == '\\' && |s| > 1 {
      LiteralKept(s[2..], t);
      assert u[2..] == s[2..][..n - 2] + t;
    } else {
      LiteralKept(s[1..], t);
      assert u[1..] == s[1..][..n - 1] + t;
    }
  }

  lemma LiteralStays(s: string, t: string)
    requires s != [] && s[0] == '"' && (1 + LiteralLength(s[1..]) < |s| || t == [])
    ensures Strip(s[..1 + LiteralLength(s[1..])] + t) == s[..1 + LiteralLength(s[1..])] + Strip(t)
  {
    var n := 1 + LiteralLength(s[1..]);
    var u := s[..n] + t;
    LiteralKept(s[1..], t);
    assert u[1..] == s[1..][..n - 1] + t;
    assert u[..n] == s[..n] && u[n..] == t;
  }

  /** A slash that is kept is never followed by text that would make it a comment. */
  lemma SlashStays(s: string)
    requires s != [] && s[0] == '/' && !OpensLine(s) && !OpensBlock(s)
    ensures !OpensLine([s[0]] + Strip(s[1..])) && !OpensBlock([s[0]] + Strip(s[1..]))
  {
    var t := s[1..];
    if t != [] {
      assert t[0] == s[1] && !OpensLine(t) && !OpensBlock(t);
      assert Strip(t)[0] == t[0];
    }
  }

  /** Removing comments again removes nothing: none is left, and none came into being by joining what was around one. */
  lemma {:induction false} StripIdempotent(s: string)
    ensures Strip(Strip(s)) == Strip(s)
    decreases |s|
  {
    if s == [] {
    } else if s[0] == '"' {
      var n := 1 + LiteralLength(s[1..]);
      StripIdempotent(s[n..]);
      LiteralStays(s, Strip(s[n..]));
    } else if OpensLine(s) {
      StripIdempotent(s[2 + LineLength(s[2..])..]);
    } else if OpensBlock(s) {
      StripIdempotent(s[2 + BlockLength(s[2..])..]);
    } else {
      var t := Strip(s[1..]);
      StripIdempotent(s[1..]);
      if s[0] == '/' { SlashStays(s); }
      assert ([s[0]] + t)[1..] == t;
    }
  }

  /** Text without slashes outside literals is left alone; so a file of plain JSON is. */
  predicate NoComments(s: string)
    decreases |s|
  {
    if s == [] then true
    else if s[0] == '"' then NoComments(s[1 + LiteralLength(s[1..])..])
    else !OpensLine(s) && !OpensBlock(s) && NoComments(s[1..])
  }

  /** Exactly the texts without comments come through unchanged. */
  lemma {:induction false} UnchangedIff(s: string)
    ensures Strip(s) == s <==> NoComments(s)
    ensures |Strip(s)| <= |s|
    decreases |s|
  {
    if s == [] {
    } else if s[0] == '"' {
      var n := 1 + LiteralLength(s[1..]);
      UnchangedIff(s[n..]);
      assert s == s[..n] + s[n..];
      assert Strip(s)[n..] == Strip(s[n..]);
    } else if OpensLine(s) {
      UnchangedIff(s[2 + LineLength(s[2..])..]);
    } else if OpensBlock(s) {
      UnchangedIff(s[2 + BlockLength(s[2..])..]);
    } else {
      UnchangedIff(s[1..]);
      assert s == [s[0]] + s[1..];
      assert Strip(s)[1..] == Strip(s[1..]);
    }
  }

  /** The result never holds a comment. */
  lemma NoneLeft(s: string)
    ensures NoComments(Strip(s))
  {
    StripIdempotent(s);
    UnchangedIff(Strip(s));
  }

  // ---------- unclosed comments ----------

  /** What the pass is meant to do: a block comment ends at the first closer after its opener, or never. */
  function Meant(s: string): string
    decreases |s|
  {
    if s == [] then []
    else if s[0] == '"' then
      var n := 1 + LiteralLength(s[1..]);
      s[..n] + Meant(s[n..])
    else if OpensLine(s) then Meant(s[2 + LineLength(s[2..])..])
    else if OpensBlock(s) then
      (match Find(s, "*/", 2)
       case None => []
       case Some(k) => Meant(s[k + 2..]))
    else [s[0]] + Meant(s[1..])
  }

  /** The text ends inside a block comment that is not closed and not empty. */
  predicate EndsInside(s: string)
    decreases |s|
  {
    if s == [] then false
    else if s[0] == '"' then EndsInside(s[1 + LiteralLength(s[1..])..])
    else if OpensLine(s) then EndsInside(s[2 + LineLength(s[2..])..])
    else if OpensBlock(s) then
      (match Find(s, "*/", 2)
       case None => |s| > 2
       case Some(k) => EndsInside(s[k + 2..]))
    else EndsInside(s[1..])
  }

  lemma CloserAt(s: string, i: nat)
    requires i + 1 < |s|
    ensures OccursAt(s, "*/", i) <==> s[i] == '*' && s[i + 1] == '/'
  {
    assert s[i..i + 2] == [s[i], s[i + 1]];
  }

  /** The scan stops behind the first closer; without one it stops a character early. */
  lemma {:induction false} BlockScan(s: string, i: nat)
    requires i <= |s|
    ensures match Find(s, "*/", i)
            case None => i + BlockLength(s[i..]) == (if i < |s| then |s| - 1 else |s|)
            case Some(k) => i + BlockLength(s[i..]) == k + 2
    decreases |s| - i
  {
    if i + 1 < |s| {
      CloserAt(s, i);
      assert s[i..][1..] == s[i + 1..];
      if !OccursAt(s, "*/", i) { BlockScan(s, i + 1); }
    }
  }

  /** One left-over character stands for itself. */
  lemma StripOne(c: char)
    ensures Strip([c]) == [c]
  {
    assert [c][1..] == [] && [c][..1] == [c];
  }

  /** What comes out that should not: the last character of an unclosed comment. */
  function Leftover(s: string): string { if s != [] && EndsInside(s) then [s[|s| - 1]] else [] }

  lemma SameLeftover(s: string, n: nat)
    requires n <= |s| && EndsInside(s) == EndsInside(s[n..])
    ensures Leftover(s) == Leftover(s[n..])
  {
  }

  lemma {:induction false} StripIsMeant(s: string)
    ensures Strip(s) == Meant(s) + Leftover(s)
    decreases |s|, 1
  {
    if s == [] {
    } else if s[0] == '"' {
      var n := 1 + LiteralLength(s[1..]);
      StripIsMeant(s[n..]);
      SameLeftover(s, n);
      AppendAssoc(s[..n], Meant(s[n..]), Leftover(s));
    } else if OpensLine(s) {
      StripIsMeant(s[2 + LineLength(s[2..])..]);
      SameLeftover(s, 2 + LineLength(s[2..]));
    } else if OpensBlock(s) {
      StripIsMeantBlock(s);
    } else {
      StripIsMeant(s[1..]);
      SameLeftover(s, 1);
      AppendAssoc([s[0]], Meant(s[1..]), Leftover(s));
    }
  }

  lemma UnclosedBlock(s: string)
    requires |s| > 2 && OpensBlock(s) && Find(s, "*/", 2) == None
    ensures Strip(s) == [s[|s| - 1]]
  {
    BlockScan(s, 2);
    assert s[2 + BlockLength(s[2..])..] == [s[|s| - 1]];
    StripOne(s[|s| - 1]);
  }

  lemma {:induction false} StripIsMeantBlock(s: string)
    requires s != [] && OpensBlock(s)
    ensures Strip(s) == Meant(s) + Leftover(s)
    decreases |s|, 0
  {
    BlockScan(s, 2);
    match Find(s, "*/", 2) {
      case None =>
        if |s| > 2 { UnclosedBlock(s); }
      case Some(k) =>
        StripIsMeant(s[k + 2..]);
        SameLeftover(s, k + 2);
    }
  }

  /**
    For every text: the pass does what it is meant to do exactly when the text
    does not end inside an unclosed comment, and otherwise the last character of
    that comment comes out at the end.
   */
  lemma UnclosedLeaks(s: string)
    ensures Strip(s) == Meant(s) <==> !EndsInside(s)
    ensures EndsInside(s) ==> s != [] && Strip(s) == Meant(s) + [s[|s| - 1]]
  {
    StripIsMeant(s);
  }
}
