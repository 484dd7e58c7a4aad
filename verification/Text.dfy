/**
  The string operations the gateway leans on: whitespace tests and trimming,
  substring search, and decimal printing and reading.
 */
module Text {

  datatype Option<+T> = None | Some(value: T)

  /** isspace in the C locale. */
  predicate IsSpace(c: char) {
    c == ' ' || '\t' <= c <= '\r'
  }

  predicate HasNonWhitespace(s: string) {
    exists i :: 0 <= i < |s| && !IsSpace(s[i])
  }

  function TrimLeft(s: string): (r: string)
    ensures r == [] || !IsSpace(r[0])
    ensures HasNonWhitespace(s) ==> r != []
  {
    if s != [] && IsSpace(s[0]) then
      assert HasNonWhitespace(s) ==> HasNonWhitespace(s[1..]) by {
        if HasNonWhitespace(s) {
          var i :| 0 <= i < |s| && !IsSpace(s[i]);
          assert s[1..][i - 1] == s[i];
        }
      }
      TrimLeft(s[1..])
    else s
  }

  function TrimRight(s: string): (r: string)
    ensures r <= s
    ensures r == [] || !IsSpace(r[|r| - 1])
  {
    if s != [] && IsSpace(s[|s| - 1]) then TrimRight(s[..|s| - 1]) else s
  }

  function Trim(s: string): string {
    TrimLeft(TrimRight(s))
  }

  /** Already trimmed and not blank: what a usable tool-call id looks like. */
  predicate IsClean(s: string) {
    s != [] && !IsSpace(s[0]) && !IsSpace(s[|s| - 1])
  }

  lemma CleanIsFixed(s: string)
    requires IsClean(s)
    ensures Trim(s) == s && HasNonWhitespace(s)
  {
    assert TrimRight(s) == s;
    assert !IsSpace(s[0]);
  }

  lemma {:induction false} TrimLeftKeepsEnd(s: string)
    ensures TrimLeft(s) != [] ==> s != [] && TrimLeft(s)[|TrimLeft(s)| - 1] == s[|s| - 1]
  {
    if s != [] && IsSpace(s[0]) {
      TrimLeftKeepsEnd(s[1..]);
    }
  }

  /** Trimming yields either nothing or a clean string. */
  lemma TrimIsClean(s: string)
    ensures Trim(s) == [] || IsClean(Trim(s))
  {
    TrimLeftKeepsEnd(TrimRight(s));
  }

  predicate Blank(s: string) { forall i :: 0 <= i < |s| ==> IsSpace(s[i]) }

  lemma {:induction false} TrimLeftDrops(s: string) returns (n: nat)
    ensures n <= |s| && TrimLeft(s) == s[n..] && Blank(s[..n])
  {
    n := 0;
    if s != [] && IsSpace(s[0]) {
      var rest := TrimLeftDrops(s[1..]);
      n := rest + 1;
      assert s[n..] == s[1..][rest..];
      assert forall i :: 1 <= i < n ==> s[i] == s[1..][..rest][i - 1];
    }
  }

  lemma {:induction false} TrimRightDrops(s: string)
    ensures Blank(s[|TrimRight(s)|..])
  {
    if s != [] && IsSpace(s[|s| - 1]) {
      var init := s[..|s| - 1];
      TrimRightDrops(init);
      assert forall i :: |TrimRight(s)| <= i < |init| ==> s[i] == init[|TrimRight(s)|..][i - |TrimRight(s)|];
    }
  }

  /** Trimming takes blanks off both ends and nothing else. */
  lemma TrimDrops(s: string) returns (front: string, back: string)
    ensures s == front + Trim(s) + back && Blank(front) && Blank(back)
  {
    var r := TrimRight(s);
    var n := TrimLeftDrops(r);
    TrimRightDrops(s);
    front, back := r[..n], s[|r|..];
    assert s == r + back && r == front + r[n..];
  }

  predicate OccursAt(s: string, pat: string, k: int) {
    0 <= k && k + |pat| <= |s| && s[k..k + |pat|] == pat
  }

  /** Index of the first occurrence of pat in s at or after from, or None (npos). */
  function Find(s: string, pat: string, from: nat): (r: Option<nat>)
    ensures r.Some? ==> from <= r.value && OccursAt(s, pat, r.value)
    ensures forall k :: from <= k < (if r.Some? then r.value else |s| + 1) ==> !OccursAt(s, pat, k)
    decreases |s| - from
  {
    if from + |pat| > |s| then None
    else if OccursAt(s, pat, from) then Some(from)
    else Find(s, pat, from + 1)
  }

  predicate Contains(s: string, pat: string) {
    Find(s, pat, 0).Some?
  }

  /** A differing character rules an occurrence out. */
  lemma NotAt(s: string, pat: string, k: nat, i: nat)
    requires i < |pat| && k + i < |s| && s[k + i] != pat[i]
    ensures !OccursAt(s, pat, k)
  {
    if k + |pat| <= |s| {
      assert s[k..k + |pat|][i] == s[k + i];
    }
  }

  lemma FindFirst(s: string, pat: string, from: nat, at: nat)
    requires from <= at && OccursAt(s, pat, at)
    requires forall k :: from <= k < at ==> !OccursAt(s, pat, k)
    ensures Find(s, pat, from) == Some(at)
  {
    assert at < |s| + 1;
  }

  /** A character that does not occur cannot be found. */
  lemma NotFound(s: string, c: char, from: nat)
    requires c !in s
    ensures Find(s, [c], from) == None
  {
    forall k | 0 <= k < |s| ensures !OccursAt(s, [c], k) {
      NotAt(s, [c], k, 0);
    }
  }

  lemma CharAt(s: string, c: char, k: nat)
    requires k < |s|
    ensures OccursAt(s, [c], k) <==> s[k] == c
  {
    assert s[k..k + 1] == [s[k]];
  }

  lemma NoneFound(s: string, c: char)
    requires Find(s, [c], 0) == None
    ensures c !in s
  {
    forall j | 0 <= j < |s| ensures s[j] != c {
      assert !OccursAt(s, [c], j);
      CharAt(s, c, j);
    }
  }

  lemma NoneBefore(s: string, c: char, k: nat)
    requires Find(s, [c], 0) == Some(k)
    ensures k < |s| && s[k] == c && forall j :: 0 <= j < k ==> s[j] != c
  {
    CharAt(s, c, k);
    forall j | 0 <= j < k ensures s[j] != c {
      CharAt(s, c, j);
    }
  }

  lemma CutIs(s: string, c: char, k: nat)
    requires k < |s| && s[k] == c
    ensures s == s[..k] + [c] + s[k + 1..]
  {
  }

  /** The first occurrence of a character cuts the text in two. */
  lemma CutAt(s: string, c: char, k: nat)
    requires Find(s, [c], 0) == Some(k)
    ensures k < |s| && s == s[..k] + [c] + s[k + 1..] && c !in s[..k]
  {
    NoneBefore(s, c, k);
    CutIs(s, c, k);
  }

  /** The first occurrence of a character after a text without it. */
  lemma FoundAfter(a: string, c: char, b: string)
    requires c !in a
    ensures Find(a + [c] + b, [c], 0) == Some(|a|)
  {
    var s := a + [c] + b;
    assert s[|a|..|a| + 1] == [c];
    forall k | 0 <= k < |a| ensures !OccursAt(s, [c], k) {
      assert s[k] == a[k];
      NotAt(s, [c], k, 0);
    }
    FindFirst(s, [c], 0, |a|);
  }

  // ---------- decimal numbers ----------

  predicate IsDigit(c: char) { '0' <= c <= '9' }

  predicate AllDigits(s: string) { forall i :: 0 <= i < |s| ==> IsDigit(s[i]) }

  /** std::to_string on a non-negative number. */
  function ToDecimal(n: nat): (s: string)
    ensures s != [] && AllDigits(s)
  {
    var last := ('0' as int + n % 10) as char;
    if n < 10 then [last] else ToDecimal(n / 10) + [last]
  }

  /** The number a run of digits denotes. */
  function DigitsValue(s: string): nat
    requires AllDigits(s)
  {
    if s == [] then 0
    else DigitsValue(s[..|s| - 1]) * 10 + (s[|s| - 1] as int - '0' as int)
  }

  /** Printing then reading gives the number back. */
  lemma {:induction false} DecimalRoundTrip(n: nat)
    ensures DigitsValue(ToDecimal(n)) == n
  {
    if n >= 10 {
      DecimalRoundTrip(n / 10);
      assert ToDecimal(n)[..|ToDecimal(n)| - 1] == ToDecimal(n / 10);
    }
  }

  lemma DecimalInjective(m: nat, n: nat)
    requires ToDecimal(m) == ToDecimal(n)
    ensures m == n
  {
    DecimalRoundTrip(m);
    DecimalRoundTrip(n);
  }
}
