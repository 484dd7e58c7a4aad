/**
  Percent-encoding and query parameters (src/auth/openai_codex_auth.cpp). Text is a sequence of bytes.
 */
module UrlCodec {
  import opened Basics
  import opened Text

  predicate IsByte(c: char) { c as int < 256 }

  predicate AllBytes(s: string) { forall i :: 0 <= i < |s| ==> IsByte(s[i]) }

  // ---------- hexadecimal ----------

  function HexDigit(n: nat): (c: char)
    requires n < 16
    ensures HexValue(c) == n
  {
    if n < 10 then ('0' as int + n) as char else ('A' as int + (n - 10)) as char
  }

  /** -1 for anything that is not a hexadecimal digit. */
  function HexValue(c: char): (v: int)
    ensures -1 <= v < 16
  {
    if '0' <= c <= '9' then c as int - '0' as int
    else if 'A' <= c <= 'F' then 10 + (c as int - 'A' as int)
    else if 'a' <= c <= 'f' then 10 + (c as int - 'a' as int)
    else -1
  }

  const UPPER: string := "0123456789ABCDEF"
  const LOWER: string := "0123456789abcdef"

  /** The digits print as in the upper-case table and read from both; nothing else reads as a digit. */
  lemma HexTables(n: nat, c: char)
    ensures n < 16 ==> HexDigit(n) == UPPER[n] && HexValue(UPPER[n]) == n && HexValue(LOWER[n]) == n
    ensures c !in UPPER && c !in LOWER ==> HexValue(c) == -1
  {
    if '0' <= c <= '9' {
      assert UPPER[c as int - '0' as int] == c;
    } else if 'A' <= c <= 'F' {
      assert UPPER[10 + (c as int - 'A' as int)] == c;
    } else if 'a' <= c <= 'f' {
      assert LOWER[10 + (c as int - 'a' as int)] == c;
    }
  }

  // ---------- encoding ----------

  /** The unreserved characters of section 2.3 of RFC 3986. */
  predicate Unreserved(c: char) {
    'A' <= c <= 'Z' || 'a' <= c <= 'z' || '0' <= c <= '9' || c == '-' || c == '_' || c == '.' || c == '~'
  }

  function EncodeByte(c: char): string
    requires IsByte(c)
  {
    if Unreserved(c) then [c] else ['%', HexDigit(c as int / 16), HexDigit(c as int % 16)]
  }

  function Encode(s: string): string
    requires AllBytes(s)
  {
    if s == [] then [] else EncodeByte(s[0]) + Encode(s[1..])
  }

  method UrlEncode(value: string) returns (out: string)
    requires AllBytes(value)
    ensures out == Encode(value)
  {
    out := "";
    for i := 0 to |value|
      invariant out + Encode(value[i..]) == Encode(value)
    {
      var ch := value[i];
      assert value[i..][0] == ch && value[i..][1..] == value[i + 1..];
      AppendAssoc(out, EncodeByte(ch), Encode(value[i + 1..]));
      if Unreserved(ch) {
        out := out + [ch];
      } else {
        out := out + ['%', HexDigit(ch as int / 16), HexDigit(ch as int % 16)];
      }
    }
    assert value[|value|..] == [];
  }

  // ---------- decoding ----------

  /** An escape with two hexadecimal digits at the start. */
  predicate Escaped(s: string) {
    |s| > 2 && s[0] == '%' && HexValue(s[1]) >= 0 && HexValue(s[2]) >= 0
  }

  /** Decoding; with `form`, a plus sign stands for a space. */
  function Decode(s: string, form: bool): string {
    if s == [] then []
    else if form && s[0] == '+' then [' '] + Decode(s[1..], form)
    else if Escaped(s) then [(16 * HexValue(s[1]) + HexValue(s[2])) as char] + Decode(s[3..], form)
    else [s[0]] + Decode(s[1..], form)
  }

  method UrlDecode(value: string) returns (out: string)
    ensures out == Decode(value, true)
  {
    out := "";
    var i := 0;
    while i < |value|
      invariant 0 <= i <= |value| && out + Decode(value[i..], true) == Decode(value, true)
    {
      ghost var rest := value[i..];
      var ch := value[i];
      assert rest[1..] == value[i + 1..];
      if ch == '+' {
        AppendAssoc(out, [' '], Decode(value[i + 1..], true));
        out := out + [' '];
        i := i + 1;
        continue;
      }
      if ch == '%' && i + 2 < |value| {
        var hi, lo := HexValue(value[i + 1]), HexValue(value[i + 2]);
        if hi >= 0 && lo >= 0 {
          assert rest[3..] == value[i + 3..] && Escaped(rest);
          AppendAssoc(out, [(16 * hi + lo) as char], Decode(value[i + 3..], true));
          out := out + [(16 * hi + lo) as char];
          i := i + 3;
          continue;
        }
      }
      AppendAssoc(out, [ch], Decode(value[i + 1..], true));
      out := out + [ch];
      i := i + 1;
    }
    assert value[i..] == [];
  }

  method UrlDecodePercentOnly(value: string) returns (out: string)
    ensures out == Decode(value, false)
  {
    out := "";
    var i := 0;
    while i < |value|
      invariant 0 <= i <= |value| && out + Decode(value[i..], false) == Decode(value, false)
    {
      ghost var rest := value[i..];
      assert rest[1..] == value[i + 1..];
      if value[i] == '%' && i + 2 < |value| {
        var hi, lo := HexValue(value[i + 1]), HexValue(value[i + 2]);
        if hi >= 0 && lo >= 0 {
          assert rest[3..] == value[i + 3..] && Escaped(rest);
          AppendAssoc(out, [(16 * hi + lo) as char], Decode(value[i + 3..], false));
          out := out + [(16 * hi + lo) as char];
          i := i + 3;
          continue;
        }
      }
      AppendAssoc(out, [value[i]], Decode(value[i + 1..], false));
      out := out + [value[i]];
      i := i + 1;
    }
    assert value[i..] == [];
  }

  /** Both decoders undo the encoding of any bytes. */
  lemma {:induction false} EncodeRoundTrip(s: string, form: bool)
    requires AllBytes(s)
    ensures Decode(Encode(s), form) == s
  {
    if s != [] {
      EncodeRoundTrip(s[1..], form);
      DecodeByte(s[0], Encode(s[1..]), form);
    }
  }

  lemma DecodeByte(c: char, rest: string, form: bool)
    requires IsByte(c)
    ensures Decode(EncodeByte(c) + rest, form) == [c] + Decode(rest, form)
  {
    var s := EncodeByte(c) + rest;
    if Unreserved(c) {
      assert s[0] == c && s[1..] == rest;
    } else {
      assert s[0] == '%' && s[3..] == rest && Escaped(s);
      assert 16 * (c as int / 16) + c as int % 16 == c as int;
    }
  }

  /** An encoding holds only unreserved characters and percent signs. */
  lemma {:induction false} EncodedAlphabet(s: string)
    requires AllBytes(s)
    ensures forall c :: c in Encode(s) ==> Unreserved(c) || c == '%'
  {
    if s != [] {
      EncodedAlphabet(s[1..]);
    }
  }

  /** Texts are encoded one after the other, so byte by byte. */
  lemma {:induction false} EncodeAppend(a: string, b: string)
    requires AllBytes(a) && AllBytes(b)
    ensures AllBytes(a + b) && Encode(a + b) == Encode(a) + Encode(b)
  {
    if a == [] {
      assert a + b == b;
    } else {
      assert (a + b)[0] == a[0] && (a + b)[1..] == a[1..] + b;
      EncodeAppend(a[1..], b);
      AppendAssoc(EncodeByte(a[0]), Encode(a[1..]), Encode(b));
    }
  }

  /** An unreserved byte stands for itself, any other for a percent sign and its two upper-case digits. */
  lemma EncodeOne(c: char)
    requires IsByte(c)
    ensures Encode([c]) == if Unreserved(c) then [c] else ['%', UPPER[c as int / 16], UPPER[c as int % 16]]
  {
    assert [c][0] == c && [c][1..] == [] && AllBytes([c]);
    HexTables(c as int / 16, c);
    HexTables(c as int % 16, c);
  }

  function PlusToSpace(s: string): (r: string)
    ensures |r| == |s| && forall i :: 0 <= i < |s| ==> r[i] == if s[i] == '+' then ' ' else s[i]
  {
    seq(|s|, i requires 0 <= i < |s| => if s[i] == '+' then ' ' else s[i])
  }

  /** Up to the first percent sign text stands for itself, but for plus signs in a form. */
  lemma {:induction false} DecodePlain(a: string, b: string, form: bool)
    requires '%' !in a
    ensures Decode(a + b, form) == (if form then PlusToSpace(a) else a) + Decode(b, form)
  {
    if a == [] {
      assert a + b == b;
    } else {
      assert (a + b)[0] == a[0] && (a + b)[1..] == a[1..] + b;
      DecodePlain(a[1..], b, form);
      assert PlusToSpace(a) == [if a[0] == '+' then ' ' else a[0]] + PlusToSpace(a[1..]);
    }
  }

  /** A percent sign with two hexadecimal digits is the byte they spell; without them it stands for itself. */
  lemma DecodeEscape(b: string, form: bool)
    ensures |b| >= 2 && HexValue(b[0]) >= 0 && HexValue(b[1]) >= 0 ==>
              Decode(['%'] + b, form) == [(16 * HexValue(b[0]) + HexValue(b[1])) as char] + Decode(b[2..], form)
    ensures !(|b| >= 2 && HexValue(b[0]) >= 0 && HexValue(b[1]) >= 0) ==> Decode(['%'] + b, form) == ['%'] + Decode(b, form)
  {
    var s := ['%'] + b;
    assert s[1..] == b && (|b| >= 2 ==> s[3..] == b[2..]);
  }

  // ---------- query strings ----------

  /** The parts of a query between ampersands. */
  function Parts(query: string): (ps: seq<string>)
    ensures ps != []
    decreases |query|
  {
    match Find(query, "&", 0)
    case None => [query]
    case Some(k) => [query[..k]] + Parts(query[k + 1..])
  }

  predicate StartsWith(s: string, prefix: string) { |prefix| <= |s| && s[..|prefix|] == prefix }

  /** What follows the prefix in the first part that has it. */
  function FirstWith(parts: seq<string>, prefix: string): string {
    if parts == [] then ""
    else if StartsWith(parts[0], prefix) then parts[0][|prefix|..]
    else FirstWith(parts[1..], prefix)
  }

  function Param(query: string, key: string): string { FirstWith(Parts(query), key + "=") }

  method ExtractQueryParam(query: string, key: string) returns (value: string)
    ensures value == Param(query, key)
  {
    var prefix := key + "=";
    var rest := query; // the query from start on
    while true
      invariant FirstWith(Parts(rest), prefix) == FirstWith(Parts(query), prefix)
      decreases |rest|
    {
      var end := Find(rest, "&", 0);
      var part := if end.None? then rest else rest[..end.value];
      if StartsWith(part, prefix) {
        return part[|prefix|..];
      }
      if end.None? {
        assert Parts(rest)[1..] == [];
        return "";
      }
      rest := rest[end.value + 1..];
    }
  }

  /** The parts are the query cut at every ampersand. */
  lemma {:induction false} PartsJoin(query: string)
    ensures Join(Parts(query), "&") == query && forall i :: 0 <= i < |Parts(query)| ==> '&' !in Parts(query)[i]
    decreases |query|
  {
    match Find(query, "&", 0) {
      case None =>
        NoneFound(query, '&');
      case Some(k) =>
        var first, rest := query[..k], query[k + 1..];
        PartsJoin(rest);
        JoinFirst(first, Parts(rest), "&");
        CutAt(query, '&', k);
    }
  }

  /** The parameter is what follows "key=" in the first part that starts so, and empty without one. */
  lemma {:induction false} FirstPart(parts: seq<string>, prefix: string, i: nat)
    requires i <= |parts| && forall j :: 0 <= j < i ==> !StartsWith(parts[j], prefix)
    ensures i < |parts| && StartsWith(parts[i], prefix) ==> FirstWith(parts, prefix) == parts[i][|prefix|..]
    ensures i == |parts| ==> FirstWith(parts, prefix) == ""
  {
    if i > 0 {
      assert forall j :: 0 <= j < |parts| - 1 ==> parts[1..][j] == parts[j + 1];
      FirstPart(parts[1..], prefix, i - 1);
    }
  }

  // ---------- printing queries ----------

  datatype Pair = Pair(key: string, value: string)

  function PrintPair(p: Pair): string { p.key + "=" + p.value }

  function Print(pairs: seq<Pair>): string {
    if pairs == [] then ""
    else if |pairs| == 1 then PrintPair(pairs[0])
    else PrintPair(pairs[0]) + "&" + Print(pairs[1..])
  }

  /** Neither key nor value holds a separator that would end it early. */
  predicate Clean(p: Pair) { '&' !in p.key && '=' !in p.key && '&' !in p.value }

  /** The value of the first pair with this key, empty without one. */
  function Lookup(pairs: seq<Pair>, key: string): string {
    if pairs == [] then "" else if pairs[0].key == key then pairs[0].value else Lookup(pairs[1..], key)
  }

  /** A prefix "key=" belongs to the pair with exactly that key. */
  lemma PairPrefix(p: Pair, key: string)
    requires '=' !in p.key && '=' !in key
    ensures StartsWith(PrintPair(p), key + "=") <==> p.key == key
    ensures p.key == key ==> PrintPair(p)[|key + "="|..] == p.value
  {
    var s, prefix := PrintPair(p), key + "=";
    FoundAfter(p.key, '=', p.value);
    assert s == p.key + ['='] + p.value && s[..|p.key|] == p.key;
    if StartsWith(s, prefix) {
      FoundAfter(key, '=', s[|prefix|..]);
      assert s == key + ['='] + s[|prefix|..];
    }
  }

  lemma PartsOfPrint(p: Pair, rest: string)
    requires Clean(p)
    ensures Parts(PrintPair(p)) == [PrintPair(p)]
    ensures Parts(PrintPair(p) + "&" + rest) == [PrintPair(p)] + Parts(rest)
  {
    var s := PrintPair(p);
    assert '&' !in s;
    NotFound(s, '&', 0);
    FoundAfter(s, '&', rest);
    var all := s + "&" + rest;
    assert all == s + ['&'] + rest && all[..|s|] == s && all[|s| + 1..] == rest;
  }

  /** Extracting from a printed query gives the first value under the key, whatever the other pairs. */
  lemma {:induction false} QueryRoundTrip(pairs: seq<Pair>, key: string)
    requires '=' !in key && forall i :: 0 <= i < |pairs| ==> Clean(pairs[i])
    ensures Param(Print(pairs), key) == Lookup(pairs, key)
  {
    if pairs == [] {
      assert Parts("") == [""] && [""][1..] == [] && !StartsWith("", key + "=");
      assert FirstWith([], key + "=") == "";
    } else {
      var p, later := pairs[0], pairs[1..];
      PairPrefix(p, key);
      PartsOfPrint(p, Print(later));
      QueryRoundTrip(later, key);
      if later == [] {
        assert Parts(Print(pairs)) == [PrintPair(p)] + [];
        assert FirstWith([], key + "=") == "" && Lookup(later, key) == "";
      } else {
        assert Parts(Print(pairs))[1..] == Parts(Print(later));
      }
    }
  }

  /** What follows the first question mark, or everything. */
  function QueryOf(url: string): string {
    match Find(url, "?", 0)
    case None => url
    case Some(k) => url[k + 1..]
  }

  lemma QueryOfUrl(base: string, query: string)
    requires '?' !in base
    ensures QueryOf(base + "?" + query) == query
  {
    FoundAfter(base, '?', query);
    assert base + "?" + query == base + ['?'] + query;
    assert (base + "?" + query)[|base| + 1..] == query;
  }
}
