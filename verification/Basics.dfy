/**
  Small facts about numbers, sequences and maps that several modules share.
 */
module Basics {

  function Max(a: int, b: int): int { if a < b then b else a }

  function Min(a: int, b: int): int { if a < b then a else b }

  function IdSet(ids: seq<string>): set<string> { set id | id in ids }

  lemma AppendAssoc<T>(a: seq<T>, b: seq<T>, c: seq<T>)
    ensures a + (b + c) == (a + b) + c
  {
  }

  lemma OverwriteKey<K, V>(m: map<K, V>, k: K, a: V, b: V)
    ensures m[k := a][k := b] == m[k := b]
  {
  }

  // ---------- filtering ----------

  /** The elements that satisfy p, in order. */
  function Filter<T>(s: seq<T>, p: T -> bool): (r: seq<T>)
    ensures |r| <= |s|
  {
    if s == [] then [] else Filter(s[..|s| - 1], p) + if p(s[|s| - 1]) then [s[|s| - 1]] else []
  }

  lemma FilterSnoc<T>(s: seq<T>, x: T, p: T -> bool)
    ensures Filter(s + [x], p) == if p(x) then Filter(s, p) + [x] else Filter(s, p)
  {
    assert (s + [x])[..|s|] == s;
  }

  lemma {:induction false} FilterAppend<T>(a: seq<T>, b: seq<T>, p: T -> bool)
    ensures Filter(a + b, p) == Filter(a, p) + Filter(b, p)
    decreases |b|
  {
    if b == [] {
      assert a + b == a;
    } else {
      var init, last := b[..|b| - 1], b[|b| - 1];
      assert (a + b)[..|a + b| - 1] == a + init;
      FilterAppend(a, init, p);
      AppendAssoc(Filter(a, p), Filter(init, p), if p(last) then [last] else []);
    }
  }

  lemma {:induction false} FilterOnly<T>(s: seq<T>, p: T -> bool)
    ensures forall x :: x in Filter(s, p) <==> x in s && p(x)
  {
    if s != [] {
      FilterOnly(s[..|s| - 1], p);
      assert s == s[..|s| - 1] + [s[|s| - 1]];
    }
  }

  // ---------- joining ----------

  /** The texts one after the other with a separator between each two. */
  function Join(texts: seq<string>, separator: string): string {
    if texts == [] then ""
    else if |texts| == 1 then texts[0]
    else Join(texts[..|texts| - 1], separator) + separator + texts[|texts| - 1]
  }

  lemma JoinOne(text: string, separator: string)
    ensures Join([text], separator) == text
  {
  }

  lemma JoinSnoc(texts: seq<string>, text: string, separator: string)
    requires texts != []
    ensures Join(texts + [text], separator) == Join(texts, separator) + separator + text
  {
    assert (texts + [text])[..|texts|] == texts;
  }

  lemma {:induction false} JoinFirst(text: string, texts: seq<string>, separator: string)
    requires texts != []
    ensures Join([text] + texts, separator) == text + separator + Join(texts, separator)
  {
    var init, last := texts[..|texts| - 1], texts[|texts| - 1];
    assert texts == init + [last] && [text] + texts == ([text] + init) + [last];
    JoinSnoc([text] + init, last, separator);
    if init == [] {
      assert [text] + init == [text];
    } else {
      JoinFirst(text, init, separator);
      JoinSnoc(init, last, separator);
      var a, b := text + separator, Join(init, separator);
      AppendAssoc(a, b, separator);
      AppendAssoc(a, b + separator, last);
    }
  }
}
