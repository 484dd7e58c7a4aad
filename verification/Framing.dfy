/**
  Cutting a byte stream into delimited records, whatever pieces it arrives in.
 */
module Framing {
  import opened Text

  /** The complete records of s, each ended by the delimiter d. */
  function Records(s: string, d: string): seq<string>
    requires d != []
    decreases |s|
  {
    match Find(s, d, 0)
    case None => []
    case Some(k) => [s[..k]] + Records(s[k + |d|..], d)
  }

  /** What follows the last complete record. */
  function Rest(s: string, d: string): (r: string)
    requires d != []
    ensures Find(r, d, 0) == None
    decreases |s|
  {
    match Find(s, d, 0)
    case None => s
    case Some(k) => Rest(s[k + |d|..], d)
  }

  function Concat(parts: seq<string>): string {
    if parts == [] then [] else Concat(parts[..|parts| - 1]) + parts[|parts| - 1]
  }

  lemma ConcatSnoc(parts: seq<string>, last: string)
    ensures Concat(parts + [last]) == Concat(parts) + last
  {
    assert (parts + [last])[..|parts|] == parts;
  }

  /** An occurrence in the first part stays the first occurrence. */
  lemma FindInFront(a: string, b: string, d: string)
    requires d != [] && Find(a, d, 0).Some?
    ensures Find(a + b, d, 0) == Find(a, d, 0)
  {
    var k := Find(a, d, 0).value;
    var s := a + b;
    assert s[k..k + |d|] == a[k..k + |d|];
    forall j | 0 <= j < k ensures !OccursAt(s, d, j) {
      assert s[j..j + |d|] == a[j..j + |d|];
      assert !OccursAt(a, d, j);
    }
    FindFirst(s, d, 0, k);
  }

  /** Bytes that come later only affect what was left over. */
  lemma {:induction false} SplitAppend(a: string, b: string, d: string)
    requires d != []
    ensures Records(a + b, d) == Records(a, d) + Records(Rest(a, d) + b, d)
    ensures Rest(a + b, d) == Rest(Rest(a, d) + b, d)
    decreases |a|
  {
    match Find(a, d, 0) {
      case None =>
      case Some(k) =>
        FindInFront(a, b, d);
        var tail := a[k + |d|..];
        SliceAppend(a, b, k, k + |d|);
        SplitAppend(tail, b, d);
        Cons(a[..k], Records(tail, d), Records(Rest(tail, d) + b, d));
    }
  }

  lemma SliceAppend(a: string, b: string, i: nat, j: nat)
    requires i <= j <= |a|
    ensures (a + b)[..i] == a[..i] && (a + b)[j..] == a[j..] + b
  {
  }

  lemma Cons(r: string, a: seq<string>, b: seq<string>)
    ensures [r] + (a + b) == ([r] + a) + b
  {
  }

  // ---------- what the records are ----------

  function Unsplit(records: seq<string>, rest: string, d: string): string {
    if records == [] then rest else records[0] + d + Unsplit(records[1..], rest, d)
  }

  /** A record ends at the first delimiter after its start. */
  ghost predicate IsRecord(r: string, d: string) { Find(r + d, d, 0) == Some(|r|) }

  /** Records and rest are the stream itself, cut at the first delimiter each time. */
  lemma {:induction false} SplitSound(s: string, d: string)
    requires d != []
    ensures Unsplit(Records(s, d), Rest(s, d), d) == s
    ensures forall i :: 0 <= i < |Records(s, d)| ==> IsRecord(Records(s, d)[i], d)
    decreases |s|
  {
    match Find(s, d, 0) {
      case None =>
      case Some(k) =>
        var r, tail := s[..k], s[k + |d|..];
        assert s == r + d + tail;
        SplitSound(tail, d);
        FirstIsRecord(s, d);
        assert Records(s, d)[1..] == Records(tail, d);
    }
  }

  lemma FirstIsRecord(s: string, d: string)
    requires d != [] && Find(s, d, 0).Some?
    ensures IsRecord(s[..Find(s, d, 0).value], d)
  {
    var k := Find(s, d, 0).value;
    var r := s[..k + |d|];
    assert s[..k] + d == r;
    forall j | 0 <= j < k ensures !OccursAt(r, d, j) {
      assert !OccursAt(s, d, j);
      assert r[j..j + |d|] == s[j..j + |d|];
    }
    assert r[k..k + |d|] == s[k..k + |d|];
    FindFirst(r, d, 0, k);
  }

  /** And no other way of cutting has these properties. */
  lemma {:induction false} SplitComplete(records: seq<string>, rest: string, d: string)
    requires d != [] && Find(rest, d, 0) == None && forall i :: 0 <= i < |records| ==> IsRecord(records[i], d)
    ensures Records(Unsplit(records, rest, d), d) == records && Rest(Unsplit(records, rest, d), d) == rest
  {
    if records != [] {
      var r, tail := records[0], Unsplit(records[1..], rest, d);
      FindInFront(r + d, tail, d);
      SliceAppend(r + d, tail, |r|, |r + d|);
      assert (r + d)[..|r|] == r && (r + d)[|r + d|..] + tail == tail;
      SplitComplete(records[1..], rest, d);
    }
  }


  // ---------- event-stream lines ----------

  function StripCr(line: string): string {
    if line != [] && line[|line| - 1] == '\r' then line[..|line| - 1] else line
  }

  /** The value of a data field, or None for any other line. */
  function DataField(line: string): Option<string> {
    var l := StripCr(line);
    if OccursAt(l, "data: ", 0) then Some(l[6..]) else None
  }

  /** A line carries a value exactly when it is that value behind the field name, with or without a carriage return. */
  lemma DataFieldIs(line: string, v: string)
    ensures DataField(line) == Some(v) <==>
              (line == "data: " + v && (v == "" || v[|v| - 1] != '\r')) || line == "data: " + v + "\r"
  {
    var l := StripCr(line);
    if DataField(line) == Some(v) {
      assert l == l[..6] + l[6..] && l[0..6] == l[..6];
      assert l == "data: " + v;
      if l != line { assert line == l + "\r"; }
    }
    if line == "data: " + v + "\r" {
      assert l == "data: " + v && l[0..6] == "data: " && l[6..] == v;
    } else if line == "data: " + v && (v == "" || v[|v| - 1] != '\r') {
      assert v == "" ==> line[|line| - 1] == ' ';
      assert l == line && l[0..6] == "data: " && l[6..] == v;
    }
  }
}
