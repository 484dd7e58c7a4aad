/**
  Dot paths into the configuration tree: reading, setting and unsetting
  (src/core/config.cpp). The tree is a value here; the source edits it in place.
 */
module ConfigPath {
  import opened Basics
  import opened Text
  import opened Framing

  datatype Tree = Null | Value(text: string) | Object(fields: map<string, Tree>)

  // ---------- paths ----------

  /** The parts of a dot path; a last part counts only if it is not empty. */
  function Split(path: string): seq<string> {
    Records(path, ".") + if Rest(path, ".") != "" then [Rest(path, ".")] else []
  }

  method SplitDotPath(path: string) returns (parts: seq<string>)
    ensures parts == Split(path)
  {
    parts := [];
    var rest := path; // the path from start on
    while rest != ""
      invariant parts + Split(rest) == Split(path)
      decreases |rest|
    {
      var dot := Find(rest, ".", 0);
      if dot.None? {
        assert Split(rest) == [rest];
        return parts + [rest];
      }
      SplitCons(rest, dot.value);
      parts := parts + [rest[..dot.value]];
      rest := rest[dot.value + 1..];
    }
    assert Split("") == [];
  }

  lemma SplitCons(s: string, k: nat)
    requires Find(s, ".", 0) == Some(k)
    ensures Split(s) == [s[..k]] + Split(s[k + 1..])
  {
  }

  /** Splitting undoes joining. */
  lemma {:induction false} PathRoundTrip(parts: seq<string>)
    requires forall i :: 0 <= i < |parts| ==> '.' !in parts[i]
    requires parts != [] ==> parts[|parts| - 1] != ""
    ensures Split(Join(parts, ".")) == parts
  {
    if |parts| == 1 {
      NotFound(parts[0], '.', 0);
    } else if parts != [] {
      var p, later := parts[0], Join(parts[1..], ".");
      assert parts == [p] + parts[1..];
      JoinFirst(p, parts[1..], ".");
      PathRoundTrip(parts[1..]);
      FoundAfter(p, '.', later);
      assert p + "." + later == p + ['.'] + later;
      assert (p + "." + later)[..|p|] == p && (p + "." + later)[|p| + 1..] == later;
      SplitCons(p + "." + later, |p|);
    }
  }

  /** And joining undoes splitting, except for a dot at the end of the path. */
  lemma {:induction false} JoinSplit(path: string)
    ensures Join(Split(path), ".") == WithoutDot(path)
    ensures forall i :: 0 <= i < |Split(path)| ==> '.' !in Split(path)[i]
    decreases |path|
  {
    match Find(path, ".", 0) {
      case None =>
        NoneFound(path, '.');
        assert Split(path) == if path == "" then [] else [path];
      case Some(k) =>
        var p, later := path[..k], path[k + 1..];
        JoinSplit(later);
        SplitCons(path, k);
        CutAt(path, '.', k);
        EmptyPath(later);
        if later == "" {
          JoinOne(p, ".");
        } else {
          JoinFirst(p, Split(later), ".");
        }
        WithoutDotAfter(p, later);
    }
  }

  /** The path without a dot at its end. */
  function WithoutDot(path: string): string { if path != "" && path[|path| - 1] == '.' then path[..|path| - 1] else path }

  lemma WithoutDotAfter(p: string, later: string)
    ensures WithoutDot(p + "." + later) == if later == "" then p else p + "." + WithoutDot(later)
  {
    var path := p + "." + later;
    if later == "" {
      assert path[..|path| - 1] == p;
    } else {
      assert path[|path| - 1] == later[|later| - 1] && path[..|path| - 1] == p + "." + later[..|later| - 1];
    }
  }

  /** A dot at the end of a path adds nothing, unless the part before it is empty: that part then counts. */
  lemma TrailingDot(path: string)
    ensures Split(path + ".") == if Rest(path, ".") != "" then Split(path) else Split(path) + [""]
  {
    var rest := Rest(path, ".");
    SplitAppend(path, ".", ".");
    NoneFound(rest, '.');
    DotBehind(rest);
  }

  lemma DotBehind(part: string)
    requires '.' !in part
    ensures Records(part + ".", ".") == [part] && Rest(part + ".", ".") == ""
  {
    var s := part + ".";
    FoundAfter(part, '.', "");
    assert s == part + ['.'] + "" && s[..|part|] == part && s[|part| + 1..] == "";
    assert Records("", ".") == [] && Rest("", ".") == "";
  }

  /** Only the empty path has no parts. */
  lemma EmptyPath(path: string)
    ensures Split(path) == [] <==> path == ""
  {
  }

  // ---------- reading and writing ----------

  function Get(t: Tree, path: seq<string>): Option<Tree> {
    if path == [] then Some(t)
    else if t.Object? && path[0] in t.fields then Get(t.fields[path[0]], path[1..])
    else None
  }

  /** A null becomes an object when it is indexed by a key. */
  predicate Indexable(t: Tree) { !t.Value? }

  function FieldsOf(t: Tree): map<string, Tree> { if t.Object? then t.fields else map[] }

  /** The child the cursor descends to: anything but an object is replaced by an empty one. */
  function Descend(t: Tree, key: string): Tree {
    if t.Object? && key in t.fields && t.fields[key].Object? then t.fields[key] else Object(map[])
  }

  function SetAt(t: Tree, path: seq<string>, v: Tree): (r: Tree)
    requires path != []
    ensures r.Object?
    decreases |path|
  {
    Object(FieldsOf(t)[path[0] := if |path| == 1 then v else SetAt(Descend(t, path[0]), path[1..], v)])
  }

  /** Every node above the last key is an object. */
  predicate ParentsExist(t: Tree, path: seq<string>)
    requires path != []
  {
    t.Object? && (|path| > 1 ==> path[0] in t.fields && ParentsExist(t.fields[path[0]], path[1..]))
  }

  function UnsetAt(t: Tree, path: seq<string>): (r: Tree)
    requires path != [] && ParentsExist(t, path)
    ensures r.Object?
  {
    if |path| == 1 then Object(t.fields - {path[0]})
    else Object(t.fields[path[0] := UnsetAt(t.fields[path[0]], path[1..])])
  }

  /** Written gives the tree to save; Untouched saves nothing. */
  datatype Outcome = Written(root: Tree) | Untouched | Failed(message: string)

  /** The objects passed on the way down, each with its key now leading to what lies below. */
  function Rebuilt(spine: seq<map<string, Tree>>, keys: seq<string>, below: Tree): Tree
    requires |spine| == |keys|
    decreases |spine|
  {
    var n := |spine|;
    if n == 0 then below else Rebuilt(spine[..n - 1], keys[..n - 1], Object(spine[n - 1][keys[n - 1] := below]))
  }

  lemma RebuiltSnoc(spine: seq<map<string, Tree>>, keys: seq<string>, fields: map<string, Tree>, key: string, below: Tree)
    requires |spine| == |keys|
    ensures Rebuilt(spine + [fields], keys + [key], below) == Rebuilt(spine, keys, Object(fields[key := below]))
  {
    assert (spine + [fields])[..|spine|] == spine && (keys + [key])[..|keys|] == keys;
  }

  /** The cursor walks down to the last object, putting an empty one wherever there is none. */
  method WalkDown(root: Tree, parts: seq<string>, ghost v: Tree) returns (node: Tree, spine: seq<map<string, Tree>>)
    requires parts != []
    ensures |spine| == |parts| - 1
    ensures Rebuilt(spine, parts[..|parts| - 1], SetAt(node, [parts[|parts| - 1]], v)) == SetAt(root, parts, v)
  {
    node, spine := root, [];
    assert parts[0..] == parts;
    for i := 0 to |parts| - 1
      invariant |spine| == i && Rebuilt(spine, parts[..i], SetAt(node, parts[i..], v)) == SetAt(root, parts, v)
    {
      var key, fields := parts[i], FieldsOf(node);
      var child := Object(map[]);
      if key in fields && fields[key].Object? {
        child := fields[key];
      }
      OneDown(node, child, parts, i, v);
      RebuiltSnoc(spine, parts[..i], fields, key, SetAt(child, parts[i + 1..], v));
      assert parts[..i + 1] == parts[..i] + [key];
      spine := spine + [fields];
      node := child;
    }
    assert parts[|parts| - 1..] == [parts[|parts| - 1]];
  }

  lemma OneDown(node: Tree, child: Tree, parts: seq<string>, i: nat, v: Tree)
    requires i + 1 < |parts| && child == Descend(node, parts[i])
    ensures SetAt(node, parts[i..], v) == Object(FieldsOf(node)[parts[i] := SetAt(child, parts[i + 1..], v)])
  {
    assert parts[i..][0] == parts[i] && parts[i..][1..] == parts[i + 1..];
  }

  /** And the way back up is put together again. */
  method WalkUp(spine: seq<map<string, Tree>>, keys: seq<string>, below: Tree) returns (r: Tree)
    requires |spine| == |keys|
    ensures r == Rebuilt(spine, keys, below)
  {
    r := below;
    var i := |spine|;
    assert spine[..i] == spine && keys[..i] == keys;
    while i > 0
      invariant 0 <= i <= |spine| && Rebuilt(spine[..i], keys[..i], r) == Rebuilt(spine, keys, below)
    {
      i := i - 1;
      RebuiltSnoc(spine[..i], keys[..i], spine[i], keys[i], r);
      assert spine[..i + 1] == spine[..i] + [spine[i]] && keys[..i + 1] == keys[..i] + [keys[i]];
      r := Object(spine[i][keys[i] := r]);
    }
  }

  method SetValue(root: Tree, path: string, v: Tree) returns (r: Outcome)
    ensures path == "" <==> r == Failed("Empty config path")
    ensures path != "" ==> if Indexable(root) then r == Written(SetAt(root, Split(path), v)) else r == Failed("not an object")
  {
    var parts := SplitDotPath(path);
    EmptyPath(path);
    if parts == [] {
      return Failed("Empty config path");
    }
    if root.Value? {
      return Failed("not an object");
    }
    var node, spine := WalkDown(root, parts, v);
    var last := |parts| - 1;
    var written := WalkUp(spine, parts[..last], Object(FieldsOf(node)[parts[last] := v]));
    r := Written(written);
  }

  method UnsetValue(root: Tree, path: string) returns (r: Outcome)
    ensures path == "" <==> r == Failed("Empty config path")
    ensures path != "" ==>
      if ParentsExist(root, Split(path)) then r == Written(UnsetAt(root, Split(path)))
      else if |Split(path)| == 1 then r == Failed("not an object")
      else r == Untouched
  {
    var parts := SplitDotPath(path);
    EmptyPath(path);
    if parts == [] {
      return Failed("Empty config path");
    }
    var node := root;
    for i := 0 to |parts| - 1
      invariant ParentsExist(root, parts) == ParentsExist(node, parts[i..])
      invariant i > 0 ==> node.Object?
    {
      var key := parts[i];
      assert parts[i..][0] == key && parts[i..][1..] == parts[i + 1..];
      if !(node.Object? && key in node.fields && node.fields[key].Object?) {
        return Untouched;
      }
      node := node.fields[key];
    }
    if !node.Object? {
      return Failed("not an object");
    }
    r := Written(UnsetAt(root, parts));
  }

  // ---------- laws ----------

  predicate IsPrefix(p: seq<string>, q: seq<string>) { |p| <= |q| && q[..|p|] == p }

  /** Neither path runs through the other. */
  predicate Diverge(p: seq<string>, q: seq<string>) { !IsPrefix(p, q) && !IsPrefix(q, p) }

  lemma PrefixStep(p: seq<string>, q: seq<string>)
    requires p != [] && q != []
    ensures IsPrefix(p, q) <==> p[0] == q[0] && IsPrefix(p[1..], q[1..])
  {
    if IsPrefix(p, q) {
      assert q[1..][..|p| - 1] == q[..|p|][1..];
    }
    if p[0] == q[0] && IsPrefix(p[1..], q[1..]) {
      assert q[..|p|] == [q[0]] + q[1..][..|p| - 1];
      assert p == [p[0]] + p[1..];
    }
  }

  /** At and below a path that was set, one reads the value that was put there. */
  lemma {:induction false} GetSet(t: Tree, p: seq<string>, v: Tree, q: seq<string>)
    requires p != []
    ensures Get(SetAt(t, p, v), p + q) == Get(v, q)
    decreases |p|
  {
    assert (p + q)[0] == p[0] && (p + q)[1..] == p[1..] + q;
    if |p| == 1 {
      assert p[1..] + q == q;
    } else {
      GetSet(Descend(t, p[0]), p[1..], v, q);
    }
  }

  /** Nothing else can be read where the tree had no object, and all other paths read as before. */
  lemma {:induction false} GetSetOther(t: Tree, p: seq<string>, v: Tree, q: seq<string>)
    requires p != [] && Diverge(p, q)
    ensures Get(SetAt(t, p, v), q) == Get(t, q)
    decreases |p|
  {
    if q != [] {
      PrefixStep(p, q);
      PrefixStep(q, p);
      if p[0] == q[0] {
        assert p[1..] != [] && q[1..] != [];
        GetSetOther(Descend(t, p[0]), p[1..], v, q[1..]);
      }
    }
  }

  /** Above it there are only objects. */
  lemma {:induction false} GetSetAbove(t: Tree, p: seq<string>, v: Tree, n: nat)
    requires n < |p|
    ensures Get(SetAt(t, p, v), p[..n]).Some? && Get(SetAt(t, p, v), p[..n]).value.Object?
    decreases |p|
  {
    if n > 0 {
      assert p[..n][0] == p[0] && p[..n][1..] == p[1..][..n - 1];
      GetSetAbove(Descend(t, p[0]), p[1..], v, n - 1);
    }
  }

  /** Unsetting makes the path and everything below it absent. */
  lemma {:induction false} GetUnset(t: Tree, p: seq<string>, q: seq<string>)
    requires p != [] && ParentsExist(t, p)
    ensures Get(UnsetAt(t, p), p + q) == None
  {
    assert (p + q)[0] == p[0] && (p + q)[1..] == p[1..] + q;
    if |p| > 1 {
      GetUnset(t.fields[p[0]], p[1..], q);
    }
  }

  /** And nothing else. */
  lemma {:induction false} GetUnsetOther(t: Tree, p: seq<string>, q: seq<string>)
    requires p != [] && ParentsExist(t, p) && Diverge(p, q)
    ensures Get(UnsetAt(t, p), q) == Get(t, q)
  {
    if q != [] {
      PrefixStep(p, q);
      PrefixStep(q, p);
      if p[0] == q[0] {
        assert p[1..] != [] && q[1..] != [];
        GetUnsetOther(t.fields[p[0]], p[1..], q[1..]);
      }
    }
  }

  /** The nodes above the path stay objects. */
  lemma {:induction false} GetUnsetAbove(t: Tree, p: seq<string>, n: nat)
    requires n < |p| && ParentsExist(t, p)
    ensures Get(UnsetAt(t, p), p[..n]).Some? && Get(UnsetAt(t, p), p[..n]).value.Object?
  {
    if n > 0 {
      assert p[..n][0] == p[0] && p[..n][1..] == p[1..][..n - 1];
      GetUnsetAbove(t.fields[p[0]], p[1..], n - 1);
    }
  }

  /** A path that cannot be unset cannot be read either. */
  lemma {:induction false} NoParentsNoValue(t: Tree, p: seq<string>)
    requires p != [] && !ParentsExist(t, p)
    ensures Get(t, p) == None
  {
    if |p| > 1 && t.Object? && p[0] in t.fields {
      NoParentsNoValue(t.fields[p[0]], p[1..]);
    }
  }

  lemma {:induction false} SetMakesParents(t: Tree, p: seq<string>, v: Tree)
    requires p != []
    ensures ParentsExist(SetAt(t, p, v), p)
    decreases |p|
  {
    if |p| > 1 {
      SetMakesParents(Descend(t, p[0]), p[1..], v);
    }
  }

  /** Unset after set restores the tree exactly when the parents were there and the key was not. */
  lemma {:induction false} UnsetSetIff(t: Tree, p: seq<string>, v: Tree)
    requires p != []
    ensures ParentsExist(SetAt(t, p, v), p)
    ensures UnsetAt(SetAt(t, p, v), p) == t <==> ParentsExist(t, p) && Get(t, p) == None
    decreases |p|
  {
    SetMakesParents(t, p, v);
    var s := SetAt(t, p, v);
    if |p| == 1 {
      assert UnsetAt(s, p) == Object(FieldsOf(t) - {p[0]});
      assert Get(t, p) == None <==> !(t.Object? && p[0] in t.fields);
      if t.Object? {
        assert p[0] !in t.fields ==> t.fields - {p[0]} == t.fields;
      }
    } else {
      var child := Descend(t, p[0]);
      UnsetSetIff(child, p[1..], v);
      var again := UnsetAt(SetAt(child, p[1..], v), p[1..]);
      assert UnsetAt(s, p) == Object(FieldsOf(t)[p[0] := again]);
      if t.Object? && p[0] in t.fields && t.fields[p[0]].Object? {
        assert again == child ==> t.fields[p[0] := again] == t.fields;
        assert t.fields[p[0] := again] == t.fields ==> t.fields[p[0] := again][p[0]] == t.fields[p[0]];
      } else if t.Object? {
        assert t.fields[p[0] := again][p[0]] == again;
      }
    }
  }

  /** The later value wins. */
  lemma {:induction false} SetTwice(t: Tree, p: seq<string>, v: Tree, w: Tree)
    requires p != []
    ensures SetAt(SetAt(t, p, v), p, w) == SetAt(t, p, w)
    decreases |p|
  {
    if |p| > 1 {
      SetTwice(Descend(t, p[0]), p[1..], v, w);
    }
    assert FieldsOf(SetAt(t, p, v)) == SetAt(t, p, v).fields;
  }

  /** Two settings below the same key. */
  lemma SetSameKey(t: Tree, p: seq<string>, v: Tree, q: seq<string>, w: Tree)
    requires |p| > 1 && |q| > 1 && p[0] == q[0]
    ensures SetAt(SetAt(t, p, v), q, w) == Object(FieldsOf(t)[p[0] := SetAt(SetAt(Descend(t, p[0]), p[1..], v), q[1..], w)])
  {
    var inner := SetAt(Descend(t, p[0]), p[1..], v);
    assert Descend(SetAt(t, p, v), q[0]) == inner;
    OverwriteKey(FieldsOf(t), p[0], inner, SetAt(inner, q[1..], w));
  }

  /** What a setting puts under its first key. */
  function Child(t: Tree, p: seq<string>, v: Tree): Tree
    requires p != []
  {
    if |p| == 1 then v else SetAt(Descend(t, p[0]), p[1..], v)
  }

  /** Two settings below different keys. */
  lemma SetOtherKey(t: Tree, p: seq<string>, v: Tree, q: seq<string>, w: Tree)
    requires p != [] && q != [] && p[0] != q[0]
    ensures SetAt(SetAt(t, p, v), q, w) == Object(FieldsOf(t)[p[0] := Child(t, p, v)][q[0] := Child(t, q, w)])
  {
    assert Descend(SetAt(t, p, v), q[0]) == Descend(t, q[0]);
  }

  lemma SwapKeys(m: map<string, Tree>, k: string, a: Tree, l: string, b: Tree)
    requires k != l
    ensures m[k := a][l := b] == m[l := b][k := a]
  {
  }

  /** Settings on paths that diverge do not depend on their order. */
  lemma {:induction false} SetCommutes(t: Tree, p: seq<string>, v: Tree, q: seq<string>, w: Tree)
    requires p != [] && q != [] && Diverge(p, q)
    ensures SetAt(SetAt(t, p, v), q, w) == SetAt(SetAt(t, q, w), p, v)
    decreases |p|
  {
    PrefixStep(p, q);
    PrefixStep(q, p);
    if p[0] == q[0] {
      assert p[1..] != [] && q[1..] != [];
      SetSameKey(t, p, v, q, w);
      SetSameKey(t, q, w, p, v);
      SetCommutes(Descend(t, p[0]), p[1..], v, q[1..], w);
    } else {
      SetOtherKey(t, p, v, q, w);
      SetOtherKey(t, q, w, p, v);
      SwapKeys(FieldsOf(t), p[0], Child(t, p, v), q[0], Child(t, q, w));
    }
  }
}
