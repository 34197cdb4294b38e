/**
 Dotted paths into an untyped object, and reading and writing a string map at one: the
 NestedStringMap and SetNestedStringMap helpers the propagation controller calls.
 */
module NestedFields {
  import opened Kube
  import opened Json

  type Path = seq<string>

  /** Splitting a string at every occurrence of a one-character separator. */
  function Split(s: string, sep: char): (r: seq<string>)
    ensures |r| >= 1
  {
    if s == "" then [""]
    else
      var rest := Split(s[1..], sep);
      if s[0] == sep then [""] + rest else [[s[0]] + rest[0]] + rest[1..]
  }

  lemma {:induction false} SplitConcat(a: string, b: string, sep: char)
    ensures Split(a + [sep] + b, sep) == Split(a, sep) + Split(b, sep)
  {
    if a == "" {
      assert a + [sep] + b == [sep] + b;
      assert ([sep] + b)[1..] == b;
    } else {
      assert (a + [sep] + b)[1..] == a[1..] + [sep] + b;
      assert (a + [sep] + b)[0] == a[0];
      SplitConcat(a[1..], b, sep);
    }
  }

  lemma {:induction false} SplitWhole(s: string, sep: char)
    requires sep !in s
    ensures Split(s, sep) == [s]
  {
    if s != "" {
      SplitWhole(s[1..], sep);
      assert [s[0]] + s[1..] == s;
    }
  }

  lemma SplitTwoFields(s: string, a: string, b: string, sep: char)
    requires sep !in a && sep !in b
    ensures Split(s + [sep] + (a + [sep] + b), sep) == Split(s, sep) + [a, b]
  {
    SplitWhole(a, sep);
    SplitWhole(b, sep);
    SplitConcat(a, b, sep);
    SplitConcat(s, a + [sep] + b, sep);
  }

  const METADATA := "metadata"
  const ANNOTATIONS := "annotations"

  /** The annotations path under a pod template: the template's own path, then two fields. */
  lemma TemplateAnnotationsPath(template: string)
    ensures Split(template + "." + METADATA + "." + ANNOTATIONS, '.') == Split(template, '.') + [METADATA, ANNOTATIONS]
  {
    var m, n := METADATA, ANNOTATIONS;
    assert template + "." + m + "." + n == template + ['.'] + (m + ['.'] + n);
    assert '.' !in m && '.' !in n;
    SplitTwoFields(template, m, n, '.');
  }

  // ---- reading and writing ----

  function Get(j: Json, path: Path): Option<Json>
    decreases |path|
  {
    if path == [] then Some(j)
    else if j.Obj? && path[0] in j.fields then Get(j.fields[path[0]], path[1..])
    else None
  }

  /** Every map on the way is a map or missing: what a write needs in order not to fail. */
  predicate Settable(j: Json, path: Path)
    requires path != []
    decreases |path|
  {
    j.Obj? && (|path| == 1 || path[0] !in j.fields || Settable(j.fields[path[0]], path[1..]))
  }

  function Chain(path: Path, v: Json): Json
    decreases |path|
  {
    if path == [] then v else Obj(map[path[0] := Chain(path[1..], v)])
  }

  function Put(j: Json, path: Path, v: Json): (r: Json)
    requires path != [] && Settable(j, path)
    ensures r.Obj?
    decreases |path|
  {
    var child :=
      if |path| == 1 then v
      else if path[0] in j.fields then Put(j.fields[path[0]], path[1..], v)
      else Chain(path[1..], v);
    Obj(j.fields[path[0] := child])
  }

  /** A write that fails leaves the object as it was; the controller ignores the error. */
  function PutOrKeep(j: Json, path: Path, v: Json): Json
    requires path != []
  {
    if Settable(j, path) then Put(j, path, v) else j
  }

  predicate IsStr(j: Json) { j.Str? }

  /** The string map a value is, if it is one. */
  function Strings(j: Json): Option<StringMap> {
    if j.Obj? && forall k :: k in j.fields ==> IsStr(j.fields[k])
    then Some(map k | k in j.fields && IsStr(j.fields[k]) :: j.fields[k].s)
    else None
  }

  /** Not found, of another kind, or holding a non-string: all read as absent. */
  function NestedStringMap(j: Json, path: Path): Option<StringMap> {
    match Get(j, path)
    case Some(v) => Strings(v)
    case None => None
  }

  predicate Incomparable(p: Path, q: Path) {
    !(p <= q) && !(q <= p)
  }

  lemma {:induction false} ChainGet(path: Path, v: Json)
    ensures Get(Chain(path, v), path) == Some(v)
    decreases |path|
  {
    if path != [] {
      ChainGet(path[1..], v);
    }
  }

  lemma {:induction false} ChainOff(p: Path, v: Json, q: Path)
    requires Incomparable(p, q)
    ensures Get(Chain(p, v), q) == None && Settable(Chain(p, v), q)
    decreases |p|
  {
    if p[0] == q[0] {
      assert Incomparable(p[1..], q[1..]) by {
        assert p == [p[0]] + p[1..] && q == [q[0]] + q[1..];
      }
      ChainOff(p[1..], v, q[1..]);
    }
  }

  lemma {:induction false} GetPut(j: Json, path: Path, v: Json)
    requires path != [] && Settable(j, path)
    ensures Get(Put(j, path, v), path) == Some(v) && Settable(Put(j, path, v), path)
    decreases |path|
  {
    if |path| > 1 {
      if path[0] in j.fields {
        GetPut(j.fields[path[0]], path[1..], v);
      } else {
        ChainGet(path[1..], v);
        ChainSettable(path[1..], v);
      }
    }
  }

  lemma {:induction false} ChainSettable(path: Path, v: Json)
    requires path != []
    ensures Settable(Chain(path, v), path)
    decreases |path|
  {
    if |path| > 1 {
      ChainSettable(path[1..], v);
    }
  }

  /** A write at p is invisible at every path that is neither a prefix nor an extension of p. */
  lemma {:induction false} GetPutOff(j: Json, p: Path, v: Json, q: Path)
    requires p != [] && Settable(j, p) && Incomparable(p, q)
    ensures Get(Put(j, p, v), q) == Get(j, q)
    ensures Settable(Put(j, p, v), q) <==> Settable(j, q)
    decreases |p|
  {
    if p[0] == q[0] {
      assert Incomparable(p[1..], q[1..]) by {
        assert p == [p[0]] + p[1..] && q == [q[0]] + q[1..];
      }
      if p[0] in j.fields {
        GetPutOff(j.fields[p[0]], p[1..], v, q[1..]);
      } else {
        ChainOff(p[1..], v, q[1..]);
      }
    }
  }

  lemma {:induction false} FoundIsSettable(j: Json, path: Path)
    requires path != [] && Get(j, path).Some?
    ensures Settable(j, path)
    decreases |path|
  {
    if |path| > 1 {
      FoundIsSettable(j.fields[path[0]], path[1..]);
    }
  }

  lemma {:induction false} GetConcat(j: Json, p: Path, q: Path)
    ensures Get(j, p + q) == if Get(j, p).Some? then Get(Get(j, p).value, q) else None
    decreases |p|
  {
    if p == [] {
      assert p + q == q;
    } else if j.Obj? && p[0] in j.fields {
      assert (p + q)[1..] == p[1..] + q;
      GetConcat(j.fields[p[0]], p[1..], q);
    }
  }

  /** A path of one field is that field of the object. */
  lemma GetField(j: Json, k: string)
    ensures Get(j, [k]) == if j.Obj? && k in j.fields then Some(j.fields[k]) else None
  {
  }

  /** The values read as a string map are the encodings of string maps. */
  lemma StringsIff(j: Json, m: StringMap)
    ensures Strings(j) == Some(m) <==> j == OfStrings(m)
  {
    StringsOfStrings(m);
    if Strings(j) == Some(m) {
      assert j.fields == OfStrings(m).fields;
    }
  }

  lemma StringsOfStrings(m: StringMap)
    ensures Strings(OfStrings(m)) == Some(m)
  {
    var j := OfStrings(m);
    assert forall k :: k in j.fields ==> IsStr(j.fields[k]);
    assert (map k | k in j.fields && IsStr(j.fields[k]) :: j.fields[k].s) == m;
  }
}
