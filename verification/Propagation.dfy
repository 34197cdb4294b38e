/**
 Annotation propagation: the profile name on a workload object is copied to configured places
 inside it, from which the pods it makes will get it.
 */
module Propagation {
  import opened Kube
  import opened Json
  import opened NestedFields

  const OWN_ANNOTATIONS: Path := [METADATA, ANNOTATIONS]

  /** The path reads as a string map that gives this name for the profile key. */
  predicate Holds(j: Json, path: Path, name: string) {
    var existing := NestedStringMap(j, path);
    existing.Some? && ValueAt(existing.value, PROFILE_ANNOTATION) == name
  }

  function Existing(j: Json, path: Path): StringMap {
    if NestedStringMap(j, path).Some? then NestedStringMap(j, path).value else map[]
  }

  /** The object after one path is served. */
  function Propagate(j: Json, path: Path, name: string): Json
    requires path != []
  {
    if Holds(j, path, name) then j
    else PutOrKeep(j, path, OfStrings(Existing(j, path)[PROFILE_ANNOTATION := name]))
  }

  /** The object after all paths are served, in order. */
  function PropagateAll(j: Json, paths: seq<Path>, name: string): Json
    requires [] !in paths
    decreases |paths|
  {
    if paths == [] then j
    else PropagateAll(Propagate(j, paths[0], name), paths[1..], name)
  }

  // ---- one path ----

  /** After a propagation the path holds the name exactly when the way to it was made of maps. */
  lemma HoldsAfterIff(j: Json, path: Path, name: string)
    requires path != []
    ensures Holds(Propagate(j, path, name), path, name) <==> Settable(j, path)
    ensures Settable(Propagate(j, path, name), path) <==> Settable(j, path)
  {
    if Holds(j, path, name) {
      FoundIsSettable(j, path);
    } else if Settable(j, path) {
      var m := Existing(j, path)[PROFILE_ANNOTATION := name];
      GetPut(j, path, OfStrings(m));
      StringsOfStrings(m);
    }
  }

  /**
   What a served path holds: the old annotations there with the profile key set, when what was
   there is absent or a string map; anything else there is replaced by the key alone.
   */
  lemma OtherAnnotationsKept(j: Json, path: Path, name: string)
    requires path != [] && Settable(j, path)
    ensures !Holds(j, path, name) ==>
      NestedStringMap(Propagate(j, path, name), path) == Some(Existing(j, path)[PROFILE_ANNOTATION := name])
    ensures Get(j, path).Some? && Strings(Get(j, path).value).None? ==>
      NestedStringMap(Propagate(j, path, name), path) == Some(map[PROFILE_ANNOTATION := name])
    ensures forall k :: k != PROFILE_ANNOTATION && k in Existing(j, path) ==>
      var after := NestedStringMap(Propagate(j, path, name), path);
      after.Some? && k in after.value && after.value[k] == Existing(j, path)[k]
  {
    if !Holds(j, path, name) {
      var m := Existing(j, path)[PROFILE_ANNOTATION := name];
      GetPut(j, path, OfStrings(m));
      StringsOfStrings(m);
    }
  }

  /** No subtree off the path changes, nor whether other paths can be served. */
  lemma OffPath(j: Json, path: Path, name: string, q: Path)
    requires path != [] && Incomparable(path, q)
    ensures Get(Propagate(j, path, name), q) == Get(j, q)
    ensures Settable(Propagate(j, path, name), q) <==> Settable(j, q)
  {
    if !Holds(j, path, name) && Settable(j, path) {
      GetPutOff(j, path, OfStrings(Existing(j, path)[PROFILE_ANNOTATION := name]), q);
    }
  }

  lemma PropagateTwice(j: Json, path: Path, name: string)
    requires path != []
    ensures Propagate(Propagate(j, path, name), path, name) == Propagate(j, path, name)
  {
    HoldsAfterIff(j, path, name);
  }

  // ---- several paths ----

  /** Equal, or neither a prefix of the other. */
  predicate Apart(p: Path, q: Path) {
    p == q || Incomparable(p, q)
  }

  ghost predicate AllApart(paths: seq<Path>) {
    forall p, q :: p in paths && q in paths ==> Apart(p, q)
  }

  ghost predicate AllHold(j: Json, paths: seq<Path>, name: string) {
    forall p :: p in paths ==> Holds(j, p, name)
  }

  /** A string map has no map inside: no object holds the name at a path and below it. */
  lemma PrefixesNeverBothHold(j: Json, p: Path, q: Path, name: string)
    requires p < q
    ensures !(Holds(j, p, name) && Holds(j, q, name))
  {
    var rest := q[|p|..];
    assert q == p + rest;
    GetConcat(j, p, rest);
    if Holds(j, p, name) && rest[0] in Get(j, p).value.fields {
      var below := Get(j, p).value.fields[rest[0]];
      assert IsStr(below);
      assert Get(below, rest[1..]) == if rest[1..] == [] then Some(below) else None;
    }
  }

  /** No subtree off all the paths changes. */
  lemma {:induction false} OffAllPaths(j: Json, paths: seq<Path>, name: string, q: Path)
    requires [] !in paths && forall p :: p in paths ==> Incomparable(p, q)
    ensures Get(PropagateAll(j, paths, name), q) == Get(j, q)
    decreases |paths|
  {
    if paths != [] {
      assert Incomparable(paths[0], q);
      OffPath(j, paths[0], name, q);
      OffAllPaths(Propagate(j, paths[0], name), paths[1..], name, q);
    }
  }

  /** With all paths apart from q, whether q can be served, and that it holds, are lasting. */
  lemma {:induction false} Lasting(j: Json, paths: seq<Path>, name: string, q: Path)
    requires q != [] && [] !in paths && forall p :: p in paths ==> Apart(p, q)
    ensures Settable(PropagateAll(j, paths, name), q) <==> Settable(j, q)
    ensures Holds(j, q, name) ==> Holds(PropagateAll(j, paths, name), q, name)
    ensures q in paths && Settable(j, q) ==> Holds(PropagateAll(j, paths, name), q, name)
    decreases |paths|
  {
    if paths != [] {
      var next := Propagate(j, paths[0], name);
      assert Apart(paths[0], q);
      if paths[0] == q {
        HoldsAfterIff(j, q, name);
      } else {
        OffPath(j, paths[0], name, q);
      }
      Lasting(next, paths[1..], name, q);
    }
  }

  /** All paths hold after one pass exactly when none lies below another and each can be served. */
  lemma AllHoldIff(j: Json, paths: seq<Path>, name: string)
    requires [] !in paths
    ensures AllHold(PropagateAll(j, paths, name), paths, name)
       <==> AllApart(paths) && forall p :: p in paths ==> Settable(j, p)
  {
    var after := PropagateAll(j, paths, name);
    if AllApart(paths) {
      forall p | p in paths ensures Holds(after, p, name) <==> Settable(j, p) {
        Lasting(j, paths, name, p);
        if Holds(after, p, name) {
          FoundIsSettable(after, p);
        }
      }
    } else {
      var p, q :| p in paths && q in paths && !Apart(p, q);
      if p < q {
        PrefixesNeverBothHold(after, p, q, name);
      } else {
        PrefixesNeverBothHold(after, q, p, name);
      }
    }
  }

  lemma {:induction false} HeldIsFixed(j: Json, paths: seq<Path>, name: string)
    requires [] !in paths && AllHold(j, paths, name)
    ensures PropagateAll(j, paths, name) == j
    decreases |paths|
  {
    if paths != [] {
      HeldIsFixed(j, paths[1..], name);
    }
  }

  // ---- the reconcile, re-triggered by its own update ----

  /** What one reconcile leaves: nothing happens to an object without the annotation. */
  function Reconciled(j: Json, paths: seq<Path>): Json
    requires [] !in paths
  {
    if PROFILE_ANNOTATION in Existing(j, OWN_ANNOTATIONS)
    then PropagateAll(j, paths, Existing(j, OWN_ANNOTATIONS)[PROFILE_ANNOTATION])
    else j
  }

  /** The reconcile sees something to do: some path, when its turn comes, does not hold yet. */
  predicate Changes(j: Json, paths: seq<Path>, name: string)
    requires [] !in paths
    decreases |paths|
  {
    paths != [] && (!Holds(j, paths[0], name) || Changes(Propagate(j, paths[0], name), paths[1..], name))
  }

  predicate SendsUpdate(j: Json, paths: seq<Path>)
    requires [] !in paths
  {
    PROFILE_ANNOTATION in Existing(j, OWN_ANNOTATIONS)
      && Changes(j, paths, Existing(j, OWN_ANNOTATIONS)[PROFILE_ANNOTATION])
  }

  lemma {:induction false} QuietIff(j: Json, paths: seq<Path>, name: string)
    requires [] !in paths
    ensures !Changes(j, paths, name) <==> AllHold(j, paths, name)
    decreases |paths|
  {
    if paths != [] && Holds(j, paths[0], name) {
      QuietIff(j, paths[1..], name);
      assert forall p :: p in paths <==> p == paths[0] || p in paths[1..];
    }
  }

  /**
   The fixpoint. When no path lies above or below the object's own annotations, one reconcile
   keeps the name it read; and the next one sends no update exactly when no configured path
   lies below another and each could be served.
   */
  lemma OneUpdateIff(j: Json, paths: seq<Path>)
    requires [] !in paths && forall p :: p in paths ==> Apart(p, OWN_ANNOTATIONS)
    requires PROFILE_ANNOTATION in Existing(j, OWN_ANNOTATIONS)
    ensures var name := Existing(j, OWN_ANNOTATIONS)[PROFILE_ANNOTATION];
      var after := Reconciled(j, paths);
      && Existing(after, OWN_ANNOTATIONS) == Existing(j, OWN_ANNOTATIONS)
      && (!SendsUpdate(after, paths) <==> AllApart(paths) && forall p :: p in paths ==> Settable(j, p))
      && (!SendsUpdate(after, paths) ==> AllHold(after, paths, name) && Reconciled(after, paths) == after)
  {
    var name := Existing(j, OWN_ANNOTATIONS)[PROFILE_ANNOTATION];
    OwnAnnotationsKept(j, paths, name);
    AllHoldIff(j, paths, name);
    var after := Reconciled(j, paths);
    QuietIff(after, paths, name);
    if AllHold(after, paths, name) {
      HeldIsFixed(after, paths, name);
    }
  }

  lemma {:induction false} OwnAnnotationsKept(j: Json, paths: seq<Path>, name: string)
    requires [] !in paths && forall p :: p in paths ==> Apart(p, OWN_ANNOTATIONS)
    requires Holds(j, OWN_ANNOTATIONS, name)
    ensures Get(PropagateAll(j, paths, name), OWN_ANNOTATIONS) == Get(j, OWN_ANNOTATIONS)
    decreases |paths|
  {
    if paths != [] {
      assert Apart(paths[0], OWN_ANNOTATIONS);
      if paths[0] != OWN_ANNOTATIONS {
        OffPath(j, paths[0], name, OWN_ANNOTATIONS);
      }
      OwnAnnotationsKept(Propagate(j, paths[0], name), paths[1..], name);
    }
  }

  /** n reconciles in a row, each set off by the update before it: the object and the updates sent. */
  function Rounds(j: Json, paths: seq<Path>, n: nat): (Json, nat)
    requires [] !in paths
  {
    if n == 0 then (j, 0)
    else
      var (before, updates) := Rounds(j, paths, n - 1);
      (Reconciled(before, paths), updates + if SendsUpdate(before, paths) then 1 else 0)
  }

  /** The self-triggered loop stops: any number of rounds sends what the first one sends. */
  lemma {:induction false} LoopStops(j: Json, paths: seq<Path>, n: nat)
    requires n > 0 && [] !in paths && AllApart(paths)
    requires forall p :: p in paths ==> Apart(p, OWN_ANNOTATIONS) && Settable(j, p)
    ensures Rounds(j, paths, n) == (Reconciled(j, paths), if SendsUpdate(j, paths) then 1 else 0)
  {
    if n == 1 {
      assert Rounds(j, paths, 0) == (j, 0);
    } else {
      LoopStops(j, paths, n - 1);
      if PROFILE_ANNOTATION in Existing(j, OWN_ANNOTATIONS) {
        OneUpdateIff(j, paths);
      }
    }
  }

  /** Otherwise every round sends one: the first two already do. */
  lemma LoopGoesOn(j: Json, paths: seq<Path>)
    requires [] !in paths && (forall p :: p in paths ==> Apart(p, OWN_ANNOTATIONS))
    requires PROFILE_ANNOTATION in Existing(j, OWN_ANNOTATIONS)
    requires !(AllApart(paths) && forall p :: p in paths ==> Settable(j, p))
    ensures Rounds(j, paths, 2).1 == 2
  {
    var name := Existing(j, OWN_ANNOTATIONS)[PROFILE_ANNOTATION];
    OneUpdateIff(j, paths);
    AllHoldIff(j, paths, name);
    QuietIff(j, paths, name);
    if AllHold(j, paths, name) {
      HeldIsFixed(j, paths, name);
    }
    assert Rounds(j, paths, 0) == (j, 0);
    assert Rounds(j, paths, 1) == (Reconciled(j, paths), 1);
  }

  ghost predicate AtMostOneUpdate(j: Json, paths: seq<Path>) {
    [] !in paths && forall n: nat :: Rounds(j, paths, n).1 <= 1
  }

  /**
   The self-triggered loop sends at most one update, however long it runs, exactly when no configured
   path lies below another and each can be written.
   */
  lemma LoopStopsIff(j: Json, paths: seq<Path>)
    requires [] !in paths && (forall p :: p in paths ==> Apart(p, OWN_ANNOTATIONS))
    requires PROFILE_ANNOTATION in Existing(j, OWN_ANNOTATIONS)
    ensures AtMostOneUpdate(j, paths) <==> AllApart(paths) && forall p :: p in paths ==> Settable(j, p)
  {
    if AllApart(paths) && forall p :: p in paths ==> Settable(j, p) {
      forall n: nat ensures Rounds(j, paths, n).1 <= 1 {
        if n > 0 {
          LoopStops(j, paths, n);
        }
      }
    } else {
      LoopGoesOn(j, paths);
      assert Rounds(j, paths, 2).1 > 1;
    }
  }

  // ---- the in-place form ----

  lemma {:induction false} OneMore(j: Json, paths: seq<Path>, p: Path, name: string)
    requires [] !in paths && p != []
    ensures PropagateAll(j, paths + [p], name) == Propagate(PropagateAll(j, paths, name), p, name)
    ensures Changes(j, paths + [p], name) <==> Changes(j, paths, name) || !Holds(PropagateAll(j, paths, name), p, name)
    decreases |paths|
  {
    if paths == [] {
      assert (paths + [p])[1..] == [];
    } else {
      assert (paths + [p])[1..] == paths[1..] + [p];
      OneMore(Propagate(j, paths[0], name), paths[1..], p, name);
    }
  }

  /** The object decoded without a schema. */
  class Unstructured {
    var content: Json

    constructor (content: Json)
      ensures this.content == content
    {
      this.content := content;
    }

    method PropagateAt(fields: Path, name: string) returns (changed: bool)
      requires fields != []
      modifies this
      ensures content == Propagate(old(content), fields, name)
      ensures changed <==> !Holds(old(content), fields, name)
    {
      var found := NestedStringMap(content, fields);
      if found.Some? && ValueAt(found.value, PROFILE_ANNOTATION) == name {
        return false;
      }
      var existing := if found.Some? then found.value else map[];
      existing := existing[PROFILE_ANNOTATION := name];
      content := PutOrKeep(content, fields, OfStrings(existing));
      changed := true;
    }

    method PropagateViaPodTemplatePath(templatePath: string, name: string) returns (changed: bool)
      modifies this
      ensures content == Propagate(old(content), Split(templatePath, '.') + OWN_ANNOTATIONS, name)
      ensures changed <==> !Holds(old(content), Split(templatePath, '.') + OWN_ANNOTATIONS, name)
    {
      TemplateAnnotationsPath(templatePath);
      changed := PropagateAt(Split(templatePath + "." + METADATA + "." + ANNOTATIONS, '.'), name);
    }

    method PropagateViaAnnotationPath(path: string, name: string) returns (changed: bool)
      modifies this
      ensures content == Propagate(old(content), Split(path, '.'), name)
      ensures changed <==> !Holds(old(content), Split(path, '.'), name)
    {
      changed := PropagateAt(Split(path, '.'), name);
    }
  }
}
