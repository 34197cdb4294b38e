/**
 The dynamic watch registry: which workload types are watched, with what settings, and how the
 workload-type controller drives it. A started watch is never stopped.
 */
module Registry {
  import opened Kube
  import opened Json
  import opened NestedFields
  import opened Propagation
  import opened Conditions

  datatype Gvk = Gvk(group: string, version: string, kind: string)

  datatype TypeSpec =
    TypeSpec(gvk: Gvk, podTemplatePath: Option<string>, annotationPaths: seq<string>, nativePropagation: bool)

  datatype Watch = Watch(config: string, gvk: Gvk)

  datatype State = State(watched: map<string, Gvk>, specs: map<string, TypeSpec>, started: seq<Watch>)

  datatype Event =
    | Register(name: string, gvk: Gvk, spec: TypeSpec, watchFails: bool)
    | Deregister(name: string)

  function Next(s: State, e: Event): State {
    match e
    case Register(name, gvk, spec, watchFails) =>
      if name in s.watched && s.watched[name] == gvk then s.(specs := s.specs[name := spec])
      else if watchFails then s
      else State(s.watched[name := gvk], s.specs[name := spec], s.started + [Watch(name, gvk)])
    case Deregister(name) => s.(watched := s.watched - {name}, specs := s.specs - {name})
  }

  const EMPTY := State(map[], map[], [])

  function Run(events: seq<Event>): State {
    if events == [] then EMPTY else Next(Run(events[..|events| - 1]), events[|events| - 1])
  }

  /** Equal key sets, and for every name a watch started for exactly its current kind. */
  ghost predicate Consistent(s: State) {
    && s.watched.Keys == s.specs.Keys
    && forall name :: name in s.watched ==> Watch(name, s.watched[name]) in s.started
  }

  lemma {:induction false} AlwaysConsistent(events: seq<Event>)
    ensures Consistent(Run(events))
  {
    if events != [] {
      AlwaysConsistent(events[..|events| - 1]);
    }
  }

  /** What one name's own events, taken alone, leave registered for it. */
  function Latest(events: seq<Event>, name: string): Option<(Gvk, TypeSpec)> {
    if events == [] then None
    else
      var before := Latest(events[..|events| - 1], name);
      match events[|events| - 1]
      case Register(n, gvk, spec, watchFails) =>
        if n == name && (!watchFails || (before.Some? && before.value.0 == gvk)) then Some((gvk, spec)) else before
      case Deregister(n) => if n == name then None else before
  }

  /** The two maps always hold each name's latest effective registration: names do not interfere. */
  lemma {:induction false} LatestWins(events: seq<Event>, name: string)
    ensures var s := Run(events);
      && (name in s.watched <==> Latest(events, name).Some?)
      && (name in s.watched ==> name in s.specs && Latest(events, name) == Some((s.watched[name], s.specs[name])))
  {
    AlwaysConsistent(events);
    if events != [] {
      LatestWins(events[..|events| - 1], name);
      AlwaysConsistent(events[..|events| - 1]);
    }
  }

  // ---- request names ----

  /** The text before and after the first separator, if there is one. */
  function SplitFirst(s: string, sep: char): Option<(string, string)> {
    if s == "" then None
    else if s[0] == sep then Some(("", s[1..]))
    else
      match SplitFirst(s[1..], sep)
      case None => None
      case Some((a, b)) => Some(([s[0]] + a, b))
  }

  lemma {:induction false} SplitFirstPair(config: string, name: string, sep: char)
    requires sep !in config
    ensures SplitFirst(config + [sep] + name, sep) == Some((config, name))
  {
    var s := config + [sep] + name;
    if config == "" {
      assert s[1..] == name;
    } else {
      assert s[1..] == config[1..] + [sep] + name;
      SplitFirstPair(config[1..], name, sep);
      assert [config[0]] + config[1..] == config;
    }
  }

  lemma {:induction false} SplitFirstHead(s: string, sep: char)
    ensures SplitFirst(s, sep).Some? ==> sep !in SplitFirst(s, sep).value.0
  {
    if s != "" {
      SplitFirstHead(s[1..], sep);
    }
  }

  /** A "config/name" request decodes to its pair exactly when the config name holds no slash. */
  lemma DecodeIff(config: string, name: string)
    ensures SplitFirst(config + ['/'] + name, '/') == Some((config, name)) <==> '/' !in config
  {
    if '/' !in config {
      SplitFirstPair(config, name, '/');
    }
    SplitFirstHead(config + ['/'] + name, '/');
  }

  // ---- the registry and the reconcile it serves ----

  /** The paths one reconcile serves: the pod template's annotations, then the listed paths. */
  function Paths(spec: TypeSpec): (r: seq<Path>)
    ensures [] !in r
  {
    var paths := spec.annotationPaths;
    var listed := seq(|paths|, i requires 0 <= i < |paths| => Split(paths[i], '.'));
    (if spec.podTemplatePath.Some? then [Split(spec.podTemplatePath.value, '.') + OWN_ANNOTATIONS] else []) + listed
  }

  datatype ObjectRef = ObjectRef(gvk: Gvk, key: Key)

  /** The object a request is about and the settings to use: read through the current registry. */
  function Addressed(s: State, req: Key): Option<(ObjectRef, TypeSpec)> {
    match SplitFirst(req.name, '/')
    case None => None
    case Some((config, name)) =>
      if config in s.watched && config in s.specs && !s.specs[config].nativePropagation
      then Some((ObjectRef(s.watched[config], Key(req.namespace, name)), s.specs[config]))
      else None
  }

  /** The objects after one reconcile; a failed update leaves them. */
  function Served(s: State, objects: map<ObjectRef, Json>, req: Key, updateFails: bool): map<ObjectRef, Json> {
    match Addressed(s, req)
    case None => objects
    case Some((at, spec)) =>
      if at in objects && SendsUpdate(objects[at], Paths(spec)) && !updateFails
      then objects[at := Reconciled(objects[at], Paths(spec))]
      else objects
  }

  // ---- what a request does, over the config's fields ----

  /** A path the config stands for: the pod template's annotations, or one of the listed paths. */
  predicate Configured(spec: TypeSpec, path: Path) {
    || (spec.podTemplatePath.Some? && path == Split(spec.podTemplatePath.value, '.') + ["metadata", "annotations"])
    || exists i :: 0 <= i < |spec.annotationPaths| && path == Split(spec.annotationPaths[i], '.')
  }

  lemma PathsConfigured(spec: TypeSpec)
    ensures forall path :: path in Paths(spec) <==> Configured(spec, path)
  {
    var paths := spec.annotationPaths;
    var listed := seq(|paths|, i requires 0 <= i < |paths| => Split(paths[i], '.'));
    var first := if spec.podTemplatePath.Some? then [Split(spec.podTemplatePath.value, '.') + OWN_ANNOTATIONS] else [];
    assert Paths(spec) == first + listed;
    forall path ensures path in listed <==> exists i :: 0 <= i < |paths| && path == Split(paths[i], '.') {
      if i :| 0 <= i < |paths| && path == Split(paths[i], '.') {
        assert listed[i] == path;
      }
    }
  }

  /** The request is about this object, by a registered config that WTO propagates for. */
  predicate About(s: State, req: Key, config: string, name: string) {
    && '/' !in config && req.name == config + ['/'] + name
    && config in s.watched && config in s.specs && !s.specs[config].nativePropagation
  }

  function ProfileNamed(j: Json): Option<string> {
    var annotations := NestedStringMap(j, ["metadata", "annotations"]);
    if annotations.None? || PROFILE_ANNOTATION !in annotations.value then None
    else Some(annotations.value[PROFILE_ANNOTATION])
  }

  /** The object's paths are apart from each other and from its own annotations, and can be written. */
  ghost predicate Servable(j: Json, spec: TypeSpec) {
    forall p :: Configured(spec, p) ==>
      Settable(j, p) && Apart(p, ["metadata", "annotations"]) && forall q :: Configured(spec, q) ==> Apart(p, q)
  }

  /**
   An accepted reconcile of an annotated object leaves the profile's name at the pod template's
   annotations, when they are configured, and at every listed path; every subtree off all of these as
   it was; and every other object.
   */
  lemma ServedHolds(s: State, objects: map<ObjectRef, Json>, req: Key, config: string, name: string)
    requires About(s, req, config, name)
    requires var at := ObjectRef(s.watched[config], Key(req.namespace, name));
      at in objects && ProfileNamed(objects[at]).Some? && Servable(objects[at], s.specs[config])
    ensures var at := ObjectRef(s.watched[config], Key(req.namespace, name));
      var after := Served(s, objects, req, false);
      && after.Keys == objects.Keys && (forall o :: o in objects && o != at ==> after[o] == objects[o])
      && (forall p :: Configured(s.specs[config], p) ==> Holds(after[at], p, ProfileNamed(objects[at]).value))
      && (forall q :: (forall p :: Configured(s.specs[config], p) ==> Incomparable(p, q)) ==>
            Get(after[at], q) == Get(objects[at], q))
  {
    var at := ObjectRef(s.watched[config], Key(req.namespace, name));
    var spec := s.specs[config];
    var j, profile := objects[at], ProfileNamed(objects[at]).value;
    DecodeIff(config, name);
    PathsConfigured(spec);
    AllHoldIff(j, Paths(spec), profile);
    QuietIff(j, Paths(spec), profile);
    assert Reconciled(j, Paths(spec)) == PropagateAll(j, Paths(spec), profile);
    if AllHold(j, Paths(spec), profile) {
      HeldIsFixed(j, Paths(spec), profile);
    }
    forall q | forall p :: Configured(spec, p) ==> Incomparable(p, q)
      ensures Get(PropagateAll(j, Paths(spec), profile), q) == Get(j, q)
    {
      OffAllPaths(j, Paths(spec), profile, q);
    }
  }

  /**
   Everything else changes nothing: a request that names no registered config or one whose type
   propagates natively, an absent object, an object without the annotation, a refused update.
   */
  lemma ServedElse(s: State, objects: map<ObjectRef, Json>, req: Key, updateFails: bool)
    requires forall config, name :: About(s, req, config, name) ==>
      var at := ObjectRef(s.watched[config], Key(req.namespace, name));
      updateFails || at !in objects || ProfileNamed(objects[at]).None?
    ensures Served(s, objects, req, updateFails) == objects
  {
    var parts := SplitFirst(req.name, '/');
    if parts.Some? {
      SplitFirstHead(req.name, '/');
      SplitFirstJoins(req.name, '/');
      var (config, name) := parts.value;
      assert req.name == config + ['/'] + name;
      assert Addressed(s, req).Some? ==> About(s, req, config, name);
    }
  }

  lemma {:induction false} SplitFirstJoins(s: string, sep: char)
    ensures SplitFirst(s, sep).Some? ==> s == SplitFirst(s, sep).value.0 + [sep] + SplitFirst(s, sep).value.1
  {
    if s != "" && s[0] != sep {
      SplitFirstJoins(s[1..], sep);
      assert s == [s[0]] + s[1..];
    }
  }

  class ObjectStore {
    var objects: map<ObjectRef, Json>
  }

  class PropagationReconciler {
    var watchedGVKs: map<string, Gvk>
    var configSpecs: map<string, TypeSpec>
    var started: seq<Watch>

    constructor ()
      ensures Value() == EMPTY
    {
      watchedGVKs, configSpecs, started := map[], map[], [];
    }

    function Value(): State
      reads this
    {
      State(watchedGVKs, configSpecs, started)
    }

    method RegisterGVK(name: string, gvk: Gvk, spec: TypeSpec, watchFails: bool) returns (ok: bool)
      modifies this
      ensures Value() == Next(old(Value()), Register(name, gvk, spec, watchFails))
      ensures ok <==> !watchFails || (name in old(watchedGVKs) && old(watchedGVKs)[name] == gvk)
      ensures ok ==> name in watchedGVKs && watchedGVKs[name] == gvk && configSpecs[name] == spec
    {
      if name in watchedGVKs && watchedGVKs[name] == gvk {
        configSpecs := configSpecs[name := spec];
        return true;
      }
      if watchFails {
        return false;
      }
      started := started + [Watch(name, gvk)];
      watchedGVKs := watchedGVKs[name := gvk];
      configSpecs := configSpecs[name := spec];
      ok := true;
    }

    method DeregisterGVK(name: string)
      modifies this
      ensures Value() == Next(old(Value()), Deregister(name))
    {
      watchedGVKs := watchedGVKs - {name};
      configSpecs := configSpecs - {name};
    }

    method Reconcile(store: ObjectStore, req: Key, updateFails: bool)
      modifies store
      ensures store.objects == Served(Value(), old(store.objects), req, updateFails)
    {
      var parts := SplitFirst(req.name, '/');
      if parts.None? {
        return;
      }
      var (configName, objName) := parts.value;
      if configName !in watchedGVKs || configName !in configSpecs {
        return;
      }
      var spec := configSpecs[configName];
      if spec.nativePropagation {
        return;
      }
      var at := ObjectRef(watchedGVKs[configName], Key(req.namespace, objName));
      if at !in store.objects {
        return;
      }
      var u := new Unstructured(store.objects[at]);
      var annotations := NestedStringMap(u.content, OWN_ANNOTATIONS);
      if annotations.None? || PROFILE_ANNOTATION !in annotations.value {
        return;
      }
      var name := annotations.value[PROFILE_ANNOTATION];
      var changed := PropagateSpec(u, spec, name);
      if !changed || updateFails {
        return;
      }
      store.objects := store.objects[at := u.content];
    }
  }

  /** The paths up to the `i`th listed one: the pod template's, if any, comes before them. */
  function PathsTo(spec: TypeSpec, i: nat): (r: seq<Path>)
    requires i <= |spec.annotationPaths|
    ensures i == |spec.annotationPaths| ==> r == Paths(spec)
  {
    Paths(spec)[..(if spec.podTemplatePath.Some? then 1 else 0) + i]
  }

  lemma FirstPath(spec: TypeSpec, j: Json, name: string)
    ensures var paths := PathsTo(spec, 0);
      if spec.podTemplatePath.Some? then
        var p := Split(spec.podTemplatePath.value, '.') + OWN_ANNOTATIONS;
        PropagateAll(j, paths, name) == Propagate(j, p, name) && (Changes(j, paths, name) <==> !Holds(j, p, name))
      else PropagateAll(j, paths, name) == j && !Changes(j, paths, name)
  {
    if spec.podTemplatePath.Some? {
      var p := Paths(spec)[0];
      assert PathsTo(spec, 0) == [] + [p];
      OneMore(j, [], p, name);
    }
  }

  lemma NextPath(spec: TypeSpec, j: Json, i: nat, name: string)
    requires i < |spec.annotationPaths|
    ensures var (before, after, p) := (PathsTo(spec, i), PathsTo(spec, i + 1), Split(spec.annotationPaths[i], '.'));
      && PropagateAll(j, after, name) == Propagate(PropagateAll(j, before, name), p, name)
      && (Changes(j, after, name) <==> Changes(j, before, name) || !Holds(PropagateAll(j, before, name), p, name))
  {
    var p := Split(spec.annotationPaths[i], '.');
    assert PathsTo(spec, i + 1) == PathsTo(spec, i) + [p];
    OneMore(j, PathsTo(spec, i), p, name);
  }

  method PropagateSpec(u: Unstructured, spec: TypeSpec, name: string) returns (changed: bool)
    modifies u
    ensures u.content == PropagateAll(old(u.content), Paths(spec), name)
    ensures changed <==> Changes(old(u.content), Paths(spec), name)
  {
    FirstPath(spec, u.content, name);
    changed := false;
    if spec.podTemplatePath.Some? {
      var c := u.PropagateViaPodTemplatePath(spec.podTemplatePath.value, name);
      if c {
        changed := true;
      }
    }
    for i := 0 to |spec.annotationPaths|
      invariant u.content == PropagateAll(old(u.content), PathsTo(spec, i), name)
      invariant changed <==> Changes(old(u.content), PathsTo(spec, i), name)
    {
      NextPath(spec, old(u.content), i, name);
      var c := u.PropagateViaAnnotationPath(spec.annotationPaths[i], name);
      if c {
        changed := true;
      }
    }
  }

  // ---- the workload-type controller ----

  datatype TypeConfig =
    TypeConfig(generation: int, spec: TypeSpec, conditions: seq<Condition>, observed: Option<Gvk>)

  datatype World = World(registry: State, configs: map<string, TypeConfig>)

  datatype Move =
    | PutConfig(config: string, newSpec: TypeSpec)
    | DropConfig(config: string)
    | ReconcileType(config: string, crdFound: bool, watchErr: bool, updateErr: bool)

  /** The registry event of one reconcile, if it gets that far. */
  function Driven(w: World, name: string, crdFound: bool, watchErr: bool): State {
    if name !in w.configs then Next(w.registry, Deregister(name))
    else if crdFound then Next(w.registry, Register(name, w.configs[name].spec.gvk, w.configs[name].spec, watchErr))
    else w.registry
  }

  predicate WatchOk(w: World, name: string, watchErr: bool)
    requires name in w.configs
  {
    !watchErr || (name in w.registry.watched && w.registry.watched[name] == w.configs[name].spec.gvk)
  }

  /** The status one reconcile writes. */
  function NewStatus(w: World, name: string, crdFound: bool, watchErr: bool, now: nat): TypeConfig
    requires name in w.configs
  {
    var c := w.configs[name];
    var found := SetOnChange(c.conditions, CRD_AVAILABLE, StatusOf(crdFound),
                             ReasonOf(crdFound, "CRDFound", "CRDNotFound"), now, c.generation);
    var active := crdFound && WatchOk(w, name, watchErr);
    var reason := if !crdFound then "CRDUnavailable" else ReasonOf(active, "WatchRegistered", "WatchFailed");
    c.(conditions := SetOnChange(found, WATCH_ACTIVE, StatusOf(active), reason, now, c.generation),
       observed := Some(c.spec.gvk))
  }

  function After(w: World, m: Move, now: nat): World {
    match m
    case PutConfig(name, spec) =>
      w.(configs := w.configs[name :=
        if name in w.configs then w.configs[name].(spec := spec, generation := w.configs[name].generation + 1)
        else TypeConfig(1, spec, [], None)])
    case DropConfig(name) => w.(configs := w.configs - {name})
    case ReconcileType(name, crdFound, watchErr, updateErr) =>
      World(Driven(w, name, crdFound, watchErr),
            if name !in w.configs || updateErr then w.configs
            else w.configs[name := NewStatus(w, name, crdFound, watchErr, now)])
  }

  function History(moves: seq<Move>): World {
    if moves == [] then World(EMPTY, map[])
    else After(History(moves[..|moves| - 1]), moves[|moves| - 1], |moves|)
  }

  /**
   A stored WatchActive=True is backed: the name is registered, and a watch was started for the
   kind the status reports.
   */
  ghost predicate Backed(w: World) {
    && Consistent(w.registry)
    && forall name :: name in w.configs && IsTrue(w.configs[name].conditions, WATCH_ACTIVE) ==>
      && name in w.registry.watched
      && w.configs[name].observed.Some?
      && Watch(name, w.configs[name].observed.value) in w.registry.started
  }

  lemma StatusSays(w: World, name: string, crdFound: bool, watchErr: bool, now: nat)
    requires name in w.configs
    ensures IsTrue(NewStatus(w, name, crdFound, watchErr, now).conditions, WATCH_ACTIVE)
      <==> crdFound && WatchOk(w, name, watchErr)
    ensures IsTrue(NewStatus(w, name, crdFound, watchErr, now).conditions, CRD_AVAILABLE) <==> crdFound
  {
    var c := w.configs[name];
    var crd := ReasonOf(crdFound, "CRDFound", "CRDNotFound");
    FindSet(c.conditions, CRD_AVAILABLE, StatusOf(crdFound), crd, now, c.generation);
    var found := SetOnChange(c.conditions, CRD_AVAILABLE, StatusOf(crdFound),
                             ReasonOf(crdFound, "CRDFound", "CRDNotFound"), now, c.generation);
    var active := crdFound && WatchOk(w, name, watchErr);
    var reason := if !crdFound then "CRDUnavailable" else ReasonOf(active, "WatchRegistered", "WatchFailed");
    FindSet(found, WATCH_ACTIVE, StatusOf(active), reason, now, c.generation);
  }

  lemma {:induction false} AlwaysBacked(moves: seq<Move>)
    ensures Backed(History(moves))
  {
    if moves != [] {
      var before := History(moves[..|moves| - 1]);
      AlwaysBacked(moves[..|moves| - 1]);
      match moves[|moves| - 1]
      case PutConfig(name, spec) =>
      case DropConfig(name) =>
      case ReconcileType(name, crdFound, watchErr, updateErr) =>
        if name in before.configs {
          StatusSays(before, name, crdFound, watchErr, |moves|);
        }
    }
  }

  /** A deleted config is forgotten when it is next reconciled; other names keep what they have. */
  lemma DeletedIsForgotten(w: World, name: string, crdFound: bool, watchErr: bool, updateErr: bool, now: nat)
    requires name !in w.configs
    ensures var r := After(w, ReconcileType(name, crdFound, watchErr, updateErr), now).registry;
      && name !in r.watched && name !in r.specs
      && (forall n :: n != name ==>
            (n in r.watched <==> n in w.registry.watched) && (n in r.specs <==> n in w.registry.specs))
      && (forall n :: n != name && n in r.watched ==> r.watched[n] == w.registry.watched[n])
      && (forall n :: n != name && n in r.specs ==> r.specs[n] == w.registry.specs[n])
  {
  }

  // ---- when the status and the registry agree ----

  /** WatchActive is True exactly for a registered name, and then the status reports the registered kind. */
  ghost predicate InSync(w: World, name: string)
    requires name in w.configs
  {
    && (IsTrue(w.configs[name].conditions, WATCH_ACTIVE) <==> name in w.registry.watched)
    && (name in w.registry.watched ==> w.configs[name].observed == Some(w.registry.watched[name]))
  }

  /**
   A reconcile whose status is written brings the two together exactly when it registered, or there
   was nothing registered: a kind that has left the cluster, or that fails to be replaced, stays.
   */
  lemma SyncIff(w: World, name: string, crdFound: bool, watchErr: bool, now: nat)
    requires name in w.configs
    ensures InSync(After(w, ReconcileType(name, crdFound, watchErr, false), now), name)
      <==> (crdFound && WatchOk(w, name, watchErr)) || name !in w.registry.watched
  {
    StatusSays(w, name, crdFound, watchErr, now);
  }

  /**
   A reconcile whose status write is lost keeps the two together exactly when it changed nothing in
   the registry that the old status reports: it registered no new kind.
   */
  lemma LostStatusIff(w: World, name: string, crdFound: bool, watchErr: bool, now: nat)
    requires name in w.configs && InSync(w, name)
    ensures InSync(After(w, ReconcileType(name, crdFound, watchErr, true), now), name)
      <==>
        || !(crdFound && WatchOk(w, name, watchErr))
        || (name in w.registry.watched && w.registry.watched[name] == w.configs[name].spec.gvk)
  {
  }

  const NOTEBOOKS := Gvk("kubeflow.org", "v1", "Notebook")
  const NEWER_NOTEBOOKS := Gvk("kubeflow.org", "v2", "Notebook")
  const NOTEBOOK_SPEC := TypeSpec(NOTEBOOKS, None, [], false)

  /** A worked config: put, and reconciled with everything in place. */
  const WORKING := [PutConfig("notebook", NOTEBOOK_SPEC), ReconcileType("notebook", true, false, false)]

  lemma HistorySnoc(moves: seq<Move>, m: Move)
    ensures History(moves + [m]) == After(History(moves), m, |moves| + 1)
  {
    assert (moves + [m])[..|moves|] == moves;
  }

  lemma WorkingWorks()
    ensures var w := History(WORKING);
      && "notebook" in w.configs && w.configs["notebook"].spec == NOTEBOOK_SPEC
      && "notebook" in w.registry.watched && w.registry.watched["notebook"] == NOTEBOOKS
      && InSync(w, "notebook")
  {
    var put := History([PutConfig("notebook", NOTEBOOK_SPEC)]);
    HistorySnoc([], PutConfig("notebook", NOTEBOOK_SPEC));
    assert [] + [PutConfig("notebook", NOTEBOOK_SPEC)] == [PutConfig("notebook", NOTEBOOK_SPEC)];
    HistorySnoc([PutConfig("notebook", NOTEBOOK_SPEC)], ReconcileType("notebook", true, false, false));
    assert WORKING == [PutConfig("notebook", NOTEBOOK_SPEC)] + [ReconcileType("notebook", true, false, false)];
    assert put.registry == EMPTY && put.configs["notebook"].spec == NOTEBOOK_SPEC;
    SyncIff(put, "notebook", true, false, 2);
  }

  /** The kind leaves the cluster: WatchActive goes False, and the name stays registered and served. */
  lemma StaysRegistered()
    ensures var w := History(WORKING + [ReconcileType("notebook", false, false, false)]);
      && "notebook" in w.configs && !IsTrue(w.configs["notebook"].conditions, WATCH_ACTIVE)
      && "notebook" in w.registry.watched && !InSync(w, "notebook")
  {
    WorkingWorks();
    HistorySnoc(WORKING, ReconcileType("notebook", false, false, false));
    StatusSays(History(WORKING), "notebook", false, false, 3);
    SyncIff(History(WORKING), "notebook", false, false, 3);
  }

  /** A newer kind is registered and the status write lost: WatchActive stays True for the older kind. */
  lemma ReportsOlderKind()
    ensures var newer := NOTEBOOK_SPEC.(gvk := NEWER_NOTEBOOKS);
      var w := History(WORKING + [PutConfig("notebook", newer)] + [ReconcileType("notebook", true, false, true)]);
      && "notebook" in w.configs && IsTrue(w.configs["notebook"].conditions, WATCH_ACTIVE)
      && w.configs["notebook"].observed == Some(NOTEBOOKS)
      && "notebook" in w.registry.watched && w.registry.watched["notebook"] == NEWER_NOTEBOOKS
  {
    var newer := NOTEBOOK_SPEC.(gvk := NEWER_NOTEBOOKS);
    WorkingWorks();
    assert "v2" != "v1" by {
      assert "v2"[1] != "v1"[1];
    }
    HistorySnoc(WORKING, PutConfig("notebook", newer));
    HistorySnoc(WORKING + [PutConfig("notebook", newer)], ReconcileType("notebook", true, false, true));
  }

  class WorkloadTypeReconciler {
    const propagation: PropagationReconciler
    var configs: map<string, TypeConfig>

    constructor (propagation: PropagationReconciler)
      ensures this.propagation == propagation && configs == map[]
    {
      this.propagation, this.configs := propagation, map[];
    }

    function Value(): World
      reads this, propagation
    {
      World(propagation.Value(), configs)
    }

    /** `readError`: the config could not be read, for another reason than being absent. */
    method Reconcile(name: string, readError: bool, crdFound: bool, watchErr: bool, updateErr: bool, now: nat)
      modifies this, propagation
      ensures Value() == if readError then old(Value())
        else After(old(Value()), ReconcileType(name, crdFound, watchErr, updateErr), now)
    {
      if readError {
        return;
      }
      if name !in configs {
        propagation.DeregisterGVK(name);
        return;
      }
      var wtc := configs[name];
      var status := new ConditionList(wtc.conditions, wtc.generation);
      status.SetConditionOnChange(CRD_AVAILABLE, crdFound, ReasonOf(crdFound, "CRDFound", "CRDNotFound"), now);
      if !crdFound {
        status.SetConditionOnChange(WATCH_ACTIVE, false, "CRDUnavailable", now);
      } else {
        var ok := propagation.RegisterGVK(name, wtc.spec.gvk, wtc.spec, watchErr);
        status.SetConditionOnChange(WATCH_ACTIVE, ok, ReasonOf(ok, "WatchRegistered", "WatchFailed"), now);
      }
      if !updateErr {
        configs := configs[name := wtc.(conditions := status.items, observed := Some(wtc.spec.gvk))];
      }
    }
  }
}
