/**
 What the pod webhook writes into the containers: resources, chosen per container by name,
 then index, then defaults, with a record of what was overridden; and device claims.
 */
module Injection {
  import opened Kube
  import opened Pods

  // ---- which resources a container gets ----

  function FirstByName(entries: seq<Entry>, name: string): Option<Requirements> {
    if entries == [] then None
    else if entries[0].name == Some(name) then Some(entries[0].resources)
    else FirstByName(entries[1..], name)
  }

  function FirstByIndex(entries: seq<Entry>, index: int): Option<Requirements> {
    if entries == [] then None
    else if entries[0].index == Some(index) then Some(entries[0].resources)
    else FirstByIndex(entries[1..], index)
  }

  function Resolve(entries: seq<Entry>, defaults: Option<Requirements>, name: string,
      index: int): Option<Requirements> {
    if FirstByName(entries, name).Some? then FirstByName(entries, name)
    else if FirstByIndex(entries, index).Some? then FirstByIndex(entries, index)
    else defaults
  }

  /** The old maps overridden by the profile's, for both kinds; nothing else moves. */
  function Overridden(c: Container, r: Option<Requirements>): Container {
    match r
    case None => c
    case Some(q) => c.(requests := c.requests + q.requests, limits := c.limits + q.limits)
  }

  function Injected(spec: ProfileSpec, cs: seq<Container>): (r: seq<Container>)
    ensures |r| == |cs|
    ensures forall i :: 0 <= i < |cs| ==>
      r[i] == Overridden(cs[i], Resolve(spec.containers, spec.defaults, cs[i].name, i))
  {
    seq(|cs|, i requires 0 <= i < |cs| => Overridden(cs[i], Resolve(spec.containers, spec.defaults, cs[i].name, i)))
  }

  method ResolveResources(spec: ProfileSpec, name: string, index: int) returns (r: Option<Requirements>)
    ensures r == Resolve(spec.containers, spec.defaults, name, index)
  {
    for i := 0 to |spec.containers|
      invariant FirstByName(spec.containers, name) == FirstByName(spec.containers[i..], name)
    {
      if spec.containers[i].name == Some(name) {
        return Some(spec.containers[i].resources);
      }
    }
    for i := 0 to |spec.containers|
      invariant FirstByIndex(spec.containers, index) == FirstByIndex(spec.containers[i..], index)
    {
      if spec.containers[i].index == Some(index) {
        return Some(spec.containers[i].resources);
      }
    }
    r := spec.defaults;
  }

  // ---- the record of overrides ----

  datatype ResourceKind = Requests | Limits

  datatype Override = Override(container: nat, kind: ResourceKind, key: string)

  function OfKind(r: Requirements, kind: ResourceKind): map<string, int> {
    if kind == Requests then r.requests else r.limits
  }

  function Own(c: Container, kind: ResourceKind): map<string, int> {
    if kind == Requests then c.requests else c.limits
  }

  /** The container already had a value for a key the profile sets. */
  predicate Collides(spec: ProfileSpec, cs: seq<Container>, o: Override) {
    && o.container < |cs|
    && var r := Resolve(spec.containers, spec.defaults, cs[o.container].name, o.container);
       r.Some? && o.key in OfKind(r.value, o.kind) && o.key in Own(cs[o.container], o.kind)
  }

  /** Containers in order, requests before limits; keys of one map come in any order. */
  predicate Before(a: Override, b: Override) {
    a.container < b.container || (a.container == b.container && (a.kind == b.kind || a.kind == Requests))
  }

  /** Exactly the colliding triples, each once, in the order the loops meet them. */
  ghost predicate IsOverrideList(spec: ProfileSpec, cs: seq<Container>, os: seq<Override>) {
    && (forall o :: o in os <==> Collides(spec, cs, o))
    && Ordered(os)
  }

  ghost predicate Ordered(os: seq<Override>) {
    forall i, j :: 0 <= i < j < |os| ==> os[i] != os[j] && Before(os[i], os[j])
  }

  lemma OrderedConcat(a: seq<Override>, b: seq<Override>)
    requires Ordered(a) && Ordered(b)
    requires forall x, y :: x in a && y in b ==> x != y && Before(x, y)
    ensures Ordered(a + b)
  {
    forall i, j | 0 <= i < j < |a + b| ensures (a + b)[i] != (a + b)[j] && Before((a + b)[i], (a + b)[j]) {
      assert i < |a| ==> (a + b)[i] in a;
      assert j >= |a| ==> (a + b)[j] in b;
    }
  }

  /** The loop's map: `own`, overridden by `from` at the keys not to do any more. */
  ghost predicate MergedBut(todo: set<string>, merged: map<string, int>,
                            own: map<string, int>, from: map<string, int>)
  {
    && (forall k :: k in merged <==> k in own || (k in from && k !in todo))
    && (forall k :: k in from && k !in todo ==> merged[k] == from[k])
    && (forall k :: k in own && (k !in from || k in todo) ==> merged[k] == own[k])
  }

  lemma MergedMore(todo: set<string>, k: string, merged: map<string, int>,
                   own: map<string, int>, from: map<string, int>)
    requires MergedBut(todo, merged, own, from) && k in todo && k in from
    ensures MergedBut(todo - {k}, merged[k := from[k]], own, from)
    ensures k in merged <==> k in own
  {
  }

  lemma MergedAll(merged: map<string, int>, own: map<string, int>, from: map<string, int>)
    requires MergedBut({}, merged, own, from)
    ensures merged == own + from
  {
    assert forall k :: k in merged <==> k in own + from;
  }

  /** The loop's record: a collision for every key of `from` done that was in `own`, each once. */
  ghost predicate NotedBut(todo: set<string>, os: seq<Override>, container: nat, kind: ResourceKind,
                           own: map<string, int>, from: map<string, int>)
  {
    && (forall o :: o in os <==>
          o.container == container && o.kind == kind && o.key in from && o.key !in todo && o.key in own)
    && forall i, j :: 0 <= i < j < |os| ==> os[i] != os[j]
  }

  lemma NotedMore(todo: set<string>, k: string, os: seq<Override>, container: nat, kind: ResourceKind,
                  own: map<string, int>, from: map<string, int>)
    requires NotedBut(todo, os, container, kind, own, from) && k in todo && k in from
    ensures var noted := if k in own then os + [Override(container, kind, k)] else os;
      NotedBut(todo - {k}, noted, container, kind, own, from)
  {
    var o := Override(container, kind, k);
    assert o !in os;
    assert forall x :: x in os + [o] <==> x in os || x == o;
  }

  /** One of the two inner loops of injectResources: a Go map is ranged over in any order. */
  method MergeInto(container: nat, kind: ResourceKind, own: map<string, int>, from: map<string, int>)
    returns (merged: map<string, int>, overrides: seq<Override>)
    ensures merged == own + from
    ensures forall o :: o in overrides <==> o.container == container && o.kind == kind && o.key in from && o.key in own
    ensures forall i, j :: 0 <= i < j < |overrides| ==> overrides[i] != overrides[j]
  {
    merged, overrides := own, [];
    var todo := from.Keys;
    while todo != {}
      invariant todo <= from.Keys
      invariant MergedBut(todo, merged, own, from) && NotedBut(todo, overrides, container, kind, own, from)
      decreases |todo|
    {
      var k :| k in todo;
      MergedMore(todo, k, merged, own, from);
      NotedMore(todo, k, overrides, container, kind, own, from);
      if k in merged {
        overrides := overrides + [Override(container, kind, k)];
      }
      merged := merged[k := from[k]];
      todo := todo - {k};
    }
    MergedAll(merged, own, from);
  }

  // ---- device claims ----

  /** The index of the first container of a name, counted from `from`. */
  function FirstNamed(cs: seq<Container>, name: string, from: nat): Option<int> {
    if cs == [] then None
    else if cs[0].name == name then Some(from)
    else FirstNamed(cs[1..], name, from + 1)
  }

  /**
   The one container all device claims go to: decided by the first entry that names or
   indexes a container, and container 0 when there is none or its name is not in the pod.
   */
  function Target(entries: seq<Entry>, cs: seq<Container>): int {
    if entries == [] then 0
    else if entries[0].index.Some? then entries[0].index.value
    else if entries[0].name.Some? then
      var at := FirstNamed(cs, entries[0].name.value, 0);
      if at.Some? then at.value else 0
    else Target(entries[1..], cs)
  }

  function Names(claims: seq<DeviceClaim>): (r: seq<string>)
    ensures |r| == |claims|
    ensures forall i :: 0 <= i < |claims| ==> r[i] == claims[i].name
  {
    seq(|claims|, i requires 0 <= i < |claims| => claims[i].name)
  }

  function PodClaims(profile: string, claims: seq<DeviceClaim>): (r: seq<PodClaim>)
    ensures |r| == |claims|
    ensures forall i :: 0 <= i < |claims| ==> r[i] == PodClaim(claims[i].name, Some(RctName(profile, claims[i].name)))
  {
    seq(|claims|, i requires 0 <= i < |claims| => PodClaim(claims[i].name, Some(RctName(profile, claims[i].name))))
  }

  function WithReferences(cs: seq<Container>, target: int, names: seq<string>): (r: seq<Container>)
    ensures |r| == |cs|
  {
    if 0 <= target < |cs| then cs[target := cs[target].(claims := cs[target].claims + names)] else cs
  }

  lemma ReferencesGrow(cs: seq<Container>, target: int, names: seq<string>, name: string)
    ensures WithReferences(cs, target, []) == cs
    ensures WithReferences(WithReferences(cs, target, names), target, [name])
      == WithReferences(cs, target, names + [name])
  {
    if 0 <= target < |cs| {
      assert cs[target].claims + [] == cs[target].claims;
      assert cs[target].claims + names + [name] == cs[target].claims + (names + [name]);
    }
  }

  // ---- the pod being admitted ----

  method InjectResources(pod: Pod, spec: ProfileSpec) returns (overrides: seq<Override>)
    modifies pod`containers
    ensures pod.containers == Injected(spec, old(pod.containers))
    ensures IsOverrideList(spec, old(pod.containers), overrides)
  {
    overrides := [];
    for i := 0 to |pod.containers|
      invariant |pod.containers| == |old(pod.containers)|
      invariant forall j :: 0 <= j < i ==> pod.containers[j] == Injected(spec, old(pod.containers))[j]
      invariant forall j :: i <= j < |pod.containers| ==> pod.containers[j] == old(pod.containers)[j]
      invariant forall o :: o in overrides <==> o.container < i && Collides(spec, old(pod.containers), o)
      invariant Ordered(overrides)
    {
      var resources := ResolveResources(spec, pod.containers[i].name, i);
      if resources.Some? {
        var requests, fromRequests := MergeInto(i, Requests, pod.containers[i].requests, resources.value.requests);
        var limits, fromLimits := MergeInto(i, Limits, pod.containers[i].limits, resources.value.limits);
        pod.containers := pod.containers[i := pod.containers[i].(requests := requests, limits := limits)];
        OrderedConcat(overrides, fromRequests);
        overrides := overrides + fromRequests;
        OrderedConcat(overrides, fromLimits);
        overrides := overrides + fromLimits;
      }
    }
  }

  /** A negative index in the deciding entry would fault; the caller rules it out. */
  method InjectDRAClaims(pod: Pod, profile: string, spec: ProfileSpec)
    requires spec.deviceClaims != [] ==> Target(spec.containers, pod.containers) >= 0
    modifies pod`containers, pod`resourceClaims
    ensures pod.resourceClaims == old(pod.resourceClaims) + PodClaims(profile, spec.deviceClaims)
    ensures var target := Target(spec.containers, old(pod.containers));
      pod.containers == WithReferences(old(pod.containers), target, Names(spec.deviceClaims))
  {
    ghost var target := Target(spec.containers, pod.containers);
    ReferencesGrow(pod.containers, target, [], "");
    for n := 0 to |spec.deviceClaims|
      invariant pod.resourceClaims == old(pod.resourceClaims) + PodClaims(profile, spec.deviceClaims[..n])
      invariant pod.containers == WithReferences(old(pod.containers), target, Names(spec.deviceClaims[..n]))
    {
      var claim := spec.deviceClaims[n];
      pod.resourceClaims := pod.resourceClaims + [PodClaim(claim.name, Some(RctName(profile, claim.name)))];
      assert PodClaims(profile, spec.deviceClaims[..n + 1])
          == PodClaims(profile, spec.deviceClaims[..n]) + [PodClaim(claim.name, Some(RctName(profile, claim.name)))];
      assert Names(spec.deviceClaims[..n + 1]) == Names(spec.deviceClaims[..n]) + [claim.name];
      SameNamesSameTarget(spec.containers, old(pod.containers), pod.containers);
      ReferencesGrow(old(pod.containers), target, Names(spec.deviceClaims[..n]), claim.name);

      var targetIdx := 0;
      for e := 0 to |spec.containers|
        invariant targetIdx == 0
        invariant Target(spec.containers, pod.containers) == Target(spec.containers[e..], pod.containers)
      {
        var entry := spec.containers[e];
        if entry.index.Some? {
          targetIdx := entry.index.value;
          break;
        }
        if entry.name.Some? {
          for i := 0 to |pod.containers|
            invariant targetIdx == 0
            invariant FirstNamed(pod.containers, entry.name.value, 0)
              == FirstNamed(pod.containers[i..], entry.name.value, i)
          {
            if pod.containers[i].name == entry.name.value {
              targetIdx := i;
              break;
            }
          }
          break;
        }
      }
      assert targetIdx == target;

      if targetIdx < |pod.containers| {
        var target := pod.containers[targetIdx];
        pod.containers := pod.containers[targetIdx := target.(claims := target.claims + [claim.name])];
      }
    }
    assert spec.deviceClaims[..|spec.deviceClaims|] == spec.deviceClaims;
  }

  lemma {:induction false} SameNamesFirst(a: seq<Container>, b: seq<Container>, name: string, from: nat)
    requires |a| == |b| && forall i :: 0 <= i < |a| ==> a[i].name == b[i].name
    ensures FirstNamed(a, name, from) == FirstNamed(b, name, from)
  {
    if a != [] {
      SameNamesFirst(a[1..], b[1..], name, from + 1);
    }
  }

  /** The target depends on the containers' names only. */
  lemma {:induction false} SameNamesSameTarget(entries: seq<Entry>, a: seq<Container>, b: seq<Container>)
    requires |a| == |b| && forall i :: 0 <= i < |a| ==> a[i].name == b[i].name
    ensures Target(entries, a) == Target(entries, b)
  {
    if entries != [] {
      if entries[0].name.Some? {
        SameNamesFirst(a, b, entries[0].name.value, 0);
      }
      SameNamesSameTarget(entries[1..], a, b);
    }
  }

  // ---- properties of resource injection ----

  /** Injecting again changes no container: the profile's values are already there. */
  lemma InjectTwice(spec: ProfileSpec, cs: seq<Container>)
    ensures Injected(spec, Injected(spec, cs)) == Injected(spec, cs)
  {
    var once := Injected(spec, cs);
    forall i | 0 <= i < |cs| ensures Injected(spec, once)[i] == once[i] {
      var r := Resolve(spec.containers, spec.defaults, cs[i].name, i);
      if r.Some? {
        assert (cs[i].requests + r.value.requests) + r.value.requests == cs[i].requests + r.value.requests;
        assert (cs[i].limits + r.value.limits) + r.value.limits == cs[i].limits + r.value.limits;
      }
    }
  }

  /** Two override lists of one injection hold the same triples: only the order inside one map is free. */
  lemma OverridesUnique(spec: ProfileSpec, cs: seq<Container>, a: seq<Override>, b: seq<Override>)
    requires IsOverrideList(spec, cs, a) && IsOverrideList(spec, cs, b)
    ensures |a| == |b| && multiset(a) == multiset(b)
  {
    OnceEach(a);
    OnceEach(b);
    assert forall o :: multiset(a)[o] == multiset(b)[o] by {
      forall o ensures multiset(a)[o] == multiset(b)[o] {
        assert o in a <==> o in b;
      }
    }
    assert multiset(a) == multiset(b);
    assert |multiset(a)| == |a| && |multiset(b)| == |b|;
  }

  lemma {:induction false} OnceEach(os: seq<Override>)
    requires forall i, j :: 0 <= i < j < |os| ==> os[i] != os[j]
    ensures forall o :: multiset(os)[o] == if o in os then 1 else 0
  {
    if os != [] {
      OnceEach(os[1..]);
      assert os == [os[0]] + os[1..];
    }
  }

  // ---- which entry is chosen ----

  predicate NamesFirst(entries: seq<Entry>, j: nat, name: string) {
    j < |entries| && entries[j].name == Some(name) && forall k :: 0 <= k < j ==> entries[k].name != Some(name)
  }

  predicate IndexesFirst(entries: seq<Entry>, j: nat, index: int) {
    j < |entries| && entries[j].index == Some(index) && forall k :: 0 <= k < j ==> entries[k].index != Some(index)
  }

  predicate NamesNone(entries: seq<Entry>, name: string) {
    forall j :: 0 <= j < |entries| ==> entries[j].name != Some(name)
  }

  predicate IndexesNone(entries: seq<Entry>, index: int) {
    forall j :: 0 <= j < |entries| ==> entries[j].index != Some(index)
  }

  /**
   The requirements of a container: the first entry of its name; without one the first of its index;
   without either the defaults.
   */
  ghost predicate Chosen(entries: seq<Entry>, defaults: Option<Requirements>, name: string, index: int,
                         r: Option<Requirements>)
  {
    || (exists j: nat :: NamesFirst(entries, j, name) && r == Some(entries[j].resources))
    || (NamesNone(entries, name)
        && exists j: nat :: IndexesFirst(entries, j, index) && r == Some(entries[j].resources))
    || (NamesNone(entries, name) && IndexesNone(entries, index) && r == defaults)
  }

  lemma {:induction false} FirstByNameIs(entries: seq<Entry>, name: string, j: nat)
    requires NamesFirst(entries, j, name)
    ensures FirstByName(entries, name) == Some(entries[j].resources)
  {
    if j > 0 {
      FirstByNameIs(entries[1..], name, j - 1);
    }
  }

  lemma {:induction false} FirstByIndexIs(entries: seq<Entry>, index: int, j: nat)
    requires IndexesFirst(entries, j, index)
    ensures FirstByIndex(entries, index) == Some(entries[j].resources)
  {
    if j > 0 {
      FirstByIndexIs(entries[1..], index, j - 1);
    }
  }

  lemma {:induction false} NoneChosen(entries: seq<Entry>, name: string, index: int)
    ensures NamesNone(entries, name) ==> FirstByName(entries, name) == None
    ensures IndexesNone(entries, index) ==> FirstByIndex(entries, index) == None
  {
    if entries != [] {
      NoneChosen(entries[1..], name, index);
    }
  }

  lemma {:induction false} FirstOfName(entries: seq<Entry>, name: string) returns (j: nat)
    requires !NamesNone(entries, name)
    ensures NamesFirst(entries, j, name)
  {
    if entries[0].name == Some(name) {
      j := 0;
    } else {
      var i :| 0 <= i < |entries| && entries[i].name == Some(name);
      assert entries[1..][i - 1].name == Some(name);
      j := FirstOfName(entries[1..], name);
      j := j + 1;
    }
  }

  lemma {:induction false} FirstOfIndex(entries: seq<Entry>, index: int) returns (j: nat)
    requires !IndexesNone(entries, index)
    ensures IndexesFirst(entries, j, index)
  {
    if entries[0].index == Some(index) {
      j := 0;
    } else {
      var i :| 0 <= i < |entries| && entries[i].index == Some(index);
      assert entries[1..][i - 1].index == Some(index);
      j := FirstOfIndex(entries[1..], index);
      j := j + 1;
    }
  }

  /** The two searches find what is chosen, and nothing else is. */
  lemma ResolveChooses(entries: seq<Entry>, defaults: Option<Requirements>, name: string, index: int)
    ensures forall r :: Chosen(entries, defaults, name, index, r) <==> r == Resolve(entries, defaults, name, index)
  {
    NoneChosen(entries, name, index);
    forall j: nat | NamesFirst(entries, j, name) ensures FirstByName(entries, name) == Some(entries[j].resources) {
      FirstByNameIs(entries, name, j);
    }
    forall j: nat | IndexesFirst(entries, j, index) ensures FirstByIndex(entries, index) == Some(entries[j].resources) {
      FirstByIndexIs(entries, index, j);
    }
    if !NamesNone(entries, name) {
      var j := FirstOfName(entries, name);
    } else if !IndexesNone(entries, index) {
      var j := FirstOfIndex(entries, index);
    }
  }

  /** What injection makes of a container: its maps overridden by the chosen ones, nothing else moved. */
  predicate InjectedWith(own: Container, r: Option<Requirements>, after: Container) {
    && after.requests == own.requests + (if r.Some? then r.value.requests else map[])
    && after.limits == own.limits + (if r.Some? then r.value.limits else map[])
    && after.name == own.name && after.other == own.other && after.claims == own.claims
  }

  lemma InjectedMeans(spec: ProfileSpec, cs: seq<Container>, i: nat)
    requires i < |cs|
    ensures exists r :: Chosen(spec.containers, spec.defaults, cs[i].name, i, r)
              && InjectedWith(cs[i], r, Injected(spec, cs)[i])
  {
    ResolveChooses(spec.containers, spec.defaults, cs[i].name, i);
    var r := Resolve(spec.containers, spec.defaults, cs[i].name, i);
    assert cs[i].requests + map[] == cs[i].requests && cs[i].limits + map[] == cs[i].limits;
    assert Chosen(spec.containers, spec.defaults, cs[i].name, i, r) && InjectedWith(cs[i], r, Injected(spec, cs)[i]);
  }

  /** An override is recorded for just what the container had and the chosen requirements replace. */
  lemma CollidesMeans(spec: ProfileSpec, cs: seq<Container>, o: Override)
    ensures Collides(spec, cs, o) <==>
      && o.container < |cs|
      && exists r: Requirements ::
           && Chosen(spec.containers, spec.defaults, cs[o.container].name, o.container, Some(r))
           && (o.kind == Requests ==> o.key in r.requests && o.key in cs[o.container].requests)
           && (o.kind == Limits ==> o.key in r.limits && o.key in cs[o.container].limits)
  {
    if o.container < |cs| {
      ResolveChooses(spec.containers, spec.defaults, cs[o.container].name, o.container);
    }
  }

  predicate PointsFirst(entries: seq<Entry>, j: nat) {
    j < |entries| && Points(entries[j]) && forall k :: 0 <= k < j ==> !Points(entries[k])
  }

  predicate CalledFirst(cs: seq<Container>, i: nat, name: string) {
    i < |cs| && cs[i].name == name && forall k :: 0 <= k < i ==> cs[k].name != name
  }

  lemma {:induction false} FirstNamedIs(cs: seq<Container>, name: string, from: nat, i: nat)
    requires CalledFirst(cs, i, name)
    ensures FirstNamed(cs, name, from) == Some(from + i)
  {
    if i > 0 {
      FirstNamedIs(cs[1..], name, from + 1, i - 1);
    }
  }

  lemma {:induction false} NoneNamed(cs: seq<Container>, name: string, from: nat)
    requires forall i :: 0 <= i < |cs| ==> cs[i].name != name
    ensures FirstNamed(cs, name, from) == None
  {
    if cs != [] {
      NoneNamed(cs[1..], name, from + 1);
    }
  }

  /**
   The container the device claims go to: what the first entry that points indexes; or the first
   container it names, and container 0 when there is none.
   */
  lemma {:induction false} TargetMeans(entries: seq<Entry>, cs: seq<Container>, j: nat)
    requires PointsFirst(entries, j)
    ensures entries[j].index.Some? ==> Target(entries, cs) == entries[j].index.value
    ensures entries[j].index.None? ==>
      && (forall i: nat :: CalledFirst(cs, i, entries[j].name.value) ==> Target(entries, cs) == i)
      && ((forall i :: 0 <= i < |cs| ==> cs[i].name != entries[j].name.value) ==> Target(entries, cs) == 0)
  {
    if j > 0 {
      TargetMeans(entries[1..], cs, j - 1);
    } else if entries[0].index.None? {
      var name := entries[0].name.value;
      forall i: nat | CalledFirst(cs, i, name) ensures Target(entries, cs) == i {
        FirstNamedIs(cs, name, 0, i);
      }
      if forall i :: 0 <= i < |cs| ==> cs[i].name != name {
        NoneNamed(cs, name, 0);
      }
    }
  }

  /** Without an entry that points they go to the first container. */
  lemma {:induction false} TargetDefault(entries: seq<Entry>, cs: seq<Container>)
    requires forall j :: 0 <= j < |entries| ==> !Points(entries[j])
    ensures Target(entries, cs) == 0
  {
    if entries != [] {
      TargetDefault(entries[1..], cs);
    }
  }

  // ---- the order of the entries ----

  /** What makes the two first-match searches order-blind. */
  ghost predicate SameNameSameResources(entries: seq<Entry>) {
    forall a, b :: a in entries && b in entries && a.name.Some? && a.name == b.name ==> a.resources == b.resources
  }

  ghost predicate SameIndexSameResources(entries: seq<Entry>) {
    forall a, b :: a in entries && b in entries && a.index.Some? && a.index == b.index ==> a.resources == b.resources
  }

  lemma {:induction false} FirstByNameMember(entries: seq<Entry>, name: string)
    ensures FirstByName(entries, name).Some? <==> exists e :: e in entries && e.name == Some(name)
    ensures FirstByName(entries, name).Some? ==>
      exists e :: e in entries && e.name == Some(name) && e.resources == FirstByName(entries, name).value
  {
    if entries != [] {
      FirstByNameMember(entries[1..], name);
      assert entries[0] in entries;
      assert forall e :: e in entries <==> e == entries[0] || e in entries[1..];
    }
  }

  lemma {:induction false} FirstByIndexMember(entries: seq<Entry>, index: int)
    ensures FirstByIndex(entries, index).Some? <==> exists e :: e in entries && e.index == Some(index)
    ensures FirstByIndex(entries, index).Some? ==>
      exists e :: e in entries && e.index == Some(index) && e.resources == FirstByIndex(entries, index).value
  {
    if entries != [] {
      FirstByIndexMember(entries[1..], index);
      assert entries[0] in entries;
      assert forall e :: e in entries <==> e == entries[0] || e in entries[1..];
    }
  }

  lemma ResolvePermuted(a: seq<Entry>, b: seq<Entry>, defaults: Option<Requirements>, name: string, index: int)
    requires multiset(a) == multiset(b)
    requires SameNameSameResources(a) && SameIndexSameResources(a)
    ensures Resolve(a, defaults, name, index) == Resolve(b, defaults, name, index)
  {
    FirstByNameMember(a, name);
    FirstByNameMember(b, name);
    FirstByIndexMember(a, index);
    FirstByIndexMember(b, index);
    assert forall e :: e in a <==> e in multiset(a);
    assert forall e :: e in b <==> e in multiset(b);
  }

  /** Entry j moved to the front. */
  function ToFront(entries: seq<Entry>, j: nat): (r: seq<Entry>)
    requires j < |entries|
    ensures r != [] && r[0] == entries[j] && multiset(r) == multiset(entries)
  {
    assert entries == entries[..j] + [entries[j]] + entries[j + 1..];
    [entries[j]] + entries[..j] + entries[j + 1..]
  }

  /** A name no entry uses: longer than every one of them. */
  lemma {:induction false} FreshName(entries: seq<Entry>) returns (name: string)
    ensures forall e :: e in entries && e.name.Some? ==> |e.name.value| < |name|
  {
    if entries == [] {
      name := "";
    } else {
      var rest := FreshName(entries[1..]);
      name := rest + (if entries[0].name.Some? then entries[0].name.value else "") + "x";
      assert forall e :: e in entries <==> e == entries[0] || e in entries[1..];
    }
  }

  /** Resolution is the same for every order of the entries, for every container. */
  ghost predicate OrderBlind(entries: seq<Entry>) {
    forall b, defaults, name, index | multiset(b) == multiset(entries) ::
      Resolve(entries, defaults, name, index) == Resolve(b, defaults, name, index)
  }

  /**
   Exactly when the order of the entries does not matter: equal names carry equal resources
   and equal indexes carry equal resources; pairwise distinct names and indexes are a case.
   */
  lemma OrderBlindIff(entries: seq<Entry>)
    ensures OrderBlind(entries) <==> SameNameSameResources(entries) && SameIndexSameResources(entries)
  {
    if SameNameSameResources(entries) && SameIndexSameResources(entries) {
      forall b, defaults, name, index | multiset(b) == multiset(entries)
        ensures Resolve(entries, defaults, name, index) == Resolve(b, defaults, name, index)
      {
        ResolvePermuted(entries, b, defaults, name, index);
      }
    }
    if OrderBlind(entries) {
      forall a, b | a in entries && b in entries && a.name.Some? && a.name == b.name
        ensures a.resources == b.resources
      {
        var i :| 0 <= i < |entries| && entries[i] == a;
        var j :| 0 <= j < |entries| && entries[j] == b;
        assert Resolve(ToFront(entries, i), None, a.name.value, 0) == Resolve(entries, None, a.name.value, 0);
        assert Resolve(ToFront(entries, j), None, a.name.value, 0) == Resolve(entries, None, a.name.value, 0);
      }
      forall a, b | a in entries && b in entries && a.index.Some? && a.index == b.index
        ensures a.resources == b.resources
      {
        var i :| 0 <= i < |entries| && entries[i] == a;
        var j :| 0 <= j < |entries| && entries[j] == b;
        var name := FreshName(entries);
        MovedByIndex(entries, i, name);
        MovedByIndex(entries, j, name);
        assert Resolve(ToFront(entries, i), None, name, a.index.value) == Resolve(entries, None, name, a.index.value);
        assert Resolve(ToFront(entries, j), None, name, a.index.value) == Resolve(entries, None, name, a.index.value);
      }
    }
  }

  lemma MovedByIndex(entries: seq<Entry>, i: nat, name: string)
    requires i < |entries| && entries[i].index.Some?
    requires forall e :: e in entries && e.name.Some? ==> |e.name.value| < |name|
    ensures Resolve(ToFront(entries, i), None, name, entries[i].index.value) == Some(entries[i].resources)
  {
    var r := ToFront(entries, i);
    FirstByNameMember(r, name);
    assert forall e :: e in r ==> e in multiset(r);
    assert forall e :: e in multiset(entries) ==> e in entries;
  }

  /** Whole injections agree, then, under any reordering of the profile's containers[] entries. */
  lemma InjectedPermuted(spec: ProfileSpec, reordered: seq<Entry>, cs: seq<Container>)
    requires multiset(reordered) == multiset(spec.containers)
    requires SameNameSameResources(spec.containers) && SameIndexSameResources(spec.containers)
    ensures Injected(spec.(containers := reordered), cs) == Injected(spec, cs)
  {
    forall i | 0 <= i < |cs| ensures Injected(spec.(containers := reordered), cs)[i] == Injected(spec, cs)[i] {
      ResolvePermuted(spec.containers, reordered, spec.defaults, cs[i].name, i);
    }
  }

  // ---- the order of the entries and the device claims ----

  /** What the references do to the pod: nothing to return when a negative index faults. */
  function Referred(entries: seq<Entry>, cs: seq<Container>, names: seq<string>): Option<seq<Container>> {
    if Target(entries, cs) < 0 then None else Some(WithReferences(cs, Target(entries, cs), names))
  }

  /** The entry takes part in choosing the container of the device claims. */
  predicate Points(e: Entry) {
    e.index.Some? || e.name.Some?
  }

  /** Where a target lands: a fault, a container of the pod, or past all of them. */
  function Landing(target: int, cs: seq<Container>): int {
    if target < 0 then -1 else if target < |cs| then target else |cs|
  }

  /** Every entry that points, lands in the same place. */
  ghost predicate SamePlace(entries: seq<Entry>, cs: seq<Container>) {
    forall e, f :: e in entries && f in entries && Points(e) && Points(f) ==>
      Landing(Target([e], cs), cs) == Landing(Target([f], cs), cs)
  }

  /** The target is that of the first entry that points. */
  lemma {:induction false} TargetPointed(entries: seq<Entry>, cs: seq<Container>)
    ensures (exists e :: e in entries && Points(e)) ==>
      exists e :: e in entries && Points(e) && Target(entries, cs) == Target([e], cs)
    ensures (forall e :: e in entries ==> !Points(e)) ==> Target(entries, cs) == 0
    ensures entries != [] && Points(entries[0]) ==> Target(entries, cs) == Target([entries[0]], cs)
  {
    if entries != [] {
      TargetPointed(entries[1..], cs);
      assert forall e :: e in entries <==> e == entries[0] || e in entries[1..];
      if Points(entries[0]) {
        assert Target(entries, cs) == Target([entries[0]], cs);
      } else {
        assert Target(entries, cs) == Target(entries[1..], cs);
        assert !Points(entries[0]);
      }
    }
  }

  /** With names to add, the outcomes are the same exactly when the targets land in the same place. */
  lemma ReferredIff(a: seq<Entry>, b: seq<Entry>, cs: seq<Container>, names: seq<string>)
    requires names != []
    ensures Referred(a, cs, names) == Referred(b, cs, names)
      <==> Landing(Target(a, cs), cs) == Landing(Target(b, cs), cs)
  {
    LandingShows(Target(a, cs), Target(b, cs), cs, names);
    LandingShows(Target(b, cs), Target(a, cs), cs, names);
  }

  lemma LandingShows(x: int, y: int, cs: seq<Container>, names: seq<string>)
    requires names != []
    ensures 0 <= x < |cs| && x != y ==> WithReferences(cs, x, names) != WithReferences(cs, y, names)
  {
    if 0 <= x < |cs| && x != y {
      assert |cs[x].claims + names| > |cs[x].claims|;
      assert WithReferences(cs, x, names)[x].claims != WithReferences(cs, y, names)[x].claims;
    }
  }

  ghost predicate ReferencesOrderBlind(entries: seq<Entry>, cs: seq<Container>, names: seq<string>) {
    forall b | multiset(b) == multiset(entries) :: Referred(b, cs, names) == Referred(entries, cs, names)
  }

  /**
   With device claims to refer to, the containers end the same for every order of the entries exactly
   when all entries that name or index a container land in the same place of this pod.
   */
  lemma TargetOrderBlindIff(entries: seq<Entry>, cs: seq<Container>, names: seq<string>)
    requires names != []
    ensures ReferencesOrderBlind(entries, cs, names) <==> SamePlace(entries, cs)
  {
    TargetPointed(entries, cs);
    if SamePlace(entries, cs) {
      forall b | multiset(b) == multiset(entries) ensures Referred(b, cs, names) == Referred(entries, cs, names) {
        TargetPointed(b, cs);
        assert forall e :: e in b <==> e in multiset(b);
        assert forall e :: e in entries <==> e in multiset(entries);
        ReferredIff(b, entries, cs, names);
      }
    }
    if ReferencesOrderBlind(entries, cs, names) {
      forall e, f | e in entries && f in entries && Points(e) && Points(f)
        ensures Landing(Target([e], cs), cs) == Landing(Target([f], cs), cs)
      {
        PointedFirst(entries, cs, names, e);
        PointedFirst(entries, cs, names, f);
      }
    }
  }

  lemma PointedFirst(entries: seq<Entry>, cs: seq<Container>, names: seq<string>, e: Entry)
    requires ReferencesOrderBlind(entries, cs, names) && names != [] && e in entries && Points(e)
    ensures Landing(Target([e], cs), cs) == Landing(Target(entries, cs), cs)
  {
    var i :| 0 <= i < |entries| && entries[i] == e;
    var b := ToFront(entries, i);
    TargetPointed(b, cs);
    assert Referred(b, cs, names) == Referred(entries, cs, names);
    ReferredIff(b, entries, cs, names);
  }

  /** With distinct indexes, the order of the entries decides which of two containers gets the devices. */
  lemma ClaimTargetFollowsOrder()
    ensures exists a: seq<Entry>, b: seq<Entry>, cs: seq<Container> ::
      && multiset(a) == multiset(b) && SameNameSameResources(a) && SameIndexSameResources(a)
      && WithReferences(cs, Target(a, cs), ["gpu"]) != WithReferences(cs, Target(b, cs), ["gpu"])
  {
    var r := Requirements(map[], map[]);
    var x, y := Entry(None, Some(0), r), Entry(None, Some(1), r);
    var a, b := [x, y], [y, x];
    var cs := [Container("trainer", map[], map[], [], ""), Container("sidecar", map[], map[], [], "")];
    assert multiset(a) == multiset(b);
    assert Target(a, cs) == 0 && Target(b, cs) == 1;
    assert WithReferences(cs, 0, ["gpu"])[1].claims == [];
    assert WithReferences(cs, 1, ["gpu"])[1].claims == ["gpu"];
    assert WithReferences(cs, Target(a, cs), ["gpu"]) != WithReferences(cs, Target(b, cs), ["gpu"]);
  }
}
