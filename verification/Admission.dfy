/** The pod webhook's decision and the pod it returns. */
module Admission {
  import opened Kube
  import opened Pods
  import opened Injection
  import opened Profiles
  import Conditions
  import Gates
  import Placement

  datatype Reason = NotReconciled | ClaimsConflict | SelectorConflict | NotReady

  /**
   Errored: the profile could not be read. Faulted: a negative container index, which the
   source would index with. Unmanaged: let through as submitted.
   */
  datatype Response =
    | Unmanaged
    | Errored
    | Denied(reason: Reason)
    | Faulted
    | Admitted(pod: PodObj)

  predicate KueueManaged(pod: PodObj) {
    KUEUE_QUEUE_LABEL in pod.labels || KUEUE_GATE in pod.gates
  }

  /** WTO has a say in this pod: it names a profile and Kueue has not taken it. */
  predicate Managed(pod: PodObj) {
    !KueueManaged(pod) && PROFILE_ANNOTATION in pod.annotations
  }

  /** checkBlockingConflicts. */
  function Blocking(pod: PodObj, spec: ProfileSpec): Option<Reason> {
    if pod.resourceClaims != [] && spec.deviceClaims != [] then Some(ClaimsConflict)
    else if NodeOf(spec.placement).Some?
      && Placement.SelectorConflict(pod.nodeSelector, NodeOf(spec.placement).value.nodeSelector)
    then Some(SelectorConflict)
    else None
  }

  function Digit(n: nat): string
    requires n < 10
  {
    ["0123456789"[n]]
  }

  function Decimal(n: int): string
    decreases if n < 0 then 1 - n else n
  {
    if n < 0 then "-" + Decimal(-n)
    else if n < 10 then Digit(n)
    else Decimal(n / 10) + Digit(n % 10)
  }

  function FieldPath(o: Override): string {
    "containers[" + Decimal(o.container) + "].resources." + (if o.kind == Requests then "requests" else "limits")
      + "." + o.key
  }

  function Quoted(os: seq<Override>): string {
    if os == [] then ""
    else if |os| == 1 then "\"" + FieldPath(os[0]) + "\""
    else "\"" + FieldPath(os[0]) + "\"," + Quoted(os[1..])
  }

  function CostLabels(labels: StringMap, name: string, p: ProfileObj): StringMap {
    var named := labels[PROFILE_LABEL := name];
    if p.spec.templateRef.Some? then named[TEMPLATE_LABEL := p.spec.templateRef.value]
    else if p.status.resolved.Some? && p.status.resolved.value.templateRef.Some? then
      named[TEMPLATE_LABEL := p.status.resolved.value.templateRef.value]
    else named
  }

  /** The template a cost label may name: the profile's own, else its resolved spec's. */
  function CostTemplate(p: ProfileObj): Option<string> {
    if p.spec.templateRef.Some? then p.spec.templateRef
    else if p.status.resolved.Some? then p.status.resolved.value.templateRef
    else None
  }

  /**
   What the cost labels tell: the profile's name always, the template's exactly when there is one;
   a template label the pod came with survives otherwise, and so does every other label always.
   */
  lemma CostLabelsSay(labels: StringMap, name: string, p: ProfileObj)
    ensures var r := CostLabels(labels, name, p);
      && PROFILE_LABEL in r && r[PROFILE_LABEL] == name
      && (CostTemplate(p).Some? ==> TEMPLATE_LABEL in r && r[TEMPLATE_LABEL] == CostTemplate(p).value)
      && (CostTemplate(p).None? ==> (TEMPLATE_LABEL in r <==> TEMPLATE_LABEL in labels))
      && (CostTemplate(p).None? && TEMPLATE_LABEL in labels ==> r[TEMPLATE_LABEL] == labels[TEMPLATE_LABEL])
      && (forall k :: k != PROFILE_LABEL && k != TEMPLATE_LABEL ==>
            (k in r <==> k in labels) && (k in labels ==> r[k] == labels[k]))
  {
    assert |PROFILE_LABEL| == 33 && |TEMPLATE_LABEL| == 34;
  }

  function Tracking(annotations: StringMap, p: ProfileObj, overrides: seq<Override>): StringMap {
    var g := annotations[GENERATION_ANNOTATION := Decimal(p.generation)];
    var t :=
      if p.status.templateGeneration.None? then g
      else g[TEMPLATE_GENERATION_ANNOTATION := Decimal(p.status.templateGeneration.value)];
    if overrides != [] then t[OVERRIDES_ANNOTATION := "[" + Quoted(overrides) + "]"] else t
  }

  function Mutated(pod: PodObj, name: string, p: ProfileObj, spec: ProfileSpec, overrides: seq<Override>): PodObj {
    var target := Target(spec.containers, pod.containers);
    pod.(containers := WithReferences(Injected(spec, pod.containers), target, Names(spec.deviceClaims)),
         resourceClaims := pod.resourceClaims + PodClaims(name, spec.deviceClaims),
         gates := Gates.Added(pod.gates),
         labels := CostLabels(pod.labels, name, p),
         annotations := Tracking(pod.annotations, p, overrides))
  }

  /** The answer for a pod, given what reading its profile returned. */
  function Respond(pod: PodObj, profile: Option<ProfileObj>, overrides: seq<Override>): Response {
    if !Managed(pod) then Unmanaged
    else if profile.None? then Errored
    else if profile.value.status.resolved.None? then Denied(NotReconciled)
    else
      var spec := profile.value.status.resolved.value;
      if Blocking(pod, spec).Some? then Denied(Blocking(pod, spec).value)
      else if spec.deviceClaims != [] && !IsValid(profile.value) then Denied(NotReady)
      else if spec.deviceClaims != [] && Target(spec.containers, pod.containers) < 0 then Faulted
      else Admitted(Mutated(pod, pod.annotations[PROFILE_ANNOTATION], profile.value, spec, overrides))
  }

  /** The overrides recorded are those of this injection. */
  ghost predicate Recorded(pod: PodObj, profile: Option<ProfileObj>, overrides: seq<Override>) {
    Respond(pod, profile, overrides).Admitted? ==>
      IsOverrideList(profile.value.status.resolved.value, pod.containers, overrides)
  }

  // ---- the webhook ----

  method IsKueueManaged(pod: Pod) returns (r: bool)
    ensures r <==> KueueManaged(pod.Value())
  {
    if KUEUE_QUEUE_LABEL in pod.labels {
      return true;
    }
    for i := 0 to |pod.gates|
      invariant KUEUE_GATE !in pod.gates[..i]
    {
      if pod.gates[i] == KUEUE_GATE {
        return true;
      }
    }
    r := false;
  }

  method CheckBlockingConflicts(pod: Pod, spec: ProfileSpec) returns (r: Option<Reason>)
    ensures r == Blocking(pod.Value(), spec)
  {
    if |pod.resourceClaims| > 0 && |spec.deviceClaims| > 0 {
      return Some(ClaimsConflict);
    }
    var node := NodeOf(spec.placement);
    if node.Some? {
      var todo := node.value.nodeSelector.Keys;
      while todo != {}
        invariant todo <= node.value.nodeSelector.Keys
        invariant forall k :: k in node.value.nodeSelector.Keys - todo && k in pod.nodeSelector ==>
          pod.nodeSelector[k] == node.value.nodeSelector[k]
        decreases |todo|
      {
        var k :| k in todo;
        if k in pod.nodeSelector && pod.nodeSelector[k] != node.value.nodeSelector[k] {
          return Some(SelectorConflict);
        }
        todo := todo - {k};
      }
    }
    r := None;
  }

  method SetCostLabels(pod: Pod, name: string, p: ProfileObj)
    modifies pod`labels
    ensures pod.labels == CostLabels(old(pod.labels), name, p)
  {
    pod.labels := pod.labels[PROFILE_LABEL := name];
    if p.spec.templateRef.Some? {
      pod.labels := pod.labels[TEMPLATE_LABEL := p.spec.templateRef.value];
    } else if p.status.resolved.Some? && p.status.resolved.value.templateRef.Some? {
      pod.labels := pod.labels[TEMPLATE_LABEL := p.status.resolved.value.templateRef.value];
    }
  }

  method SetTrackingAnnotations(pod: Pod, p: ProfileObj, overrides: seq<Override>)
    modifies pod`annotations
    ensures pod.annotations == Tracking(old(pod.annotations), p, overrides)
  {
    pod.annotations := pod.annotations[GENERATION_ANNOTATION := Decimal(p.generation)];
    if p.status.templateGeneration.Some? {
      pod.annotations := pod.annotations[TEMPLATE_GENERATION_ANNOTATION := Decimal(p.status.templateGeneration.value)];
    }
    if |overrides| > 0 {
      pod.annotations := pod.annotations[OVERRIDES_ANNOTATION := "[" + Quoted(overrides) + "]"];
    }
  }

  function Read(pod: PodObj, namespace: string, profiles: map<Key, ProfileObj>): Option<ProfileObj> {
    var key := Key(namespace, ValueAt(pod.annotations, PROFILE_ANNOTATION));
    if key in profiles then Some(profiles[key]) else None
  }

  /** The mutating tail of Handle, once nothing stands against the pod. */
  method Mutate(pod: Pod, name: string, profile: ProfileObj, spec: ProfileSpec) returns (overrides: seq<Override>)
    requires spec.deviceClaims != [] ==> Target(spec.containers, pod.containers) >= 0
    modifies pod
    ensures pod.Value() == Mutated(old(pod.Value()), name, profile, spec, overrides)
    ensures IsOverrideList(spec, old(pod.containers), overrides)
  {
    overrides := InjectResources(pod, spec);
    SameNamesSameTarget(spec.containers, old(pod.containers), pod.containers);
    InjectDRAClaims(pod, name, spec);
    Gates.AddSchedulingGate(pod);
    SetCostLabels(pod, name, profile);
    SetTrackingAnnotations(pod, profile, overrides);
  }

  method Handle(pod: Pod, namespace: string, profiles: map<Key, ProfileObj>)
    returns (r: Response, overrides: seq<Override>)
    modifies pod
    ensures r == Respond(old(pod.Value()), Read(old(pod.Value()), namespace, profiles), overrides)
    ensures Recorded(old(pod.Value()), Read(old(pod.Value()), namespace, profiles), overrides)
    ensures r.Admitted? ==> pod.Value() == r.pod
  {
    overrides := [];
    var kueue := IsKueueManaged(pod);
    if kueue || PROFILE_ANNOTATION !in pod.annotations {
      return Unmanaged, [];
    }
    var name := pod.annotations[PROFILE_ANNOTATION];
    if Key(namespace, name) !in profiles {
      return Errored, [];
    }
    var profile := profiles[Key(namespace, name)];
    if profile.status.resolved.None? {
      return Denied(NotReconciled), [];
    }
    var spec := profile.status.resolved.value;
    var conflict := CheckBlockingConflicts(pod, spec);
    if conflict.Some? {
      return Denied(conflict.value), [];
    }
    var ready := Conditions.IsConditionTrue(profile.status.conditions, Conditions.VALID);
    if |spec.deviceClaims| > 0 && !ready {
      return Denied(NotReady), [];
    }
    if |spec.deviceClaims| > 0 && Target(spec.containers, pod.containers) < 0 {
      return Faulted, [];
    }
    overrides := Mutate(pod, name, profile, spec);
    r := Admitted(pod.Value());
  }

  // ---- the answer over the fields ----

  predicate TakenByKueue(pod: PodObj) {
    "kueue.x-k8s.io/queue-name" in pod.labels || "kueue.x-k8s.io/admission" in pod.gates
  }

  /** Valid is True in the entry that decides, the first of its type. */
  predicate SaysValid(cs: seq<Conditions.Condition>) {
    exists i :: 0 <= i < |cs| && cs[i].kind == "Valid" && cs[i].status == Conditions.True
      && forall j :: 0 <= j < i ==> cs[j].kind != "Valid"
  }

  lemma IsValidIff(p: ProfileObj)
    ensures IsValid(p) <==> SaysValid(p.status.conditions)
  {
    var cs := p.status.conditions;
    if SaysValid(cs) {
      var i :| 0 <= i < |cs| && cs[i].kind == "Valid" && cs[i].status == Conditions.True
        && forall j :: 0 <= j < i ==> cs[j].kind != "Valid";
      Conditions.FindFirst(cs, "Valid", i);
    }
    if IsValid(p) {
      FirstOf(cs, "Valid", |cs|);
    }
  }

  lemma {:induction false} FirstOf(cs: seq<Conditions.Condition>, kind: string, n: nat)
    requires n <= |cs|
    ensures (forall j :: 0 <= j < n ==> cs[j].kind != kind)
      || exists i :: 0 <= i < n && cs[i].kind == kind && (forall j :: 0 <= j < i ==> cs[j].kind != kind)
           && Conditions.Find(cs, kind) == Some(cs[i])
    ensures (forall j :: 0 <= j < |cs| ==> cs[j].kind != kind) ==> Conditions.Find(cs, kind) == None
  {
    Conditions.FindMember(cs, kind);
    if n > 0 {
      FirstOf(cs, kind, n - 1);
      if (forall j :: 0 <= j < n - 1 ==> cs[j].kind != kind) && cs[n - 1].kind == kind {
        Conditions.FindFirst(cs, kind, n - 1);
      }
    }
  }

  /** A selector entry of a Node placement that the pod has with another value. */
  predicate Unsatisfiable(pod: PodObj, spec: ProfileSpec) {
    && spec.placement.Some? && spec.placement.value.kind == NodeType && spec.placement.value.node.Some?
    && exists k :: k in spec.placement.value.node.value.nodeSelector && k in pod.nodeSelector
         && pod.nodeSelector[k] != spec.placement.value.node.value.nodeSelector[k]
  }

  /** Each answer, exactly when it is given; what is left is admitted. */
  lemma AnswerIff(pod: PodObj, profile: Option<ProfileObj>, overrides: seq<Override>)
    ensures var r := Respond(pod, profile, overrides);
      && (r.Unmanaged? <==> TakenByKueue(pod) || PROFILE_ANNOTATION !in pod.annotations)
      && (r.Errored? <==> !TakenByKueue(pod) && PROFILE_ANNOTATION in pod.annotations && profile.None?)
      && (!r.Unmanaged? && !r.Errored? ==>
            && profile.Some?
            && (r == Denied(NotReconciled) <==> profile.value.status.resolved.None?)
            && (profile.value.status.resolved.Some? ==>
                  var spec := profile.value.status.resolved.value;
                  var claims := spec.deviceClaims;
                  && (r == Denied(ClaimsConflict) <==> |pod.resourceClaims| > 0 && |claims| > 0)
                  && (r == Denied(SelectorConflict) <==>
                        && !(|pod.resourceClaims| > 0 && |claims| > 0)
                        && Unsatisfiable(pod, spec))
                  && (r == Denied(NotReady) <==>
                        && !(|pod.resourceClaims| > 0 && |claims| > 0)
                        && !Unsatisfiable(pod, spec)
                        && |claims| > 0 && !SaysValid(profile.value.status.conditions))
                  && (r.Faulted? ==> |claims| > 0 && Target(spec.containers, pod.containers) < 0)))
  {
    if profile.Some? {
      IsValidIff(profile.value);
    }
  }

  /**
   The containers of every admitted pod, with and without device claims: each one's requests and
   limits are the submitted ones overridden by those of the entry chosen for it.
   */
  lemma AdmittedContainers(pod: PodObj, p: ProfileObj, overrides: seq<Override>, i: nat)
    requires Respond(pod, Some(p), overrides).Admitted? && i < |pod.containers|
    ensures var spec := p.status.resolved.value;
      var r := Respond(pod, Some(p), overrides).pod;
      && |r.containers| == |pod.containers|
      && (exists q :: Chosen(spec.containers, spec.defaults, pod.containers[i].name, i, q)
            && InjectedWith(pod.containers[i], q, r.containers[i].(claims := pod.containers[i].claims)))
      && (spec.deviceClaims == [] ==> r.containers[i].claims == pod.containers[i].claims)
  {
    var spec := p.status.resolved.value;
    var r := Respond(pod, Some(p), overrides).pod;
    InjectedMeans(spec, pod.containers, i);
    var q :| Chosen(spec.containers, spec.defaults, pod.containers[i].name, i, q)
      && InjectedWith(pod.containers[i], q, Injected(spec, pod.containers)[i]);
    assert InjectedWith(pod.containers[i], q, r.containers[i].(claims := pod.containers[i].claims));
    if spec.deviceClaims == [] {
      assert Names(spec.deviceClaims) == [];
      assert pod.containers[i].claims + [] == pod.containers[i].claims;
    }
  }

  /** The rest of every admitted pod: its labels name profile and template, its generation is the profile's. */
  lemma AdmittedRest(pod: PodObj, p: ProfileObj, overrides: seq<Override>)
    requires Respond(pod, Some(p), overrides).Admitted?
    ensures var r := Respond(pod, Some(p), overrides).pod;
      && PROFILE_LABEL in r.labels && r.labels[PROFILE_LABEL] == pod.annotations[PROFILE_ANNOTATION]
      && (p.spec.templateRef.Some? ==>
            TEMPLATE_LABEL in r.labels && r.labels[TEMPLATE_LABEL] == p.spec.templateRef.value)
      && (p.spec.templateRef.None? && p.status.resolved.value.templateRef.Some? ==>
            TEMPLATE_LABEL in r.labels && r.labels[TEMPLATE_LABEL] == p.status.resolved.value.templateRef.value)
      && GENERATION_ANNOTATION in r.annotations && r.annotations[GENERATION_ANNOTATION] == Decimal(p.generation)
      && (p.status.templateGeneration.Some? ==>
            && TEMPLATE_GENERATION_ANNOTATION in r.annotations
            && r.annotations[TEMPLATE_GENERATION_ANNOTATION] == Decimal(p.status.templateGeneration.value))
      && (overrides != [] ==>
            && OVERRIDES_ANNOTATION in r.annotations
            && r.annotations[OVERRIDES_ANNOTATION] == "[" + Quoted(overrides) + "]")
      && (overrides == [] ==> (OVERRIDES_ANNOTATION in r.annotations <==> OVERRIDES_ANNOTATION in pod.annotations))
      && SCHEDULING_GATE in r.gates && pod.gates <= r.gates
      && (forall g :: g in r.gates && g !in pod.gates ==> g == SCHEDULING_GATE)
      && (p.status.resolved.value.deviceClaims == [] ==> r.resourceClaims == pod.resourceClaims)
      && r.nodeSelector == pod.nodeSelector && r.tolerations == pod.tolerations && r.other == pod.other
  {
    CostLabelsSay(pod.labels, pod.annotations[PROFILE_ANNOTATION], p);
    assert |PROFILE_ANNOTATION| == 33 && |GENERATION_ANNOTATION| == 39
        && |TEMPLATE_GENERATION_ANNOTATION| == 40 && |OVERRIDES_ANNOTATION| == 30;
    Gates.AddRemove(pod.gates);
  }

  // ---- the text of the annotations ----

  function DigitValue(c: char): int {
    c as int - '0' as int
  }

  /** Reading a decimal back. */
  function Parsed(s: string): int
    decreases |s|
  {
    if s == "" then 0
    else if s[0] == '-' then -Parsed(s[1..])
    else Parsed(s[..|s| - 1]) * 10 + DigitValue(s[|s| - 1])
  }

  lemma DigitReads(d: nat)
    requires d < 10
    ensures |Digit(d)| == 1 && DigitValue(Digit(d)[0]) == d && Digit(d)[0] != '-'
  {
  }

  lemma ParsedSnoc(s: string, c: char)
    requires s != "" && s[0] != '-'
    ensures Parsed(s + [c]) == Parsed(s) * 10 + DigitValue(c)
  {
    assert (s + [c])[..|s|] == s;
  }

  lemma {:induction false} NaturalReads(n: nat)
    ensures Parsed(Decimal(n)) == n && Decimal(n) != "" && Decimal(n)[0] != '-'
  {
    if n < 10 {
      DigitReads(n);
      assert Decimal(n)[..0] == "";
      assert Parsed("") == 0;
    } else {
      NaturalReads(n / 10);
      DigitReads(n % 10);
      assert Decimal(n) == Decimal(n / 10) + [Digit(n % 10)[0]];
      ParsedSnoc(Decimal(n / 10), Digit(n % 10)[0]);
    }
  }

  lemma ParsedNegative(s: string)
    ensures Parsed("-" + s) == -Parsed(s)
  {
    assert ("-" + s)[1..] == s;
  }

  /** What is written reads back as the number. */
  lemma DecimalReads(n: int)
    ensures Parsed(Decimal(n)) == n
  {
    if n < 0 {
      NaturalReads(-n);
      assert Decimal(n) == "-" + Decimal(-n);
      ParsedNegative(Decimal(-n));
    } else {
      NaturalReads(n);
    }
  }

  lemma DigitHasNo(d: nat, c: char)
    requires d < 10 && c !in "0123456789"
    ensures c !in Digit(d)
  {
  }

  lemma {:induction false} DecimalHasNo(n: int, c: char)
    requires c != '-' && c !in "0123456789"
    ensures c !in Decimal(n)
    decreases if n < 0 then 1 - n else n
  {
    if n < 0 {
      DecimalHasNo(-n, c);
      assert Decimal(n) == ['-'] + Decimal(-n);
    } else {
      DigitHasNo(n % 10, c);
      if n >= 10 {
        DecimalHasNo(n / 10, c);
      }
    }
  }

  lemma {:induction false} SplitUnique(x: string, u: string, y: string, v: string, c: char)
    requires c !in x && c !in y && x + [c] + u == y + [c] + v
    ensures x == y && u == v
  {
    if x == "" || y == "" {
      assert (x + [c] + u)[0] == (y + [c] + v)[0];
      assert (x + [c] + u)[1..] == (y + [c] + v)[1..];
    } else {
      assert (x + [c] + u)[0] == (y + [c] + v)[0];
      assert (x + [c] + u)[1..] == x[1..] + [c] + u && (y + [c] + v)[1..] == y[1..] + [c] + v;
      SplitUnique(x[1..], u, y[1..], v, c);
      assert x == [x[0]] + x[1..] && y == [y[0]] + y[1..];
    }
  }

  function KindName(kind: ResourceKind): string {
    if kind == Requests then "requests" else "limits"
  }

  lemma QuotedCons(os: seq<Override>)
    requires |os| > 1
    ensures Quoted(os) == Quoted(os[..1]) + "," + Quoted(os[1..])
  {
    var x := "\"" + FieldPath(os[0]) + "\"";
    assert Quoted(os[..1]) == x;
    assert "\"" + FieldPath(os[0]) + "\"," == x + ",";
  }

  /** The list is its entries in quotes, in order, with commas between. */
  lemma {:induction false} QuotedJoins(a: seq<Override>, b: seq<Override>)
    ensures Quoted([]) == "" && forall o :: Quoted([o]) == "\"" + FieldPath(o) + "\""
    ensures a != [] && b != [] ==> Quoted(a + b) == Quoted(a) + "," + Quoted(b)
  {
    if a != [] && b != [] {
      QuotedCons(a + b);
      assert (a + b)[1..] == a[1..] + b && (a + b)[..1] == a[..1];
      if |a| > 1 {
        QuotedCons(a);
        QuotedJoins(a[1..], b);
        CommaJoins(Quoted(a[..1]), Quoted(a[1..]), Quoted(b));
      } else {
        assert a[1..] + b == b && a[..1] == a;
      }
    }
  }

  lemma CommaJoins(x: string, y: string, z: string)
    ensures x + "," + (y + "," + z) == (x + "," + y) + "," + z
  {
  }

  function PathRest(o: Override): string {
    ".resources." + KindName(o.kind) + "." + o.key
  }

  lemma PathParts(o: Override)
    ensures FieldPath(o) == "containers[" + (Decimal(o.container) + [']'] + PathRest(o))
  {
  }

  lemma SamePrefix(prefix: string, x: string, y: string)
    requires prefix + x == prefix + y
    ensures x == y
  {
    assert (prefix + x)[|prefix|..] == x && (prefix + y)[|prefix|..] == y;
  }

  /** The path recorded tells which container, which kind and which resource was overridden. */
  lemma PathTells(a: Override, b: Override)
    requires FieldPath(a) == FieldPath(b)
    ensures a == b
  {
    var x, y := Decimal(a.container), Decimal(b.container);
    PathParts(a);
    PathParts(b);
    SamePrefix("containers[", x + [']'] + PathRest(a), y + [']'] + PathRest(b));
    DecimalHasNo(a.container, ']');
    DecimalHasNo(b.container, ']');
    SplitUnique(x, PathRest(a), y, PathRest(b), ']');
    DecimalReads(a.container);
    DecimalReads(b.container);
    KindTells(a, b);
  }

  lemma KindTells(a: Override, b: Override)
    requires PathRest(a) == PathRest(b)
    ensures a.kind == b.kind && a.key == b.key
  {
    var x, y := KindName(a.kind), KindName(b.kind);
    assert PathRest(a) == ".resources." + (x + ['.'] + a.key) && PathRest(b) == ".resources." + (y + ['.'] + b.key);
    SamePrefix(".resources.", x + ['.'] + a.key, y + ['.'] + b.key);
    SplitUnique(x, a.key, y, b.key, '.');
    assert "requests"[0] != "limits"[0];
  }

  // ---- what an admitted pod looks like ----

  ghost predicate DistinctNames(claims: seq<DeviceClaim>) {
    forall i, j :: 0 <= i < j < |claims| ==> claims[i].name != claims[j].name
  }

  /** A container's claim references all name claims of the pod. */
  ghost predicate Resolves(pod: PodObj, ref: string) {
    exists i :: 0 <= i < |pod.resourceClaims| && pod.resourceClaims[i].name == ref
  }

  lemma PodClaimsNames(name: string, claims: seq<DeviceClaim>)
    ensures DistinctNames(claims) <==>
      forall i, j :: 0 <= i < j < |claims| ==> PodClaims(name, claims)[i].name != PodClaims(name, claims)[j].name
  {
    if !DistinctNames(claims) {
      var i, j :| 0 <= i < j < |claims| && claims[i].name == claims[j].name;
      assert PodClaims(name, claims)[i].name == PodClaims(name, claims)[j].name;
    }
  }

  lemma AdmittedHoldsClaims(pod: PodObj, p: ProfileObj, overrides: seq<Override>)
    requires Respond(pod, Some(p), overrides).Admitted? && p.status.resolved.value.deviceClaims != []
    ensures Respond(pod, Some(p), overrides).pod.resourceClaims
      == PodClaims(pod.annotations[PROFILE_ANNOTATION], p.status.resolved.value.deviceClaims)
  {
    var claims := PodClaims(pod.annotations[PROFILE_ANNOTATION], p.status.resolved.value.deviceClaims);
    assert pod.resourceClaims == [];
    assert [] + claims == claims;
  }

  /**
   An admitted pod whose profile has device claims holds exactly those, in order, each name once
   exactly when the profile's names are distinct.
   */
  lemma AdmittedClaims(pod: PodObj, p: ProfileObj, overrides: seq<Override>)
    requires Respond(pod, Some(p), overrides).Admitted? && p.status.resolved.value.deviceClaims != []
    ensures var claims := p.status.resolved.value.deviceClaims;
      var r := Respond(pod, Some(p), overrides).pod.resourceClaims;
      && r == PodClaims(pod.annotations[PROFILE_ANNOTATION], claims)
      && (DistinctNames(claims) <==> forall i, j :: 0 <= i < j < |r| ==> r[i].name != r[j].name)
  {
    AdmittedHoldsClaims(pod, p, overrides);
    PodClaimsNames(pod.annotations[PROFILE_ANNOTATION], p.status.resolved.value.deviceClaims);
  }

  /**
   When the target index is in range, exactly that container gains one reference per claim, every
   one of which resolves in the pod; no other container changes beyond its injected resources.
   */
  lemma AdmittedReferences(pod: PodObj, p: ProfileObj, overrides: seq<Override>)
    requires Respond(pod, Some(p), overrides).Admitted? && p.status.resolved.value.deviceClaims != []
    ensures var spec := p.status.resolved.value;
      var r := Respond(pod, Some(p), overrides).pod;
      var target := Target(spec.containers, pod.containers);
      && |r.containers| == |pod.containers|
      && (forall i :: 0 <= i < |pod.containers| && i != target ==> r.containers[i] == Injected(spec, pod.containers)[i])
      && (target < |pod.containers| ==>
            && r.containers[target].claims == pod.containers[target].claims + Names(spec.deviceClaims)
            && r.containers[target].(claims := pod.containers[target].claims) == Injected(spec, pod.containers)[target]
            && forall ref :: ref in Names(spec.deviceClaims) ==> Resolves(r, ref))
  {
    var spec := p.status.resolved.value;
    var r := Respond(pod, Some(p), overrides).pod;
    var claims := PodClaims(pod.annotations[PROFILE_ANNOTATION], spec.deviceClaims);
    assert r.resourceClaims == claims by {
      AdmittedClaims(pod, p, overrides);
    }
    forall ref | ref in Names(spec.deviceClaims) ensures Resolves(r, ref) {
      var i :| 0 <= i < |spec.deviceClaims| && Names(spec.deviceClaims)[i] == ref;
      assert claims[i].name == ref;
    }
  }

  /** Only a profile stored Valid gets device claims into a pod. */
  lemma ClaimsOnlyWhenValid(pod: PodObj, p: ProfileObj, overrides: seq<Override>)
    requires Respond(pod, Some(p), overrides).Admitted?
    ensures !IsValid(p) ==> Respond(pod, Some(p), overrides).pod.resourceClaims == pod.resourceClaims
  {
  }

  /**
   The check at admission makes the overwrite at placement harmless: with the same Node
   placement, the final selector is the union and no entry of the user changes value.
   */
  lemma PlacementKeepsUserSelector(pod: PodObj, p: ProfileObj, overrides: seq<Override>)
    requires Respond(pod, Some(p), overrides).Admitted? && NodeOf(p.status.resolved.value.placement).Some?
    ensures var node := NodeOf(p.status.resolved.value.placement);
      var final := Placement.Placed(Respond(pod, Some(p), overrides).pod, node);
      && final.nodeSelector.Keys == pod.nodeSelector.Keys + node.value.nodeSelector.Keys
      && (forall k :: k in pod.nodeSelector ==> final.nodeSelector[k] == pod.nodeSelector[k])
      && (forall k :: k in node.value.nodeSelector ==> final.nodeSelector[k] == node.value.nodeSelector[k])
  {
    Placement.SelectorUnion(Respond(pod, Some(p), overrides).pod, NodeOf(p.status.resolved.value.placement).value);
  }

  /** The tracking keys are not the profile key: an admitted pod still names its profile. */
  lemma StillNamesProfile(annotations: StringMap, p: ProfileObj, overrides: seq<Override>)
    ensures ValueAt(Tracking(annotations, p, overrides), PROFILE_ANNOTATION) == ValueAt(annotations, PROFILE_ANNOTATION)
    ensures PROFILE_ANNOTATION in Tracking(annotations, p, overrides) <==> PROFILE_ANNOTATION in annotations
  {
    assert |PROFILE_ANNOTATION| == 33 && |GENERATION_ANNOTATION| == 39
        && |TEMPLATE_GENERATION_ANNOTATION| == 40 && |OVERRIDES_ANNOTATION| == 30;
  }
}
