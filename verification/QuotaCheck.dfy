/**
 The pre-flight quota decision of the placement controller, as coded: the requests of one
 container's worth of the resolved profile, then the device claims of the unresolved spec.
 */
module QuotaCheck {
  import opened Kube

  /** The controller's view of a profile: its spec and, once reconciled, its resolved spec. */
  datatype View = View(spec: ProfileSpec, resolved: Option<ProfileSpec>)

  /** resolveProfileResources. */
  function Resources(v: View): Option<Requirements> {
    var spec := if v.resolved.Some? then v.resolved.value else v.spec;
    if spec.containers != [] then Some(spec.containers[0].resources) else spec.defaults
  }

  function RequestsKey(name: string): string { "requests." + name }

  function DeviceKey(className: string): string { className + ".deviceclass.resource.k8s.io/devices" }

  /** A lookup under the prefixed key first, then under the bare name. */
  function Either(m: map<string, int>, first: string, second: string): Option<int> {
    if first in m then Some(m[first]) else if second in m then Some(m[second]) else None
  }

  function OrZero(x: Option<int>): int {
    if x.Some? then x.value else 0
  }

  /** A quota without a hard bound for a key admits anything; otherwise used + requested <= hard. */
  predicate Fits(hard: Option<int>, used: Option<int>, requested: int) {
    hard.None? || OrZero(used) + requested <= hard.value
  }

  predicate RequestFits(q: Quota, name: string, requested: int) {
    Fits(Either(q.hard, RequestsKey(name), name), Either(q.used, RequestsKey(name), name), requested)
  }

  function Devices(r: DeviceRequest): int {
    if r.count == 0 then 1 else r.count
  }

  predicate DeviceFits(q: Quota, c: DeviceClaim) {
    c.exactly.Some? ==>
      var key := DeviceKey(c.exactly.value.className);
      Fits(Either(q.hard, key, key), Either(q.used, key, key), Devices(c.exactly.value))
  }

  predicate DevicesFit(q: Quota, claims: seq<DeviceClaim>) {
    forall i :: 0 <= i < |claims| ==> DeviceFits(q, claims[i])
  }

  predicate RequestsFit(q: Quota, requests: map<string, int>) {
    forall name :: name in requests ==> RequestFits(q, name, requests[name])
  }

  /** One quota's verdict. Without resources the device claims are not looked at. */
  predicate Admits(q: Quota, v: View) {
    Resources(v).Some? ==> RequestsFit(q, Resources(v).value.requests) && DevicesFit(q, v.spec.deviceClaims)
  }

  predicate AllAdmit(quotas: seq<Quota>, v: View) {
    forall i :: 0 <= i < |quotas| ==> Admits(quotas[i], v)
  }

  method CheckResourceQuota(q: Quota, v: View) returns (ok: bool)
    ensures ok <==> Admits(q, v)
  {
    var resources := Resources(v);
    if resources.None? {
      return true;
    }
    var requests := resources.value.requests;
    var todo := requests.Keys;
    while todo != {}
      invariant todo <= requests.Keys
      invariant forall name :: name in requests.Keys - todo ==> RequestFits(q, name, requests[name])
      decreases |todo|
    {
      var name :| name in todo;
      todo := todo - {name};
      var hardKey := RequestsKey(name);
      var hard := Either(q.hard, hardKey, name);
      if hard.None? {
        continue;
      }
      var used := OrZero(Either(q.used, hardKey, name));
      var remaining := hard.value;
      remaining := remaining - used;
      if requests[name] > remaining {
        assert !RequestFits(q, name, requests[name]);
        return false;
      }
    }
    for i := 0 to |v.spec.deviceClaims|
      invariant forall j :: 0 <= j < i ==> DeviceFits(q, v.spec.deviceClaims[j])
    {
      var claim := v.spec.deviceClaims[i];
      if claim.exactly.None? {
        continue;
      }
      var quotaKey := DeviceKey(claim.exactly.value.className);
      if quotaKey !in q.hard {
        continue;
      }
      var used := if quotaKey in q.used then q.used[quotaKey] else 0;
      var count := claim.exactly.value.count;
      if count == 0 {
        count := 1;
      }
      var remaining := q.hard[quotaKey];
      remaining := remaining - used;
      if count > remaining {
        assert !DeviceFits(q, claim);
        return false;
      }
    }
    ok := true;
  }

  /** A failed list lets the pod through. */
  method CheckQuota(listed: Option<seq<Quota>>, v: View) returns (ok: bool)
    ensures ok <==> listed.None? || AllAdmit(listed.value, v)
  {
    if listed.None? {
      return true;
    }
    for i := 0 to |listed.value|
      invariant forall j :: 0 <= j < i ==> Admits(listed.value[j], v)
    {
      var admitted := CheckResourceQuota(listed.value[i], v);
      if !admitted {
        return false;
      }
    }
    ok := true;
  }

  // ---- the verdict over the quotas' fields ----

  /** What is left of a bound is less than what is asked. */
  predicate Short(hard: int, used: Option<int>, asked: int) {
    hard - (if used.Some? then used.value else 0) < asked
  }

  /**
   The quota refuses this much of a resource: its bound is under the prefixed key, or else the bare
   name, its usage likewise on its own, and what is left is less.
   */
  predicate RefusesResource(q: Quota, name: string, asked: int) {
    var long := "requests." + name;
    var used :=
      if long in q.used then Some(q.used[long]) else if name in q.used then Some(q.used[name]) else None;
    || (long in q.hard && Short(q.hard[long], used, asked))
    || (long !in q.hard && name in q.hard && Short(q.hard[name], used, asked))
  }

  /** The quota refuses the claim's devices: one key, by class; a count of zero asks for one. */
  predicate RefusesDevices(q: Quota, c: DeviceClaim) {
    c.exactly.Some?
    && var key := c.exactly.value.className + ".deviceclass.resource.k8s.io/devices";
       key in q.hard
       && Short(q.hard[key], if key in q.used then Some(q.used[key]) else None,
                if c.exactly.value.count == 0 then 1 else c.exactly.value.count)
  }

  /** The resources checked: those of the first entry, else the defaults; of the resolved spec once there is one. */
  predicate Asks(v: View, r: Requirements) {
    var spec := if v.resolved.Some? then v.resolved.value else v.spec;
    if |spec.containers| > 0 then r == spec.containers[0].resources else spec.defaults == Some(r)
  }

  /**
   The verdict, in both directions: a pod is held exactly when resources resolve and some quota
   refuses one of their requests, or the devices of one of the spec's own claims.
   */
  lemma HeldIff(quotas: seq<Quota>, v: View)
    ensures !AllAdmit(quotas, v) <==>
      exists r, q :: Asks(v, r) && q in quotas && RefusesSome(q, v, r)
  {
    if r, q :| Asks(v, r) && q in quotas && RefusesSome(q, v, r) {
      AdmitsUnless(q, v, r);
      var i :| 0 <= i < |quotas| && quotas[i] == q;
      assert !Admits(quotas[i], v);
    }
    if !AllAdmit(quotas, v) {
      var i :| 0 <= i < |quotas| && !Admits(quotas[i], v);
      var r := Resources(v).value;
      AdmitsUnless(quotas[i], v, r);
      assert quotas[i] in quotas;
    }
  }

  predicate RefusesSome(q: Quota, v: View, r: Requirements) {
    || (exists name :: name in r.requests && RefusesResource(q, name, r.requests[name]))
    || (exists i :: 0 <= i < |v.spec.deviceClaims| && RefusesDevices(q, v.spec.deviceClaims[i]))
  }

  lemma AdmitsUnless(q: Quota, v: View, r: Requirements)
    requires Asks(v, r)
    ensures Resources(v) == Some(r) && (Admits(q, v) <==> !RefusesSome(q, v, r))
  {
    forall name | name in r.requests
      ensures RequestFits(q, name, r.requests[name]) <==> !RefusesResource(q, name, r.requests[name])
    {
    }
    forall i | 0 <= i < |v.spec.deviceClaims|
      ensures DeviceFits(q, v.spec.deviceClaims[i]) <==> !RefusesDevices(q, v.spec.deviceClaims[i])
    {
    }
  }

  // ---- what the verdict does and does not depend on ----

  /** More room under the same keys: hard bounds may rise, usage may fall. */
  ghost predicate Roomier(a: Quota, b: Quota) {
    && a.hard.Keys == b.hard.Keys && a.used.Keys == b.used.Keys
    && (forall k :: k in a.hard ==> a.hard[k] <= b.hard[k])
    && (forall k :: k in a.used ==> b.used[k] <= a.used[k])
  }

  /** A pod that passed keeps passing when room grows. */
  lemma VerdictMonotone(before: seq<Quota>, after: seq<Quota>, v: View)
    requires |before| == |after| && forall i :: 0 <= i < |before| ==> Roomier(before[i], after[i])
    requires AllAdmit(before, v)
    ensures AllAdmit(after, v)
  {
    forall i | 0 <= i < |after| ensures Admits(after[i], v) {
      assert Admits(before[i], v) && Roomier(before[i], after[i]);
      if Resources(v).Some? {
        var requests := Resources(v).value.requests;
        forall name | name in requests ensures RequestFits(after[i], name, requests[name]) {
          assert RequestFits(before[i], name, requests[name]);
        }
        forall j | 0 <= j < |v.spec.deviceClaims| ensures DeviceFits(after[i], v.spec.deviceClaims[j]) {
          assert DeviceFits(before[i], v.spec.deviceClaims[j]);
        }
      }
    }
  }

  /** The key sets must stay: a usage reported under the prefixed key hides one under the bare name. */
  lemma KeySetsMatter()
    ensures exists a: Quota, b: Quota, v: View ::
      && a.hard == b.hard && (forall k :: k in b.used ==> k in a.used && b.used[k] <= a.used[k])
      && Admits(a, v) && !Admits(b, v)
  {
    var spec := ProfileSpec(None, Some(Requirements(map["cpu" := 1], map[])), [], [], None);
    var hard := map["cpu" := 1];
    var a, b := Quota(hard, map["cpu" := 1, "requests.cpu" := 0]), Quota(hard, map["cpu" := 1]);
    var v := View(spec, Some(spec));
    assert RequestsKey("cpu") == "requests.cpu";
    assert RequestsKey("cpu")[0] != "cpu"[0];
    assert RequestFits(a, "cpu", 1) && !RequestFits(b, "cpu", 1);
    assert Resources(v).value.requests == map["cpu" := 1];
    assert Admits(a, v);
    assert !RequestsFit(b, Resources(v).value.requests);
  }

  /** Quotas may be listed in any order. */
  lemma VerdictOrderBlind(a: seq<Quota>, b: seq<Quota>, v: View)
    requires multiset(a) == multiset(b)
    ensures AllAdmit(a, v) <==> AllAdmit(b, v)
  {
    assert forall q :: q in a <==> q in multiset(a);
    assert forall q :: q in b <==> q in multiset(b);
    assert AllAdmit(a, v) <==> forall q :: q in a ==> Admits(q, v);
    assert AllAdmit(b, v) <==> forall q :: q in b ==> Admits(q, v);
  }

  // ---- the device check against the documented one ----

  /** The claims injected into the pod: those of the resolved spec. */
  function Injectable(v: View): seq<DeviceClaim> {
    if v.resolved.Some? then v.resolved.value.deviceClaims else v.spec.deviceClaims
  }

  /** The claims the code holds against the quota. */
  function Checked(v: View): seq<DeviceClaim> {
    if Resources(v).Some? then v.spec.deviceClaims else []
  }

  /** Every exact request of `a` is matched by one of `b` of the same class and at least its count. */
  ghost predicate Dominated(a: seq<DeviceClaim>, b: seq<DeviceClaim>) {
    forall i :: 0 <= i < |a| && a[i].exactly.Some? ==> Covered(a[i].exactly.value, b)
  }

  ghost predicate Covered(r: DeviceRequest, b: seq<DeviceClaim>) {
    exists j :: 0 <= j < |b| && b[j].exactly.Some?
      && b[j].exactly.value.className == r.className && Devices(r) <= Devices(b[j].exactly.value)
  }

  lemma DeviceKeyInjective(a: string, b: string)
    requires DeviceKey(a) == DeviceKey(b)
    ensures a == b
  {
    var suffix := ".deviceclass.resource.k8s.io/devices";
    assert |DeviceKey(a)| == |a| + |suffix| && |DeviceKey(b)| == |b| + |suffix|;
    assert DeviceKey(a)[..|a|] == a && DeviceKey(b)[..|b|] == b;
  }

  lemma DominatedFits(a: seq<DeviceClaim>, b: seq<DeviceClaim>, q: Quota)
    requires Dominated(a, b) && DevicesFit(q, b)
    ensures DevicesFit(q, a)
  {
    forall i | 0 <= i < |a| ensures DeviceFits(q, a[i]) {
      if a[i].exactly.Some? {
        assert Covered(a[i].exactly.value, b);
        var j :| 0 <= j < |b| && b[j].exactly.Some?
          && b[j].exactly.value.className == a[i].exactly.value.className
          && Devices(a[i].exactly.value) <= Devices(b[j].exactly.value);
        assert DeviceFits(q, b[j]);
      }
    }
  }

  /** A claim nothing in `b` covers is caught by a quota that lets all of `b` pass. */
  lemma UncoveredSeparates(a: seq<DeviceClaim>, i: nat, b: seq<DeviceClaim>) returns (q: Quota)
    requires i < |a| && a[i].exactly.Some? && !Covered(a[i].exactly.value, b)
    ensures !DevicesFit(q, a) && DevicesFit(q, b) && q.hard.Keys == {DeviceKey(a[i].exactly.value.className)}
  {
    var r := a[i].exactly.value;
    q := Quota(map[DeviceKey(r.className) := Devices(r) - 1], map[]);
    assert !DeviceFits(q, a[i]);
    forall j | 0 <= j < |b| ensures DeviceFits(q, b[j]) {
      if b[j].exactly.Some? && DeviceKey(b[j].exactly.value.className) == DeviceKey(r.className) {
        DeviceKeyInjective(b[j].exactly.value.className, r.className);
      }
    }
  }

  /** The documented verdict: the injected devices are checked, whatever resources resolve. */
  predicate AdmitsAsDocumented(q: Quota, v: View) {
    && (Resources(v).Some? ==> RequestsFit(q, Resources(v).value.requests))
    && DevicesFit(q, Injectable(v))
  }

  /** No request is for what a quota's device keys are called. */
  ghost predicate NoDeviceNames(v: View) {
    Resources(v).Some? ==>
      forall name, c :: name in Resources(v).value.requests ==>
        name != DeviceKey(c) && RequestsKey(name) != DeviceKey(c)
  }

  /** On a quota of one class's devices only those count. */
  lemma DeviceQuotaVerdict(q: Quota, v: View, className: string)
    requires NoDeviceNames(v) && q.hard.Keys == {DeviceKey(className)}
    ensures Admits(q, v) <==> DevicesFit(q, Checked(v))
    ensures AdmitsAsDocumented(q, v) <==> DevicesFit(q, Injectable(v))
  {
    if Resources(v).Some? {
      var requests := Resources(v).value.requests;
      forall name | name in requests ensures RequestFits(q, name, requests[name]) {
        assert name != DeviceKey(className) && RequestsKey(name) != DeviceKey(className);
      }
    }
  }

  /**
   The documentation has the injected devices checked. The code checks `Checked(v)`. The two
   verdicts agree on every quota exactly when each list of devices covers the other.
   */
  lemma DeviceCheckAsDocumentedIff(v: View)
    requires NoDeviceNames(v)
    ensures (forall q :: Admits(q, v) <==> AdmitsAsDocumented(q, v))
       <==> Dominated(Checked(v), Injectable(v)) && Dominated(Injectable(v), Checked(v))
  {
    var c, d := Checked(v), Injectable(v);
    if Dominated(c, d) && Dominated(d, c) {
      forall q ensures Admits(q, v) <==> AdmitsAsDocumented(q, v) {
        if DevicesFit(q, d) { DominatedFits(c, d, q); }
        if DevicesFit(q, c) { DominatedFits(d, c, q); }
      }
    } else if !Dominated(c, d) {
      var i :| 0 <= i < |c| && c[i].exactly.Some? && !Covered(c[i].exactly.value, d);
      var q := UncoveredSeparates(c, i, d);
      DeviceQuotaVerdict(q, v, c[i].exactly.value.className);
    } else {
      var i :| 0 <= i < |d| && d[i].exactly.Some? && !Covered(d[i].exactly.value, c);
      var q := UncoveredSeparates(d, i, c);
      DeviceQuotaVerdict(q, v, d[i].exactly.value.className);
    }
  }

  /** The gap, on a concrete profile: a template's devices are never held against the quota. */
  lemma TemplateDevicesUnchecked()
    ensures exists v: View, q: Quota :: v.spec.templateRef.Some? && Admits(q, v) && !DevicesFit(q, Injectable(v))
  {
    var claim := DeviceClaim("gpu", Some(DeviceRequest("gpu", 8)));
    var bound := ProfileSpec(Some("t4"), None, [], [], None);
    var v := View(bound, Some(ProfileSpec(None, Some(Requirements(map[], map[])), [], [claim], None)));
    var q := UncoveredSeparates([claim], 0, []);
    assert Injectable(v) == [claim];
    assert Admits(q, v);
  }

  // ---- the device check against the sum of a class ----

  /** What the claims take from the quota of a class, together. */
  function Total(claims: seq<DeviceClaim>, className: string): int {
    if claims == [] then 0
    else if Names(claims[0], className) then Total(claims[1..], className) + Devices(claims[0].exactly.value)
    else Total(claims[1..], className)
  }

  predicate Names(c: DeviceClaim, className: string) {
    c.exactly.Some? && c.exactly.value.className == className
  }

  /** The claims of each class fit together. */
  ghost predicate Summed(q: Quota, claims: seq<DeviceClaim>) {
    forall i :: 0 <= i < |claims| && claims[i].exactly.Some? ==>
      var key := DeviceKey(claims[i].exactly.value.className);
      Fits(Either(q.hard, key, key), Either(q.used, key, key), Total(claims, claims[i].exactly.value.className))
  }

  /** No class is named by two claims. */
  ghost predicate ClassesOnce(claims: seq<DeviceClaim>) {
    forall i, j :: 0 <= i < j < |claims| && claims[i].exactly.Some? && claims[j].exactly.Some? ==>
      claims[i].exactly.value.className != claims[j].exactly.value.className
  }

  ghost predicate CountsNatural(claims: seq<DeviceClaim>) {
    forall i :: 0 <= i < |claims| && claims[i].exactly.Some? ==> claims[i].exactly.value.count >= 0
  }

  lemma {:induction false} TotalAbsent(claims: seq<DeviceClaim>, className: string)
    requires forall i :: 0 <= i < |claims| ==> !Names(claims[i], className)
    ensures Total(claims, className) == 0
  {
    if claims != [] {
      TotalAbsent(claims[1..], className);
    }
  }

  /** The total covers any one claim, and any two. */
  lemma {:induction false} TotalCovers(claims: seq<DeviceClaim>, i: nat, className: string)
    requires CountsNatural(claims) && i < |claims| && Names(claims[i], className)
    ensures Total(claims, className) >= Devices(claims[i].exactly.value) >= 1
    ensures forall j :: i < j < |claims| && Names(claims[j], className) ==>
      Total(claims, className) > Devices(claims[i].exactly.value)
  {
    TotalNatural(claims[1..], className);
    if i > 0 {
      TotalCovers(claims[1..], i - 1, className);
      assert forall j :: i < j < |claims| ==> claims[j] == claims[1..][j - 1];
    } else {
      forall j | 0 < j < |claims| && Names(claims[j], className)
        ensures Total(claims, className) > Devices(claims[0].exactly.value)
      {
        assert claims[1..][j - 1] == claims[j];
        TotalCovers(claims[1..], j - 1, className);
      }
    }
  }

  lemma {:induction false} TotalNatural(claims: seq<DeviceClaim>, className: string)
    requires CountsNatural(claims)
    ensures Total(claims, className) >= 0
  {
    if claims != [] {
      TotalNatural(claims[1..], className);
    }
  }

  lemma {:induction false} TotalOfOne(claims: seq<DeviceClaim>, i: nat, className: string)
    requires ClassesOnce(claims) && i < |claims| && Names(claims[i], className)
    ensures Total(claims, className) == Devices(claims[i].exactly.value)
  {
    if i == 0 {
      TotalAbsent(claims[1..], className);
    } else {
      TotalOfOne(claims[1..], i - 1, className);
    }
  }

  /** Two claims of one class: a quota with room for the larger lets both through. */
  lemma PairSeparates(claims: seq<DeviceClaim>, i: nat, j: nat) returns (q: Quota)
    requires CountsNatural(claims) && i < j < |claims| && claims[i].exactly.Some?
    requires Names(claims[j], claims[i].exactly.value.className)
    ensures DevicesFit(q, claims) && !Summed(q, claims)
  {
    var className := claims[i].exactly.value.className;
    var room := Total(claims, className) - 1;
    q := Quota(map[DeviceKey(className) := room], map[]);
    forall k | 0 <= k < |claims| ensures DeviceFits(q, claims[k]) {
      if claims[k].exactly.Some? && DeviceKey(claims[k].exactly.value.className) == DeviceKey(className) {
        DeviceKeyInjective(claims[k].exactly.value.className, className);
        OneOfTwo(claims, i, j, k, className);
      }
    }
  }

  lemma OneOfTwo(claims: seq<DeviceClaim>, i: nat, j: nat, k: nat, className: string)
    requires CountsNatural(claims) && i < j < |claims| && k < |claims|
    requires Names(claims[i], className) && Names(claims[j], className) && Names(claims[k], className)
    ensures Devices(claims[k].exactly.value) < Total(claims, className)
  {
    if k < j {
      TotalCovers(claims, k, className);
    } else {
      TotalCoversEarlier(claims, i, k, className);
    }
  }

  lemma {:induction false} TotalCoversEarlier(claims: seq<DeviceClaim>, i: nat, k: nat, className: string)
    requires CountsNatural(claims) && i < k < |claims| && Names(claims[i], className) && Names(claims[k], className)
    ensures Devices(claims[k].exactly.value) < Total(claims, className)
  {
    if i == 0 {
      TotalCovers(claims[1..], k - 1, className);
    } else {
      TotalCoversEarlier(claims[1..], i - 1, k - 1, className);
    }
  }

  /**
   Claims are compared with the quota one by one, never summed. For the counts the API server
   accepts, that is the verdict on the sums, for every quota, exactly when no class is named twice.
   */
  lemma DeviceSumsIff(claims: seq<DeviceClaim>)
    requires CountsNatural(claims)
    ensures (forall q :: DevicesFit(q, claims) <==> Summed(q, claims)) <==> ClassesOnce(claims)
  {
    if ClassesOnce(claims) {
      forall q ensures DevicesFit(q, claims) <==> Summed(q, claims) {
        forall i | 0 <= i < |claims| && claims[i].exactly.Some?
          ensures Total(claims, claims[i].exactly.value.className) == Devices(claims[i].exactly.value)
        {
          TotalOfOne(claims, i, claims[i].exactly.value.className);
        }
      }
    } else {
      var i, j :| 0 <= i < j < |claims| && claims[i].exactly.Some? && claims[j].exactly.Some?
        && claims[i].exactly.value.className == claims[j].exactly.value.className;
      var q := PairSeparates(claims, i, j);
    }
  }

  /** Claims of one class are compared one by one, never summed. */
  lemma DevicesNotSummed()
    ensures exists q: Quota, claims: seq<DeviceClaim> ::
      && |claims| == 2
      && (forall i :: 0 <= i < 2 ==> claims[i].exactly == Some(DeviceRequest("gpu", 1)))
      && DeviceKey("gpu") in q.hard && q.hard[DeviceKey("gpu")] == 1 && DevicesFit(q, claims) && !Summed(q, claims)
  {
    var one := Some(DeviceRequest("gpu", 1));
    var q := Quota(map[DeviceKey("gpu") := 1], map[]);
    var claims := [DeviceClaim("a", one), DeviceClaim("b", one)];
    assert DevicesFit(q, claims);
    assert claims[1..] == [claims[1]] && claims[1..][1..] == [];
    assert Total([claims[1]], "gpu") == 1;
    assert Total(claims, "gpu") == 2;
    assert claims[0].exactly.value.className == "gpu";
  }
}
