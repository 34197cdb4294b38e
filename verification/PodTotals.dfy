/**
 The pre-flight check holds one entry's requests against the quota; a quota is charged what all
 containers of the pod ask for together. When the two verdicts are the same.
 */
module PodTotals {
  import opened Kube
  import opened Injection
  import QuotaCheck

  /** Every resource some container asks for, with the sum over all containers. */
  function Total(cs: seq<Container>): map<string, int> {
    if cs == [] then map[]
    else
      var rest := Total(cs[1..]);
      map name | name in rest.Keys + cs[0].requests.Keys :: At(rest, name) + At(cs[0].requests, name)
  }

  function At(m: map<string, int>, name: string): int {
    if name in m then m[name] else 0
  }

  /** No resource is called "requests.": those names are the quota's own. */
  ghost predicate Unprefixed(m: map<string, int>) {
    forall name, x :: name in m ==> name != QuotaCheck.RequestsKey(x)
  }

  lemma RequestsKeyInjective(a: string, b: string)
    requires QuotaCheck.RequestsKey(a) == QuotaCheck.RequestsKey(b)
    ensures a == b
  {
    var prefix := "requests.";
    assert QuotaCheck.RequestsKey(a)[|prefix|..] == a && QuotaCheck.RequestsKey(b)[|prefix|..] == b;
  }

  /** A quota that refuses `a` for one resource, and admits every `b` that asks for less of it. */
  lemma LessSeparates(a: map<string, int>, b: map<string, int>, name: string) returns (q: Quota)
    requires Unprefixed(b) && name in a && (name !in b || b[name] < a[name])
    ensures !QuotaCheck.RequestsFit(q, a) && QuotaCheck.RequestsFit(q, b)
  {
    q := Quota(map[QuotaCheck.RequestsKey(name) := a[name] - 1], map[]);
    assert !QuotaCheck.RequestFits(q, name, a[name]);
    forall other | other in b ensures QuotaCheck.RequestFits(q, other, b[other]) {
      assert other != QuotaCheck.RequestsKey(name);
      if QuotaCheck.RequestsKey(other) == QuotaCheck.RequestsKey(name) {
        RequestsKeyInjective(other, name);
      }
    }
  }

  /** Two lists of requests have the same verdict under every quota exactly when they are equal. */
  lemma SameVerdictIff(a: map<string, int>, b: map<string, int>)
    requires Unprefixed(a) && Unprefixed(b)
    ensures (forall q :: QuotaCheck.RequestsFit(q, a) <==> QuotaCheck.RequestsFit(q, b)) <==> a == b
  {
    if name :| name in a && (name !in b || b[name] < a[name]) {
      var q := LessSeparates(a, b, name);
    } else if name :| name in b && (name !in a || a[name] < b[name]) {
      var q := LessSeparates(b, a, name);
    } else {
      assert a.Keys == b.Keys;
      assert a == b;
    }
  }

  /** What the check holds against the quota: nothing when the profile resolves no resources. */
  function Checked(spec: ProfileSpec): map<string, int> {
    match QuotaCheck.Resources(QuotaCheck.View(spec, Some(spec)))
    case None => map[]
    case Some(r) => r.requests
  }

  /**
   The check, on what the profile's entry says, has the verdict of the injected pod's total for
   every quota exactly when the two ask for the same.
   */
  lemma CheckCoversPodIff(spec: ProfileSpec, cs: seq<Container>)
    requires Unprefixed(Checked(spec)) && Unprefixed(Total(Injected(spec, cs)))
    ensures var total := Total(Injected(spec, cs));
      (forall q :: QuotaCheck.RequestsFit(q, Checked(spec)) <==> QuotaCheck.RequestsFit(q, total))
      <==> Checked(spec) == total
  {
    SameVerdictIff(Checked(spec), Total(Injected(spec, cs)));
  }

  /** Those are the requests of the quota verdict, for a profile without device claims. */
  lemma CheckedIsVerdict(spec: ProfileSpec, q: Quota)
    requires spec.deviceClaims == []
    ensures QuotaCheck.Admits(q, QuotaCheck.View(spec, Some(spec))) <==> QuotaCheck.RequestsFit(q, Checked(spec))
  {
  }

  // ---- a profile of defaults only ----

  ghost predicate Asks(c: Container, requests: map<string, int>) {
    forall name :: name in requests ==> name in c.requests && c.requests[name] == requests[name]
  }

  /** Containers that ask for this much each, whatever else they ask for. */
  ghost predicate AllAsk(cs: seq<Container>, requests: map<string, int>) {
    forall i :: 0 <= i < |cs| ==> Asks(cs[i], requests)
  }

  lemma {:induction false} TotalOfSame(cs: seq<Container>, requests: map<string, int>)
    requires AllAsk(cs, requests) && cs != []
    ensures requests.Keys <= Total(cs).Keys
    ensures forall name :: name in requests ==> Total(cs)[name] == |cs| * requests[name]
  {
    if |cs| == 1 {
      assert cs[1..] == [];
      assert forall name :: name in requests ==> Total(cs)[name] == cs[0].requests[name];
    } else {
      TotalOfSame(cs[1..], requests);
      forall name | name in requests ensures Total(cs)[name] == |cs| * requests[name] {
        assert Total(cs)[name] == (|cs| - 1) * requests[name] + requests[name];
      }
    }
  }

  lemma {:induction false} TotalKeys(cs: seq<Container>)
    ensures forall name :: name in Total(cs) <==> exists i :: 0 <= i < |cs| && name in cs[i].requests
  {
    if cs != [] {
      TotalKeys(cs[1..]);
      forall name ensures name in Total(cs) <==> exists i :: 0 <= i < |cs| && name in cs[i].requests {
        if i :| 0 <= i < |cs[1..]| && name in cs[1..][i].requests {
          assert name in cs[i + 1].requests;
        }
        if i :| 0 <= i < |cs| && name in cs[i].requests {
          assert i > 0 ==> name in cs[1..][i - 1].requests;
        }
      }
    }
  }

  /** A single container, or nothing but zeros. */
  predicate OneOrNothing(requests: map<string, int>, containers: nat) {
    containers == 1 || forall name :: name in requests ==> requests[name] == 0
  }

  /** The containers of the pod, each asking for its own and the defaults. */
  ghost predicate Defaulted(pod: seq<Container>, cs: seq<Container>, checked: map<string, int>) {
    |pod| == |cs| && forall i :: 0 <= i < |cs| ==> pod[i].requests == cs[i].requests + checked
  }

  ghost predicate NoneOfItsOwn(cs: seq<Container>, checked: map<string, int>) {
    forall i, name :: 0 <= i < |cs| && name in cs[i].requests ==> name in checked
  }

  lemma TotalIsDefaults(pod: seq<Container>, cs: seq<Container>, checked: map<string, int>)
    requires cs != [] && Defaulted(pod, cs, checked) && NoneOfItsOwn(cs, checked) && OneOrNothing(checked, |cs|)
    ensures Total(pod) == checked
  {
    TotalOfSame(pod, checked);
    assert Total(pod).Keys <= checked.Keys by {
      TotalKeys(pod);
      forall name | name in Total(pod) ensures name in checked {
        var i :| 0 <= i < |pod| && name in pod[i].requests;
        assert name in cs[i].requests || name in checked;
      }
    }
    var total := Total(pod);
    forall name | name in checked ensures total[name] == checked[name] {
      ZeroOrOne(|pod|, checked[name]);
    }
  }

  lemma DefaultsAreTotal(pod: seq<Container>, cs: seq<Container>, checked: map<string, int>)
    requires cs != [] && Defaulted(pod, cs, checked) && Total(pod) == checked
    ensures NoneOfItsOwn(cs, checked) && OneOrNothing(checked, |cs|)
  {
    TotalOfSame(pod, checked);
    TotalKeys(pod);
    forall i, name | 0 <= i < |cs| && name in cs[i].requests ensures name in checked {
      assert name in pod[i].requests;
    }
    if |cs| != 1 {
      forall name | name in checked ensures checked[name] == 0 {
        OnlyZero(|cs|, checked[name]);
      }
    }
  }

  lemma TotalUnprefixed(pod: seq<Container>, cs: seq<Container>, checked: map<string, int>)
    requires Defaulted(pod, cs, checked) && Unprefixed(checked)
    requires forall i :: 0 <= i < |cs| ==> Unprefixed(cs[i].requests)
    ensures Unprefixed(Total(pod))
  {
    TotalKeys(pod);
    forall name, x | name in Total(pod) ensures name != QuotaCheck.RequestsKey(x) {
      var i :| 0 <= i < |pod| && name in pod[i].requests;
      assert Unprefixed(cs[i].requests);
    }
  }

  /**
   With defaults only, the check has the verdict of the pod's total exactly when no container asks
   for a resource of its own, and the pod has one container or the defaults ask for nothing.
   */
  lemma DefaultsCoverPodIff(spec: ProfileSpec, cs: seq<Container>)
    requires spec.containers == [] && spec.defaults.Some? && cs != []
    requires Unprefixed(spec.defaults.value.requests) && forall i :: 0 <= i < |cs| ==> Unprefixed(cs[i].requests)
    ensures var checked := spec.defaults.value.requests;
      (forall q :: QuotaCheck.RequestsFit(q, checked) <==> QuotaCheck.RequestsFit(q, Total(Injected(spec, cs))))
      <==> NoneOfItsOwn(cs, checked) && OneOrNothing(checked, |cs|)
  {
    var checked := spec.defaults.value.requests;
    var pod := Injected(spec, cs);
    assert Defaulted(pod, cs, checked);
    TotalUnprefixed(pod, cs, checked);
    SameVerdictIff(checked, Total(pod));
    if checked == Total(pod) {
      DefaultsAreTotal(pod, cs, checked);
    } else if NoneOfItsOwn(cs, checked) && OneOrNothing(checked, |cs|) {
      TotalIsDefaults(pod, cs, checked);
    }
  }

  lemma ZeroOrOne(n: nat, x: int)
    requires n == 1 || x == 0
    ensures n * x == x
  {
  }

  lemma OnlyZero(n: nat, x: int)
    requires n > 1 && n * x == x
    ensures x == 0
  {
    assert (n - 1) * x == 0;
  }

  /** The gap on a concrete pod: two containers of one cpu each pass a quota of one cpu. */
  lemma TwoContainersOneCpu()
    ensures exists spec: ProfileSpec, cs: seq<Container>, q: Quota ::
      && QuotaCheck.Admits(q, QuotaCheck.View(spec, Some(spec)))
      && !QuotaCheck.RequestsFit(q, Total(Injected(spec, cs)))
  {
    var one := map["cpu" := 1];
    var spec := ProfileSpec(None, Some(Requirements(one, map[])), [], [], None);
    var cs := [Container("a", map[], map[], [], ""), Container("b", map[], map[], [], "")];
    var pod := Injected(spec, cs);
    assert forall i :: 0 <= i < 2 ==> pod[i].requests == cs[i].requests + one;
    TotalOfSame(pod, one);
    assert Total(pod)["cpu"] == 2;
    var q := Quota(map[QuotaCheck.RequestsKey("cpu") := 1], map[]);
    assert QuotaCheck.Resources(QuotaCheck.View(spec, Some(spec))).value.requests == one;
    assert QuotaCheck.RequestsFit(q, one);
    assert QuotaCheck.Admits(q, QuotaCheck.View(spec, Some(spec)));
    assert !QuotaCheck.RequestFits(q, "cpu", 2);
  }
}
