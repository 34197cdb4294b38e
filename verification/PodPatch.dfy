/**
 The placement write as it goes over the wire: a merge patch from the pod that was read to the
 pod with its placement set, applied by the server to whatever pod it then holds.
 */
module PodPatch {
  import opened Kube
  import opened Json
  import opened MergePatch
  import opened Placement
  import Gates

  function OfToleration(t: Toleration): Json {
    Obj(map["key" := Str(t.key), "operator" := Str(t.operator), "value" := Str(t.value), "effect" := Str(t.effect)])
  }

  function OfTolerations(ts: seq<Toleration>): Json {
    Arr(seq(|ts|, i requires 0 <= i < |ts| => OfToleration(ts[i])))
  }

  function OfGates(gs: seq<string>): Json {
    Arr(seq(|gs|, i requires 0 <= i < |gs| => Obj(map["name" := Str(gs[i])])))
  }

  /** Empty maps and lists are omitted from the object. */
  function Member(k: string, v: Json): map<string, Json> {
    if v == Obj(map[]) || v == Arr([]) then map[] else map[k := v]
  }

  /** `rest` is the encoding of every other field of the spec: containers, claims and so on. */
  function OfSpec(pod: PodObj, rest: Json): Json {
    Obj(Member("nodeSelector", OfStrings(pod.nodeSelector)) + Member("tolerations", OfTolerations(pod.tolerations))
      + Member("schedulingGates", OfGates(pod.gates)) + map["other" := rest])
  }

  function OfMeta(pod: PodObj): Json {
    Obj(Member("labels", OfStrings(pod.labels)) + Member("annotations", OfStrings(pod.annotations)))
  }

  function TwoPart(metadata: Json, spec: Json): Json {
    Obj(map["metadata" := metadata, "spec" := spec])
  }

  function OfPod(pod: PodObj, rest: Json): Json {
    TwoPart(OfMeta(pod), OfSpec(pod, rest))
  }

  /** The patch the controller sends after reading `read`. */
  function PlacementPatch(read: PodObj, node: Option<NodePlacement>, rest: Json): Json {
    Diff(OfPod(read, rest), OfPod(Placed(read, node), rest))
  }

  lemma StringsNullFree(m: StringMap)
    ensures NullFree(OfStrings(m))
  {
  }

  lemma OfMetaNullFree(pod: PodObj)
    ensures NullFree(OfMeta(pod))
  {
    StringsNullFree(pod.labels);
    StringsNullFree(pod.annotations);
    var meta := OfMeta(pod).fields;
    forall k | k in meta ensures meta[k] != Null && NullFree(meta[k]) {
      assert meta[k] == OfStrings(pod.labels) || meta[k] == OfStrings(pod.annotations);
    }
  }

  lemma OfSpecNullFree(pod: PodObj, rest: Json)
    requires rest != Null && NullFree(rest)
    ensures NullFree(OfSpec(pod, rest))
  {
    StringsNullFree(pod.nodeSelector);
    var spec := OfSpec(pod, rest).fields;
    forall k | k in spec ensures spec[k] != Null && NullFree(spec[k]) {
      if k == "nodeSelector" {
        assert spec[k] == OfStrings(pod.nodeSelector);
      } else if k == "tolerations" {
        assert spec[k] == OfTolerations(pod.tolerations);
      } else if k == "schedulingGates" {
        assert spec[k] == OfGates(pod.gates);
      } else {
        assert spec[k] == rest;
      }
    }
  }

  predicate SameAt(x: Json, y: Json, k: string)
    requires x.Obj? && y.Obj?
  {
    (k in x.fields <==> k in y.fields) && Field(x, k) == Field(y, k)
  }

  lemma SameEverywhere(x: Json, y: Json)
    requires x.Obj? && y.Obj? && forall k :: SameAt(x, y, k)
    ensures x == y
  {
    assert forall k :: k in x.fields <==> k in y.fields by {
      forall k ensures k in x.fields <==> k in y.fields {
        assert SameAt(x, y, k);
      }
    }
    forall k | k in x.fields ensures x.fields[k] == y.fields[k] {
      assert SameAt(x, y, k);
    }
    assert x.fields == y.fields;
  }

  // ---- the encoding tells the fields apart ----

  lemma StringsTell(a: StringMap, b: StringMap)
    requires OfStrings(a) == OfStrings(b)
    ensures a == b
  {
    assert OfStrings(a).fields.Keys == a.Keys && OfStrings(b).fields.Keys == b.Keys;
    forall k | k in a ensures a[k] == b[k] {
      assert OfStrings(a).fields[k] == Str(a[k]) && OfStrings(b).fields[k] == Str(b[k]);
    }
  }

  lemma TolerationsTell(a: seq<Toleration>, b: seq<Toleration>)
    requires OfTolerations(a) == OfTolerations(b)
    ensures a == b
  {
    assert |OfTolerations(a).items| == |a| && |OfTolerations(b).items| == |b|;
    forall i | 0 <= i < |a| ensures a[i] == b[i] {
      assert OfTolerations(a).items[i] == OfToleration(a[i]) && OfTolerations(b).items[i] == OfToleration(b[i]);
      var x, y := OfToleration(a[i]).fields, OfToleration(b[i]).fields;
      assert x["key"] == y["key"] && x["operator"] == y["operator"];
      assert x["value"] == y["value"] && x["effect"] == y["effect"];
    }
  }

  /** A member of the encoding: absent exactly for the empty value, else the value under its own name. */
  lemma MembersAt(pod: PodObj, rest: Json)
    ensures var spec := OfSpec(pod, rest);
      && Field(spec, "nodeSelector") == (if pod.nodeSelector == map[] then Null else OfStrings(pod.nodeSelector))
      && Field(spec, "tolerations") == (if pod.tolerations == [] then Null else OfTolerations(pod.tolerations))
  {
    assert OfStrings(pod.nodeSelector) == Obj(map[]) <==> pod.nodeSelector == map[] by {
      assert OfStrings(pod.nodeSelector).fields.Keys == pod.nodeSelector.Keys;
    }
    assert OfTolerations(pod.tolerations) == Arr([]) <==> pod.tolerations == [];
  }

  /** Two pods of one encoding have one selector, one list of tolerations and one of gates. */
  lemma SpecTells(a: PodObj, b: PodObj, rest: Json)
    requires OfSpec(a, rest) == OfSpec(b, rest)
    ensures a.nodeSelector == b.nodeSelector && a.tolerations == b.tolerations && a.gates == b.gates
  {
    MembersAt(a, rest);
    MembersAt(b, rest);
    SpecGates(a, rest);
    SpecGates(b, rest);
    if a.nodeSelector != map[] && b.nodeSelector != map[] {
      StringsTell(a.nodeSelector, b.nodeSelector);
    }
    if a.tolerations != [] && b.tolerations != [] {
      TolerationsTell(a.tolerations, b.tolerations);
    }
    if a.gates != [] && b.gates != [] {
      GatesEncoded(a.gates, b.gates);
    }
  }

  lemma MetaMembersAt(pod: PodObj)
    ensures var meta := OfMeta(pod);
      && Field(meta, "labels") == (if pod.labels == map[] then Null else OfStrings(pod.labels))
      && Field(meta, "annotations") == (if pod.annotations == map[] then Null else OfStrings(pod.annotations))
  {
    assert OfStrings(pod.labels) == Obj(map[]) <==> pod.labels == map[] by {
      assert OfStrings(pod.labels).fields.Keys == pod.labels.Keys;
    }
    assert OfStrings(pod.annotations) == Obj(map[]) <==> pod.annotations == map[] by {
      assert OfStrings(pod.annotations).fields.Keys == pod.annotations.Keys;
    }
  }

  /** The whole encoding: every field the patch speaks of can be read back from it. */
  lemma PodTells(a: PodObj, b: PodObj, rest: Json)
    requires OfPod(a, rest) == OfPod(b, rest)
    ensures a.labels == b.labels && a.annotations == b.annotations
    ensures a.nodeSelector == b.nodeSelector && a.tolerations == b.tolerations && a.gates == b.gates
  {
    assert OfPod(a, rest).fields["metadata"] == OfMeta(a) && OfPod(b, rest).fields["metadata"] == OfMeta(b);
    assert OfPod(a, rest).fields["spec"] == OfSpec(a, rest) && OfPod(b, rest).fields["spec"] == OfSpec(b, rest);
    SpecTells(a, b, rest);
    MetaMembersAt(a);
    MetaMembersAt(b);
    if a.labels != map[] && b.labels != map[] {
      StringsTell(a.labels, b.labels);
    }
    if a.annotations != map[] && b.annotations != map[] {
      StringsTell(a.annotations, b.annotations);
    }
  }

  /** A patch that moves the spec alone, met by any metadata. */
  lemma SpecPatch(read: Json, meta: Json, spec: Json, placed: Json)
    requires NullFree(read) && read != Null && NullFree(placed) && placed != Null
    ensures Apply(TwoPart(meta, spec), Diff(TwoPart(read, spec), TwoPart(read, placed))) == TwoPart(meta, placed)
  {
    var a, b, c := TwoPart(read, spec), TwoPart(read, placed), TwoPart(meta, spec);
    var r, target := Apply(c, Diff(a, b)), TwoPart(meta, placed);
    forall k ensures SameAt(r, target, k) {
      AppliedAt(a, b, c, k);
    }
    SameEverywhere(r, target);
  }

  /** The same patch delivered again. */
  lemma SpecPatchAgain(read: Json, meta: Json, spec: Json, placed: Json)
    requires NullFree(read) && read != Null && NullFree(placed) && placed != Null
    ensures Apply(TwoPart(meta, placed), Diff(TwoPart(read, spec), TwoPart(read, placed))) == TwoPart(meta, placed)
  {
    Replay(TwoPart(read, spec), TwoPart(read, placed), TwoPart(meta, placed));
  }

  /**
   First delivery: on a pod whose spec is still the one read, with labels and annotations
   changed in the meantime, the patch sets the placement and keeps those changes. Any further
   delivery, with labels changed yet again, finds nothing to change.
   */
  lemma PlacementPatchReplays(read: PodObj, node: Option<NodePlacement>, rest: Json, labels: StringMap,
      annotations: StringMap)
    requires rest != Null && NullFree(rest)
    ensures var placed := Placed(read, node).(labels := labels, annotations := annotations);
      && Apply(OfPod(read.(labels := labels, annotations := annotations), rest), PlacementPatch(read, node, rest))
        == OfPod(placed, rest)
      && Apply(OfPod(placed, rest), PlacementPatch(read, node, rest)) == OfPod(placed, rest)
  {
    var placed := Placed(read, node);
    OfMetaNullFree(read);
    OfSpecNullFree(placed, rest);
    assert OfMeta(read) == OfMeta(placed);
    var now := read.(labels := labels, annotations := annotations);
    SpecPatch(OfMeta(read), OfMeta(now), OfSpec(read, rest), OfSpec(placed, rest));
    SpecPatchAgain(OfMeta(read), OfMeta(now), OfSpec(read, rest), OfSpec(placed, rest));
    assert OfSpec(now, rest) == OfSpec(read, rest);
    var after := placed.(labels := labels, annotations := annotations);
    assert OfSpec(after, rest) == OfSpec(placed, rest) && OfMeta(after) == OfMeta(now);
  }

  // ---- a stale copy of the gates ----

  /** A list is carried whole: whatever the object held there, it gets b's. */
  lemma ListReplaced(a: Json, b: Json, c: Json, k: string)
    requires a.Obj? && b.Obj? && c.Obj? && Differs(a, b, k) && (k in b.fields ==> b.fields[k].Arr?)
    ensures var r := Apply(c, Diff(a, b)); (k in r.fields <==> k in b.fields) && Field(r, k) == Field(b, k)
  {
  }

  /** An object is patched inside. */
  lemma NestedAt(a: Json, b: Json, c: Json, k: string)
    requires a.Obj? && b.Obj? && c.Obj? && Differs(a, b, k) && k in a.fields && k in b.fields && k in c.fields
    requires a.fields[k].Obj? && b.fields[k].Obj?
    ensures var r := Apply(c, Diff(a, b));
      k in r.fields && r.fields[k] == Apply(c.fields[k], Diff(a.fields[k], b.fields[k]))
  {
    assert DiffAt(a, b, k) == Diff(a.fields[k], b.fields[k]);
    assert Diff(a, b).fields[k] == DiffAt(a, b, k);
  }

  lemma GatesEncoded(a: seq<string>, b: seq<string>)
    requires OfGates(a) == OfGates(b)
    ensures a == b
  {
    assert |OfGates(a).items| == |a| && |OfGates(b).items| == |b|;
    forall i | 0 <= i < |a| ensures a[i] == b[i] {
      assert OfGates(a).items[i].fields["name"] == Str(a[i]);
      assert OfGates(b).items[i].fields["name"] == Str(b[i]);
    }
  }

  const GATES := "schedulingGates"

  lemma SpecGates(pod: PodObj, rest: Json)
    ensures var spec := OfSpec(pod, rest);
      (GATES in spec.fields <==> pod.gates != []) && (pod.gates != [] ==> Field(spec, GATES) == OfGates(pod.gates))
  {
    assert OfGates(pod.gates) == Arr([]) <==> pod.gates == [];
  }

  lemma SpecElsewhere(a: PodObj, b: PodObj, rest: Json, k: string)
    requires a.nodeSelector == b.nodeSelector && a.tolerations == b.tolerations && k != GATES
    ensures SameAt(OfSpec(a, rest), OfSpec(b, rest), k)
  {
  }

  lemma GatesDiffer(read: PodObj, placed: PodObj, rest: Json)
    requires SCHEDULING_GATE in read.gates && SCHEDULING_GATE !in placed.gates
    ensures Differs(OfSpec(read, rest), OfSpec(placed, rest), GATES)
  {
    SpecGates(read, rest);
    SpecGates(placed, rest);
    if OfGates(read.gates) == OfGates(placed.gates) {
      GatesEncoded(read.gates, placed.gates);
    }
  }

  /** The spec of a pod that lost or gained gates since it was read, after the patch. */
  lemma StaleSpec(read: PodObj, node: Option<NodePlacement>, rest: Json, gates: seq<string>)
    requires rest != Null && NullFree(rest) && SCHEDULING_GATE in read.gates
    ensures OfSpec(read, rest) != OfSpec(Placed(read, node), rest)
    ensures var placed := Placed(read, node);
      Apply(OfSpec(read.(gates := gates), rest), Diff(OfSpec(read, rest), OfSpec(placed, rest))) == OfSpec(placed, rest)
  {
    var placed := Placed(read, node);
    var a, b, c := OfSpec(read, rest), OfSpec(placed, rest), OfSpec(read.(gates := gates), rest);
    OfSpecNullFree(placed, rest);
    GatesDiffer(read, placed, rest);
    var r := Apply(c, Diff(a, b));
    forall k ensures SameAt(r, b, k) {
      if k == GATES {
        SpecGates(placed, rest);
        ListReplaced(a, b, c, k);
      } else {
        SpecElsewhere(read, read.(gates := gates), rest, k);
        AppliedAt(a, b, c, k);
      }
    }
    SameEverywhere(r, b);
  }

  /**
   The patch carries the gate list whole. Met by a pod from which other controllers have removed
   gates since it was read, it writes the list of the read back without WTO's gate: those gates
   stay removed exactly when none of them was on the pod as read.
   */
  lemma StaleGatesKeptIff(read: PodObj, node: Option<NodePlacement>, rest: Json, dropped: set<string>,
                          labels: StringMap, annotations: StringMap)
    requires rest != Null && NullFree(rest) && SCHEDULING_GATE in read.gates && SCHEDULING_GATE !in dropped
    ensures var now := read.(gates := Gates.Without(read.gates, dropped), labels := labels, annotations := annotations);
      var after := Placed(read, node).(labels := labels, annotations := annotations);
      && Apply(OfPod(now, rest), PlacementPatch(read, node, rest)) == OfPod(after, rest)
      && (after.gates == Gates.Removed(now.gates) <==> forall g :: g in dropped ==> g !in read.gates)
  {
    var now := read.(gates := Gates.Without(read.gates, dropped), labels := labels, annotations := annotations);
    var placed := Placed(read, node);
    var after := placed.(labels := labels, annotations := annotations);
    OfMetaNullFree(read);
    OfSpecNullFree(placed, rest);
    StaleSpec(read, node, rest, now.gates);
    var meta, spec, target := OfMeta(read), OfSpec(read, rest), OfSpec(placed, rest);
    assert OfMeta(placed) == meta && OfMeta(after) == OfMeta(now) && OfSpec(after, rest) == target;
    assert OfSpec(now, rest) == OfSpec(read.(gates := now.gates), rest);
    SpecDelivered(meta, OfMeta(now), spec, target, OfSpec(now, rest));
    StaleGates(read.gates, dropped);
  }

  /** A patch of the spec, delivered to another spec under other metadata. */
  lemma SpecDelivered(read: Json, meta: Json, spec: Json, placed: Json, stale: Json)
    requires NullFree(read) && read != Null && NullFree(placed) && placed != Null
    requires spec.Obj? && placed.Obj? && spec != placed && Apply(stale, Diff(spec, placed)) == placed
    ensures Apply(TwoPart(meta, stale), Diff(TwoPart(read, spec), TwoPart(read, placed))) == TwoPart(meta, placed)
  {
    var a, b, c := TwoPart(read, spec), TwoPart(read, placed), TwoPart(meta, stale);
    var r, target := Apply(c, Diff(a, b)), TwoPart(meta, placed);
    forall k ensures SameAt(r, target, k) {
      if k == "spec" {
        NestedAt(a, b, c, k);
      } else {
        AppliedAt(a, b, c, k);
      }
    }
    SameEverywhere(r, target);
  }

  lemma StaleGates(gates: seq<string>, dropped: set<string>)
    requires SCHEDULING_GATE !in dropped
    ensures Gates.Removed(gates) == Gates.Removed(Gates.Without(gates, dropped))
      <==> forall g :: g in dropped ==> g !in gates
  {
    if forall g :: g in dropped ==> g !in gates {
      Gates.WithoutNothing(gates, dropped);
    } else {
      var g :| g in dropped && g in gates;
      assert g in Gates.Removed(gates) && g !in Gates.Removed(Gates.Without(gates, dropped));
    }
  }
}
