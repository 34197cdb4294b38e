/**
 Status conditions: a list the controllers use as a map from condition type to value.
 SetCondition and RemoveCondition of the profile controller edit it in place; the
 workload-type controller has its own setter, which leaves an entry of the same status alone.
 */
module Conditions {
  import opened Kube

  datatype Status = True | False | Unknown

  /** `transition` is the last transition time; message texts are not modelled. */
  datatype Condition =
    Condition(kind: string, status: Status, reason: string, transition: nat, observedGeneration: int)

  const VALID := "Valid"
  const TEMPLATE_FOUND := "TemplateFound"
  const NAMESPACE_ALLOWED := "NamespaceAllowed"
  const DEVICE_CLASS_AVAILABLE := "DeviceClassAvailable"
  const DRA_ENABLED := "DRAEnabled"
  const DRIFTED := "Drifted"
  const TARGET_KIND_VALID := "TargetKindValid"
  const CRD_AVAILABLE := "CRDAvailable"
  const WATCH_ACTIVE := "WatchActive"

  function StatusOf(holds: bool): Status {
    if holds then True else False
  }

  function ReasonOf(holds: bool, whenTrue: string, whenFalse: string): string {
    if holds then whenTrue else whenFalse
  }

  /** The first entry of a type: what a reader of the list finds. */
  function Find(cs: seq<Condition>, kind: string): Option<Condition> {
    if cs == [] then None
    else if cs[0].kind == kind then Some(cs[0])
    else Find(cs[1..], kind)
  }

  ghost predicate Distinct(cs: seq<Condition>) {
    forall i, j :: 0 <= i < j < |cs| ==> cs[i].kind != cs[j].kind
  }

  /** isConditionTrue of the webhook: it stops at the first entry of the type. */
  method IsConditionTrue(cs: seq<Condition>, kind: string) returns (r: bool)
    ensures r <==> IsTrue(cs, kind)
  {
    for i := 0 to |cs|
      invariant Find(cs, kind) == Find(cs[i..], kind)
    {
      if cs[i].kind == kind {
        return cs[i].status == True;
      }
    }
    r := false;
  }

  predicate IsTrue(cs: seq<Condition>, kind: string) {
    Find(cs, kind).Some? && Find(cs, kind).value.status == True
  }

  /** The entry that decides: the first of its type. */
  lemma {:induction false} FindFirst(cs: seq<Condition>, kind: string, i: nat)
    requires i < |cs| && cs[i].kind == kind && forall j :: 0 <= j < i ==> cs[j].kind != kind
    ensures Find(cs, kind) == Some(cs[i]) && (IsTrue(cs, kind) <==> cs[i].status == True)
  {
    if i > 0 {
      FindFirst(cs[1..], kind, i - 1);
    }
  }

  function Updated(c: Condition, status: Status, reason: string, now: nat, generation: int): Condition {
    Condition(c.kind, status, reason, if c.status != status then now else c.transition, generation)
  }

  /** The list after setCondition. */
  function Set(cs: seq<Condition>, kind: string, status: Status, reason: string, now: nat,
      generation: int): seq<Condition> {
    if cs == [] then [Condition(kind, status, reason, now, generation)]
    else if cs[0].kind == kind then [Updated(cs[0], status, reason, now, generation)] + cs[1..]
    else [cs[0]] + Set(cs[1..], kind, status, reason, now, generation)
  }

  /** The list after removeCondition. */
  function Remove(cs: seq<Condition>, kind: string): seq<Condition> {
    if cs == [] then []
    else if cs[0].kind == kind then Remove(cs[1..], kind)
    else [cs[0]] + Remove(cs[1..], kind)
  }

  /** The list after the workload-type controller's setter: no change when the status is the same. */
  function SetOnChange(cs: seq<Condition>, kind: string, status: Status, reason: string, now: nat,
      generation: int): seq<Condition> {
    if Find(cs, kind).Some? && Find(cs, kind).value.status == status then cs
    else Set(cs, kind, status, reason, now, generation)
  }

  /** The setter that writes on change only: nothing at all is written when the status is the same. */
  lemma OnChangeMeans(cs: seq<Condition>, kind: string, status: Status, reason: string, now: nat, generation: int)
    ensures var r := SetOnChange(cs, kind, status, reason, now, generation);
      && (Find(cs, kind).Some? && Find(cs, kind).value.status == status ==> r == cs)
      && (Find(cs, kind).None? || Find(cs, kind).value.status != status ==>
            Find(r, kind) == Some(Condition(kind, status, reason, now, generation)))
      && forall k :: k != kind ==> Find(r, k) == Find(cs, k)
  {
    FindSet(cs, kind, status, reason, now, generation);
  }

  /** Setting writes its own type and no other, and moves the time only when the status changes. */
  lemma {:induction false} FindSet(cs: seq<Condition>, kind: string, status: Status, reason: string, now: nat,
      generation: int)
    ensures var r := Set(cs, kind, status, reason, now, generation);
            && (forall k :: k != kind ==> Find(r, k) == Find(cs, k))
            && Find(r, kind) == Some(Condition(kind, status, reason,
                 if Find(cs, kind).Some? && Find(cs, kind).value.status == status then Find(cs, kind).value.transition
                   else now,
                 generation))
  {
    if cs != [] && cs[0].kind != kind {
      FindSet(cs[1..], kind, status, reason, now, generation);
    }
    assert cs != [] ==> cs[0].kind != kind ==>
      ([cs[0]] + Set(cs[1..], kind, status, reason, now, generation))[1..]
        == Set(cs[1..], kind, status, reason, now, generation);
    assert cs != [] ==> ([Updated(cs[0], status, reason, now, generation)] + cs[1..])[1..] == cs[1..];
  }

  lemma {:induction false} FindRemove(cs: seq<Condition>, kind: string)
    ensures forall k :: Find(Remove(cs, kind), k) == if k == kind then None else Find(cs, k)
  {
    if cs != [] {
      FindRemove(cs[1..], kind);
      assert ([cs[0]] + Remove(cs[1..], kind))[1..] == Remove(cs[1..], kind);
    }
  }

  lemma {:induction false} FindMember(cs: seq<Condition>, kind: string)
    ensures Find(cs, kind).Some? <==> exists i :: 0 <= i < |cs| && cs[i].kind == kind
    ensures Find(cs, kind).Some? ==> Find(cs, kind).value in cs && Find(cs, kind).value.kind == kind
    ensures Distinct(cs) ==> forall c :: c in cs && c.kind == kind ==> Find(cs, kind) == Some(c)
  {
    if cs != [] {
      FindMember(cs[1..], kind);
      if cs[0].kind != kind && Find(cs, kind).Some? {
        var i :| 0 <= i < |cs[1..]| && cs[1..][i].kind == kind;
        assert cs[i + 1].kind == kind;
      }
      assert forall c :: c in cs ==> c == cs[0] || c in cs[1..];
      assert Distinct(cs) ==> Distinct(cs[1..]);
    }
  }

  lemma ConsDistinct(c: Condition, tail: seq<Condition>)
    ensures Distinct([c] + tail) <==> Distinct(tail) && forall x :: x in tail ==> x.kind != c.kind
  {
    var all := [c] + tail;
    if Distinct(all) {
      forall i, j | 0 <= i < j < |tail| ensures tail[i].kind != tail[j].kind {
        assert all[i + 1].kind != all[j + 1].kind;
      }
      forall x | x in tail ensures x.kind != c.kind {
        var i :| 0 <= i < |tail| && tail[i] == x;
        assert all[0].kind != all[i + 1].kind;
      }
    }
  }

  /** Every edit keeps the types distinct, so the list is a map. */
  lemma {:induction false} SetKeepsDistinct(cs: seq<Condition>, kind: string, status: Status, reason: string,
      now: nat, generation: int)
    requires Distinct(cs)
    ensures Distinct(Set(cs, kind, status, reason, now, generation))
    ensures forall c :: c in Set(cs, kind, status, reason, now, generation) ==> c.kind == kind || c in cs
  {
    if cs != [] {
      assert cs == [cs[0]] + cs[1..];
      ConsDistinct(cs[0], cs[1..]);
      if cs[0].kind == kind {
        ConsDistinct(Updated(cs[0], status, reason, now, generation), cs[1..]);
      } else {
        SetKeepsDistinct(cs[1..], kind, status, reason, now, generation);
        ConsDistinct(cs[0], Set(cs[1..], kind, status, reason, now, generation));
      }
    }
  }

  lemma {:induction false} RemoveKeepsDistinct(cs: seq<Condition>, kind: string)
    requires Distinct(cs)
    ensures Distinct(Remove(cs, kind))
    ensures forall c :: c in Remove(cs, kind) <==> c in cs && c.kind != kind
  {
    if cs != [] {
      assert cs == [cs[0]] + cs[1..];
      ConsDistinct(cs[0], cs[1..]);
      RemoveKeepsDistinct(cs[1..], kind);
      ConsDistinct(cs[0], Remove(cs[1..], kind));
      assert forall c :: c in cs <==> c == cs[0] || c in cs[1..];
    }
  }

  /** Entries of other types are the same before and after. */
  lemma {:induction false} SetOthers(cs: seq<Condition>, kind: string, status: Status, reason: string, now: nat,
      generation: int)
    ensures forall c: Condition :: c.kind != kind ==> (c in Set(cs, kind, status, reason, now, generation) <==> c in cs)
  {
    if cs != [] && cs[0].kind != kind {
      SetOthers(cs[1..], kind, status, reason, now, generation);
      assert forall c :: c in cs <==> c == cs[0] || c in cs[1..];
    } else if cs != [] {
      assert forall c :: c in cs <==> c == cs[0] || c in cs[1..];
      assert Updated(cs[0], status, reason, now, generation).kind == kind;
    }
  }

  lemma {:induction false} RemoveOthers(cs: seq<Condition>, kind: string)
    ensures forall c: Condition :: c.kind != kind ==> (c in Remove(cs, kind) <==> c in cs)
  {
    if cs != [] {
      RemoveOthers(cs[1..], kind);
      assert forall c :: c in cs <==> c == cs[0] || c in cs[1..];
    }
  }

  // ---- the in-place setters ----

  /** Overwriting entry i, the first of its type, is Set. */
  lemma {:induction false} SetAt(cs: seq<Condition>, i: nat, status: Status, reason: string, now: nat, generation: int)
    requires i < |cs| && forall j :: 0 <= j < i ==> cs[j].kind != cs[i].kind
    ensures Set(cs, cs[i].kind, status, reason, now, generation)
      == cs[i := Updated(cs[i], status, reason, now, generation)]
    ensures Find(cs, cs[i].kind) == Some(cs[i])
  {
    if i > 0 {
      SetAt(cs[1..], i - 1, status, reason, now, generation);
    }
  }

  lemma {:induction false} SetAbsent(cs: seq<Condition>, kind: string, status: Status, reason: string, now: nat,
      generation: int)
    requires forall j :: 0 <= j < |cs| ==> cs[j].kind != kind
    ensures Set(cs, kind, status, reason, now, generation) == cs + [Condition(kind, status, reason, now, generation)]
    ensures Find(cs, kind) == None
  {
    if cs != [] {
      SetAbsent(cs[1..], kind, status, reason, now, generation);
    }
  }

  lemma {:induction false} RemoveConcat(a: seq<Condition>, b: seq<Condition>, kind: string)
    ensures Remove(a + b, kind) == Remove(a, kind) + Remove(b, kind)
  {
    if a == [] {
      assert a + b == b;
    } else {
      assert (a + b)[1..] == a[1..] + b;
      RemoveConcat(a[1..], b, kind);
    }
  }

  /** The condition list of an object held in memory by a reconcile. */
  class ConditionList {
    var items: seq<Condition>
    const generation: int

    constructor (items: seq<Condition>, generation: int)
      ensures this.items == items && this.generation == generation
    {
      this.items, this.generation := items, generation;
    }

    method SetCondition(kind: string, status: Status, reason: string, now: nat)
      modifies this`items
      ensures items == Set(old(items), kind, status, reason, now, generation)
    {
      for i := 0 to |items|
        invariant items == old(items)
        invariant forall j :: 0 <= j < i ==> items[j].kind != kind
      {
        if items[i].kind == kind {
          SetAt(items, i, status, reason, now, generation);
          if items[i].status != status {
            items := items[i := items[i].(transition := now)];
          }
          items := items[i := items[i].(status := status, reason := reason, observedGeneration := generation)];
          return;
        }
      }
      SetAbsent(items, kind, status, reason, now, generation);
      items := items + [Condition(kind, status, reason, now, generation)];
    }

    method RemoveCondition(kind: string)
      modifies this`items
      ensures items == Remove(old(items), kind)
    {
      var kept := [];
      for i := 0 to |items|
        invariant items == old(items)
        invariant kept == Remove(items[..i], kind)
      {
        assert items[..i + 1] == items[..i] + [items[i]];
        RemoveConcat(items[..i], [items[i]], kind);
        if items[i].kind != kind {
          kept := kept + [items[i]];
        }
      }
      assert items[..|items|] == items;
      items := kept;
    }

    /** setWTCCondition. */
    method SetConditionOnChange(kind: string, isTrue: bool, reason: string, now: nat)
      modifies this`items
      ensures items == SetOnChange(old(items), kind, StatusOf(isTrue), reason, now, generation)
    {
      var status := StatusOf(isTrue);
      for i := 0 to |items|
        invariant items == old(items)
        invariant forall j :: 0 <= j < i ==> items[j].kind != kind
      {
        if items[i].kind == kind {
          SetAt(items, i, status, reason, now, generation);
          if items[i].status == status {
            return;
          }
          items := items[i := Condition(kind, status, reason, now, generation)];
          return;
        }
      }
      SetAbsent(items, kind, status, reason, now, generation);
      items := items + [Condition(kind, status, reason, now, generation)];
    }
  }
}
