/** The pod's scheduling gates: an ordered list of names shared with other controllers. */
module Gates {
  import opened Kube
  import opened Pods

  /** The list without the names in `drop`, in the same order. */
  function Without(gates: seq<string>, drop: set<string>): (r: seq<string>)
    ensures forall g :: g in r <==> g in gates && g !in drop
  {
    if gates == [] then []
    else if gates[0] in drop then Without(gates[1..], drop)
    else [gates[0]] + Without(gates[1..], drop)
  }

  /** What addSchedulingGate leaves. */
  function Added(gates: seq<string>): seq<string> {
    if SCHEDULING_GATE in gates then gates else gates + [SCHEDULING_GATE]
  }

  /** What removeSchedulingGate leaves. */
  function Removed(gates: seq<string>): seq<string> {
    Without(gates, {SCHEDULING_GATE})
  }

  lemma {:induction false} WithoutConcat(a: seq<string>, b: seq<string>, drop: set<string>)
    ensures Without(a + b, drop) == Without(a, drop) + Without(b, drop)
  {
    if a == [] {
      assert a + b == b;
    } else {
      assert (a + b)[1..] == a[1..] + b;
      WithoutConcat(a[1..], b, drop);
    }
  }

  lemma {:induction false} WithoutNothing(gates: seq<string>, drop: set<string>)
    requires forall g :: g in gates ==> g !in drop
    ensures Without(gates, drop) == gates
  {
    if gates != [] {
      WithoutNothing(gates[1..], drop);
    }
  }

  /** Dropping two sets of names in turn is dropping their union, in either order. */
  lemma {:induction false} WithoutTwice(gates: seq<string>, d1: set<string>, d2: set<string>)
    ensures Without(Without(gates, d1), d2) == Without(gates, d1 + d2)
  {
    if gates != [] {
      WithoutTwice(gates[1..], d1, d2);
    }
  }

  /** Add followed by remove: the identity exactly on the lists that did not hold the gate. */
  lemma AddRemove(gates: seq<string>)
    ensures Removed(Added(gates)) == Removed(gates)
    ensures Removed(Added(gates)) == gates <==> SCHEDULING_GATE !in gates
    ensures SCHEDULING_GATE in Added(gates) && SCHEDULING_GATE !in Removed(gates)
    ensures Added(Added(gates)) == Added(gates)
  {
    WithoutConcat(gates, [SCHEDULING_GATE], {SCHEDULING_GATE});
    assert Without([SCHEDULING_GATE], {SCHEDULING_GATE}) == [];
    if SCHEDULING_GATE !in gates {
      WithoutNothing(gates, {SCHEDULING_GATE});
    }
  }

  /** Neither adding nor removing WTO's gate disturbs the other controllers' gates. */
  lemma OthersKeepOrder(gates: seq<string>)
    ensures Without(Added(gates), {SCHEDULING_GATE}) == Without(gates, {SCHEDULING_GATE})
    ensures Without(Removed(gates), {SCHEDULING_GATE}) == Without(gates, {SCHEDULING_GATE})
  {
    AddRemove(gates);
    WithoutTwice(gates, {SCHEDULING_GATE}, {SCHEDULING_GATE});
    assert {SCHEDULING_GATE} + {SCHEDULING_GATE} == {SCHEDULING_GATE};
  }

  // ---- the in-place operations ----

  /** addSchedulingGate: a scan, then an append when the gate is not there. */
  method AddSchedulingGate(pod: Pod)
    modifies pod`gates
    ensures pod.gates == Added(old(pod.gates))
  {
    for i := 0 to |pod.gates|
      invariant pod.gates == old(pod.gates)
      invariant SCHEDULING_GATE !in pod.gates[..i]
    {
      if pod.gates[i] == SCHEDULING_GATE {
        return;
      }
    }
    pod.gates := pod.gates + [SCHEDULING_GATE];
  }

  method HasSchedulingGate(pod: Pod) returns (has: bool)
    ensures has <==> SCHEDULING_GATE in pod.gates
  {
    for i := 0 to |pod.gates|
      invariant SCHEDULING_GATE !in pod.gates[..i]
    {
      if pod.gates[i] == SCHEDULING_GATE {
        return true;
      }
    }
    has := false;
  }

  method RemoveSchedulingGate(pod: Pod)
    modifies pod`gates
    ensures pod.gates == Removed(old(pod.gates))
  {
    var gates := [];
    for i := 0 to |pod.gates|
      invariant pod.gates == old(pod.gates)
      invariant gates == Removed(pod.gates[..i])
    {
      assert pod.gates[..i + 1] == pod.gates[..i] + [pod.gates[i]];
      WithoutConcat(pod.gates[..i], [pod.gates[i]], {SCHEDULING_GATE});
      if pod.gates[i] != SCHEDULING_GATE {
        gates := gates + [pod.gates[i]];
      }
    }
    assert pod.gates[..|pod.gates|] == pod.gates;
    pod.gates := gates;
  }
}
