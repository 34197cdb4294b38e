/**
 A deletion completes. The worker ends what it is doing by its own steps, placement lets the gated
 pods of the terminating profile go, and one handleDeletion removes it.
 */
module Progress {
  import opened Kube
  import opened Profiles
  import opened Placement
  import opened Protocol
  import opened Safety
  import opened Effects
  import opened Reconciles
  import QuotaCheck
  import Gates

  // ---- gated pods only come in by admission ----

  /** In every step but the create of an admitted pod, the gated pods of every profile are among those before. */
  lemma GatedPodsRiseOnlyByCreate(s: State, a: Step, key: Key)
    requires !a.AdmitCreate?
    ensures GatedPods(Next(s, a), key) <= GatedPods(s, key)
  {
    if Away(a) { AwayFromPods(s, a); }
    else if a.ListGated? || a.RemoveFinalizer? { DeletionAway(s, a); }
    else if a.Place? { PlaceNeverRaises(s, key, a.key, a.quotaListFails, a.patchFails); }
    else if a.EditPodLabels? || a.DropForeignGate? { EditNeverRaises(s, a, key); }
  }

  /** A write that neither renames the profile nor adds the gate. */
  lemma WriteNeverRaises(s: State, pod: Key, rec: PodRec, key: Key)
    requires pod in s.pods && rec.pod.annotations == s.pods[pod].pod.annotations
    requires SCHEDULING_GATE in rec.pod.gates ==> SCHEDULING_GATE in s.pods[pod].pod.gates
    ensures GatedPods(Tick(WithPod(s, pod, rec)), key) <= GatedPods(s, key)
  {
  }

  lemma PlaceNeverRaises(s: State, key: Key, pod: Key, quotaListFails: bool, patchFails: bool)
    ensures GatedPods(Next(s, Place(pod, quotaListFails, patchFails)), key) <= GatedPods(s, key)
  {
    if pod in s.pods {
      WriteNeverRaises(s, pod, AfterPatch(s.pods[pod], Decide(s, pod, quotaListFails)), key);
    }
  }

  lemma EditNeverRaises(s: State, a: Step, key: Key)
    requires a.EditPodLabels? || a.DropForeignGate?
    ensures GatedPods(Next(s, a), key) <= GatedPods(s, key)
  {
    if a.key in s.pods {
      if a.EditPodLabels? {
        WriteNeverRaises(s, a.key, Relabelled(s.pods[a.key], a.labels), key);
      } else {
        WriteNeverRaises(s, a.key, WithoutGate(s.pods[a.key], a.gate), key);
      }
    }
  }

  // ---- draining ----

  /** What is left to do before a terminating profile is gone. */
  function Measure(s: State, key: Key): nat {
    |GatedPods(s, key)| + if key in s.profiles then 1 else 0
  }

  /** Gone, or terminating and protected with quotas that admit it. No object's name is empty. */
  ghost predicate Draining(s: State, key: Key) {
    && key.name != ""
    && (key in s.profiles ==>
          && s.profiles[key].deleting && s.profiles[key].finalizer
          && QuotaCheck.AllAdmit(QuotasOf(s, key.namespace), ViewOf(s.profiles[key])))
  }

  /** The decision for its gated pods: with its placement, or without once it is gone. */
  function Release(s: State, key: Key): Decision {
    if key in s.profiles then UngatePlaced(NodeOf(Effective(ViewOf(s.profiles[key])))) else UngateMissing
  }

  /** The state after a placement step of one of its gated pods. */
  function Drained(s: State, key: Key, pod: Key): State
    requires pod in s.pods
  {
    Tick(WithPod(s, pod, AfterPatch(s.pods[pod], Release(s, key))))
  }

  lemma PlaceDrains(s: State, key: Key, pod: Key, quotaListFails: bool)
    requires Draining(s, key) && pod in GatedPods(s, key)
    ensures Next(s, Place(pod, quotaListFails, false)) == Drained(s, key, pod)
  {
    assert Decide(s, pod, quotaListFails) == Release(s, key);
  }

  lemma DrainedOne(s: State, key: Key, pod: Key)
    requires Draining(s, key) && pod in GatedPods(s, key)
    ensures Draining(Drained(s, key, pod), key)
    ensures GatedPods(Drained(s, key, pod), key) == GatedPods(s, key) - {pod}
    ensures pod in Drained(s, key, pod).pods && SCHEDULING_GATE !in Drained(s, key, pod).pods[pod].pod.gates
  {
    Gates.AddRemove(s.pods[pod].pod.gates);
    var t := Drained(s, key, pod);
    forall k ensures k in GatedPods(t, key) <==> k in GatedPods(s, key) - {pod} {
      if k in t.pods && k != pod {
        assert t.pods[k] == s.pods[k];
      }
    }
  }

  /** Each placement step of a gated pod of the profile lowers the measure by one. */
  lemma PlaceLowers(s: State, key: Key, pod: Key, quotaListFails: bool)
    requires Draining(s, key) && pod in GatedPods(s, key)
    ensures var t := Next(s, Place(pod, quotaListFails, false));
      Draining(t, key) && Measure(t, key) == Measure(s, key) - 1
  {
    PlaceDrains(s, key, pod, quotaListFails);
    DrainedOne(s, key, pod);
  }

  /** One handleDeletion with no gated pod left: the profile is gone, and with it what it controlled. */
  lemma DeletionFinishes(s: State, key: Key)
    requires Draining(s, key) && s.worker.Idle? && GatedPods(s, key) == {}
    ensures var t := DeletionStep(s, key, NO_FAULTS);
      && key !in t.profiles && t.pods == s.pods
      && (key !in s.profiles ==> t == s)
      && (key in s.profiles ==> t.rcts == Collected(s.rcts, s.profiles[key].uid))
  {
  }

  /** The run that places these pods, one after the other. */
  function Placing(order: seq<Key>): (steps: seq<Step>)
    ensures |steps| == |order| && forall i :: 0 <= i < |order| ==> steps[i] == Place(order[i], false, false)
  {
    seq(|order|, i requires 0 <= i < |order| => Place(order[i], false, false))
  }

  /** Pods placed so far are let go, and only they have left the profile's gated pods. */
  ghost predicate Progressed(s: State, t: State, key: Key, order: seq<Key>) {
    && Draining(t, key) && t.worker == s.worker && t.profiles == s.profiles && t.rcts == s.rcts
    && GatedPods(t, key) == GatedPods(s, key) - (set k | k in order)
    && forall k :: k in order ==> k in t.pods && SCHEDULING_GATE !in t.pods[k].pod.gates
  }

  lemma OneMore(s: State, t: State, key: Key, order: seq<Key>, pod: Key)
    requires Progressed(s, t, key, order) && pod in GatedPods(s, key) && pod !in order
    ensures pod in GatedPods(t, key) && Progressed(s, Drained(t, key, pod), key, order + [pod])
  {
    DrainedOne(t, key, pod);
    assert (set k | k in order + [pod]) == (set k | k in order) + {pod};
  }

  ghost predicate Distinctly(order: seq<Key>) {
    forall i, j :: 0 <= i < j < |order| ==> order[i] != order[j]
  }

  lemma PlacingSnoc(s: State, rest: seq<Key>, last: Key)
    ensures Run(s, Placing(rest + [last])) == Next(Run(s, Placing(rest)), Place(last, false, false))
  {
    assert Placing(rest) + [Place(last, false, false)] == Placing(rest + [last]);
    RunSnoc(s, Placing(rest), Place(last, false, false));
  }

  lemma PlacedOneMore(s: State, t: State, key: Key, order: seq<Key>, pod: Key)
    requires Progressed(s, t, key, order) && pod in GatedPods(s, key) && pod !in order
    ensures Progressed(s, Next(t, Place(pod, false, false)), key, order + [pod])
  {
    OneMore(s, t, key, order, pod);
    PlaceDrains(t, key, pod, false);
  }

  lemma {:induction false} PlacingFirst(s: State, key: Key, order: seq<Key>, n: nat)
    requires Draining(s, key) && n <= |order| && Distinctly(order) && forall k :: k in order ==> k in GatedPods(s, key)
    ensures Progressed(s, Run(s, Placing(order[..n])), key, order[..n])
  {
    if n == 0 {
      assert Run(s, Placing(order[..0])) == s;
    } else {
      PlacingFirst(s, key, order, n - 1);
      var rest, last := order[..n - 1], order[n - 1];
      assert order[..n] == rest + [last] && last in order && last !in rest;
      PlacedOneMore(s, Run(s, Placing(rest)), key, rest, last);
      PlacingSnoc(s, rest, last);
    }
  }

  /** Any order in which each gated pod of the profile is placed once lets all of them go. */
  lemma PlacingDrains(s: State, key: Key, order: seq<Key>)
    requires Draining(s, key) && (forall k :: k in order ==> k in GatedPods(s, key)) && Distinctly(order)
    ensures Progressed(s, Run(s, Placing(order)), key, order)
  {
    PlacingFirst(s, key, order, |order|);
    assert order[..|order|] == order;
  }

  lemma {:induction false} SetOfDistinct(order: seq<Key>)
    requires Distinctly(order)
    ensures |set k | k in order| == |order|
  {
    if order != [] {
      SetOfDistinct(order[1..]);
      assert (set k | k in order) == {order[0]} + (set k | k in order[1..]);
    }
  }

  // ---- the worker ends what it is doing ----

  /** The rest of the reconcile under way, undisturbed and with no request failing. */
  function Settled(s: State, answers: Answers): State {
    match s.worker
    case Idle => s
    case Resolving(_, _) => FromResolve(s, answers, NO_FAULTS)
    case Ensuring(_, _, _, _, _) => FromEnsure(s, answers, NO_FAULTS)
    case Removing(_, _, _) => Tick(RemoveFinalizerStep(s))
  }

  /** It is a run of the worker's own steps, with no abort, after which it is idle. */
  lemma SettledIsRun(s: State, answers: Answers) returns (steps: seq<Step>)
    ensures Settled(s, answers) == Run(s, steps) && AllOwn(steps, NO_FAULTS)
    ensures Settled(s, answers).worker.Idle?
  {
    match s.worker
    case Idle =>
      steps := [];
    case Resolving(_, _) =>
      FromResolveIdles(s, answers, NO_FAULTS);
      steps := FromResolveIsRun(s, answers, NO_FAULTS);
    case Ensuring(_, _, _, _, _) =>
      FromEnsureIdles(s, answers, NO_FAULTS);
      steps := FromEnsureIsRun(s, answers, NO_FAULTS);
    case Removing(_, _, _) =>
      RemoveNext(s);
      steps := [RemoveFinalizer];
      OneStep(s, RemoveFinalizer);
  }

  /** What no step of the worker changes for a terminating profile: it stays that, or it is gone. */
  ghost predicate StillTerminating(s: State, t: State, key: Key, uid: nat) {
    && t.pods == s.pods && t.ids.keyOf == s.ids.keyOf
    && (key in t.profiles ==> t.profiles[key].deleting && t.profiles[key].uid == uid)
  }

  lemma PatchedTerminating(s: State, at: Key, base: ProfileStatus, modified: ProfileStatus, key: Key, uid: nat)
    requires key in s.profiles ==> s.profiles[key].deleting && s.profiles[key].uid == uid
    ensures StillTerminating(s, Patched(s, at, base, modified), key, uid)
  {
    if at in s.profiles {
    }
  }

  lemma ResolveTerminating(s: State, key: Key, uid: nat)
    requires s.worker.Resolving? && (key in s.profiles ==> s.profiles[key].deleting && s.profiles[key].uid == uid)
    ensures StillTerminating(s, ResolveStep(s), key, uid)
  {
    match ResolveSpec(s.worker.read, s.env.templates, LabelsOf(s, s.worker.key.namespace), s.clock)
    case Aborted =>
    case Refused(stored) => PatchedTerminating(s, s.worker.key, s.worker.read.status, stored.status, key, uid);
    case Resolved(mem, spec) =>
  }

  lemma EnsureTerminating(s: State, key: Key, uid: nat)
    requires s.worker.Ensuring? && s.worker.done < |s.worker.spec.deviceClaims|
    requires key in s.profiles ==> s.profiles[key].deleting && s.profiles[key].uid == uid
    ensures StillTerminating(s, EnsureStep(s), key, uid)
  {
  }

  lemma BeginTerminating(s: State, at: Key, key: Key, uid: nat)
    requires at in s.profiles && (key in s.profiles ==> s.profiles[key].deleting && s.profiles[key].uid == uid)
    ensures StillTerminating(s, Begun(s, at), key, uid)
  {
  }

  lemma RemovalTerminating(s: State, key: Key, uid: nat)
    requires s.worker.Removing? && (key in s.profiles ==> s.profiles[key].deleting && s.profiles[key].uid == uid)
    ensures StillTerminating(s, RemoveFinalizerStep(s), key, uid)
  {
  }

  lemma FinishTerminating(s: State, answers: Answers, key: Key, uid: nat)
    requires s.worker.Ensuring? && (key in s.profiles ==> s.profiles[key].deleting && s.profiles[key].uid == uid)
    ensures StillTerminating(s, FinishStep(s, answers), key, uid)
  {
    PatchedTerminating(s, s.worker.key, s.worker.mem.status, Final(s, answers).status, key, uid);
  }

  lemma EndsTerminating(s: State, a: Step, key: Key, uid: nat)
    requires a.Begin? || a.ListGated? || a.RemoveFinalizer?
    requires key in s.profiles ==> s.profiles[key].deleting && s.profiles[key].uid == uid
    ensures StillTerminating(s, Act(s, a), key, uid)
  {
    if a.Begin? { if a.key in s.profiles { BeginTerminating(s, a.key, key, uid); } }
    else if a.RemoveFinalizer? { if s.worker.Removing? { RemovalTerminating(s, key, uid); } }
  }

  lemma WorkTerminating(s: State, a: Step, key: Key, uid: nat)
    requires a.Resolve? || a.Ensure? || a.Finish?
    requires key in s.profiles ==> s.profiles[key].deleting && s.profiles[key].uid == uid
    ensures StillTerminating(s, Act(s, a), key, uid)
  {
    if a.Resolve? { if s.worker.Resolving? { ResolveTerminating(s, key, uid); } }
    else if a.Ensure? {
      if s.worker.Ensuring? && s.worker.done < |s.worker.spec.deviceClaims| { EnsureTerminating(s, key, uid); }
    } else if s.worker.Ensuring? { FinishTerminating(s, a.answers, key, uid); }
  }

  lemma OwnTerminating(s: State, a: Step, key: Key, uid: nat)
    requires Own(a, NO_FAULTS) && (key in s.profiles ==> s.profiles[key].deleting && s.profiles[key].uid == uid)
    ensures StillTerminating(s, Next(s, a), key, uid)
  {
    if a.Resolve? || a.Ensure? || a.Finish? { WorkTerminating(s, a, key, uid); }
    else { EndsTerminating(s, a, key, uid); }
  }

  lemma {:induction false} OwnRunTerminating(s: State, steps: seq<Step>, key: Key, uid: nat)
    requires AllOwn(steps, NO_FAULTS) && key in s.profiles && s.profiles[key].deleting && s.profiles[key].uid == uid
    ensures StillTerminating(s, Run(s, steps), key, uid)
    decreases |steps|
  {
    if steps != [] {
      var n := |steps| - 1;
      OwnRunTerminating(s, steps[..n], key, uid);
      assert Own(steps[n], NO_FAULTS);
      OwnTerminating(Run(s, steps[..n]), steps[n], key, uid);
    }
  }

  // ---- the whole way ----

  /** The pods are let go, the profile is gone, and nothing it controlled is left. */
  ghost predicate Completed(s: State, done: State, key: Key, uid: nat) {
    && key !in done.profiles
    && (forall k :: k in GatedPods(s, key) ==> k in done.pods && SCHEDULING_GATE !in done.pods[k].pod.gates)
    && forall k :: k in done.rcts ==> done.rcts[k].owner != Some(uid)
  }

  lemma GoneOwnsNothing(t: State, key: Key, uid: nat)
    requires Inv(t) && key !in t.profiles && uid in t.ids.keyOf && t.ids.keyOf[uid] == key
    ensures forall k :: k in t.rcts ==> t.rcts[k].owner != Some(uid)
  {
    assert !Live(t, uid);
  }

  /** Once the worker is idle: the placements in any order, then one handleDeletion. */
  lemma IdleCompletes(t: State, key: Key, uid: nat, order: seq<Key>)
    requires Inv(t) && Draining(t, key) && t.worker.Idle? && Distinctly(order)
    requires (set k | k in order) == GatedPods(t, key)
    requires uid in t.ids.keyOf && t.ids.keyOf[uid] == key && (key in t.profiles ==> t.profiles[key].uid == uid)
    ensures Completed(t, DeletionStep(Run(t, Placing(order)), key, NO_FAULTS), key, uid)
  {
    assert forall k :: k in order ==> k in (set x | x in order);
    PlacingDrains(t, key, order);
    DeletionFinishes(Run(t, Placing(order)), key);
    if key !in t.profiles {
      GoneOwnsNothing(t, key, uid);
    }
  }

  /** The steps of the completing run: the worker's own, and placements whose patch goes through. */
  ghost predicate Ordinary(steps: seq<Step>) {
    forall a :: a in steps ==> Own(a, NO_FAULTS) || (a.Place? && !a.quotaListFails && !a.patchFails)
  }

  /** The profile, where it still is when the worker has settled, is admitted by the quotas. */
  ghost predicate QuotasAdmit(t: State, key: Key) {
    key in t.profiles ==> QuotaCheck.AllAdmit(QuotasOf(t, key.namespace), ViewOf(t.profiles[key]))
  }

  lemma TerminatingSettles(s: State, key: Key, answers: Answers) returns (steps: seq<Step>)
    requires Inv(s) && key.name != "" && key in s.profiles && s.profiles[key].deleting
    ensures Settled(s, answers) == Run(s, steps) && AllOwn(steps, NO_FAULTS)
    ensures var t := Settled(s, answers);
      && Inv(t) && t.worker.Idle? && GatedPods(t, key) == GatedPods(s, key)
      && (QuotasAdmit(t, key) ==> Draining(t, key))
      && s.profiles[key].uid in t.ids.keyOf && t.ids.keyOf[s.profiles[key].uid] == key
      && (key in t.profiles ==> t.profiles[key].uid == s.profiles[key].uid)
  {
    steps := SettledIsRun(s, answers);
    RunKeepsInv(s, steps);
    OwnRunTerminating(s, steps, key, s.profiles[key].uid);
  }

  /**
   From any state of the invariant with a terminating profile, whatever the worker is doing: it ends
   that by its own steps; then, with quotas that admit the profile if it is still there, placing its
   gated pods in any order and one handleDeletion let all of them go and remove the profile and what
   it controlled. No step of that run is a failure, and after settling the placements and the
   deletion are as many as the measure.
   */
  lemma DeletionCompletes(s: State, key: Key, answers: Answers, order: seq<Key>) returns (steps: seq<Step>)
    requires Inv(s) && key.name != "" && key in s.profiles && s.profiles[key].deleting
    requires QuotasAdmit(Settled(s, answers), key)
    requires Distinctly(order) && (set k | k in order) == GatedPods(s, key)
    ensures Ordinary(steps) && Completed(s, Run(s, steps), key, s.profiles[key].uid)
    ensures var t := Settled(s, answers); |order| + (if key in t.profiles then 1 else 0) == Measure(t, key)
  {
    var first := TerminatingSettles(s, key, answers);
    var t := Settled(s, answers);
    SetOfDistinct(order);
    IdleCompletes(t, key, s.profiles[key].uid, order);
    var last := DeletionIsRun(Run(t, Placing(order)), key, NO_FAULTS);
    steps := first + Placing(order) + last;
    RunConcat(s, first, Placing(order));
    RunConcat(s, first + Placing(order), last);
  }

  /** The same over runs: in a reachable state a terminating profile needs nothing else. */
  lemma TerminatingProfileGoes(past: seq<Step>, key: Key, answers: Answers, order: seq<Key>) returns (steps: seq<Step>)
    requires key.name != "" && key in Run(INITIAL, past).profiles && Run(INITIAL, past).profiles[key].deleting
    requires QuotasAdmit(Settled(Run(INITIAL, past), answers), key)
    requires Distinctly(order) && (set k | k in order) == GatedPods(Run(INITIAL, past), key)
    ensures Ordinary(steps)
    ensures var s := Run(INITIAL, past); Completed(s, Run(INITIAL, past + steps), key, s.profiles[key].uid)
  {
    InvRun(past);
    steps := DeletionCompletes(Run(INITIAL, past), key, answers, order);
    RunConcat(INITIAL, past, steps);
  }

  // ---- every run without admissions ----

  /** The quotas admit the profile, if it is there. */
  ghost predicate Admitting(s: State, key: Key) {
    key.name != "" && QuotasAdmit(s, key)
  }

  /** A successful placement of a gated pod, when the quotas admit its profile, takes it out for good. */
  lemma PlacedIsOut(s: State, key: Key, pod: Key, quotaListFails: bool)
    requires Admitting(s, key)
    ensures pod !in GatedPods(Next(s, Place(pod, quotaListFails, false)), key)
  {
    if pod in GatedPods(s, key) {
      var d := Decide(s, pod, quotaListFails);
      assert d == Release(s, key);
      Gates.AddRemove(s.pods[pod].pod.gates);
      assert Next(s, Place(pod, quotaListFails, false)) == Drained(s, key, pod);
    } else {
      PlaceNeverRaises(s, key, pod, quotaListFails, false);
    }
  }

  lemma {:induction false} GatedPodsOnlyLeave(s: State, more: seq<Step>, key: Key)
    requires forall a :: a in more ==> !a.AdmitCreate?
    ensures GatedPods(Run(s, more), key) <= GatedPods(s, key)
    decreases |more|
  {
    if more != [] {
      var n := |more| - 1;
      GatedPodsOnlyLeave(s, more[..n], key);
      assert more[n] in more;
      GatedPodsRiseOnlyByCreate(Run(s, more[..n]), more[n], key);
    }
  }

  /** Step i of the run placed the pod, with a patch that went through and quotas that admitted its profile. */
  ghost predicate PlacedAt(s: State, more: seq<Step>, i: nat, key: Key, pod: Key) {
    && i < |more| && more[i].Place? && more[i].key == pod && !more[i].patchFails
    && Admitting(Run(s, more[..i]), key)
  }

  lemma PlacedStaysOut(s: State, more: seq<Step>, i: nat, key: Key, pod: Key)
    requires (forall a :: a in more ==> !a.AdmitCreate?) && PlacedAt(s, more, i, key, pod)
    ensures pod !in GatedPods(Run(s, more), key)
  {
    var before, placement, after := Run(s, more[..i]), more[i], more[i + 1..];
    RunSplit(s, more, i);
    PlacedIsOut(before, key, pod, placement.quotaListFails);
    assert forall a :: a in after ==> a in more;
    GatedPodsOnlyLeave(Next(before, placement), after, key);
  }

  /**
   Over every run without admissions, whatever else happens in it and in whatever order: once each
   pod that was gated for the profile has had such a placement, none is gated for it.
   */
  lemma EveryRunDrains(s: State, more: seq<Step>, key: Key)
    requires forall a :: a in more ==> !a.AdmitCreate?
    requires forall pod :: pod in GatedPods(s, key) ==> exists i :: PlacedAt(s, more, i, key, pod)
    ensures GatedPods(Run(s, more), key) == {}
  {
    GatedPodsOnlyLeave(s, more, key);
    forall pod | pod in GatedPods(s, key) ensures pod !in GatedPods(Run(s, more), key) {
      var i :| PlacedAt(s, more, i, key, pod);
      PlacedStaysOut(s, more, i, key, pod);
    }
  }
}
