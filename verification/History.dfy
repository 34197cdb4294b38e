/**
 What every run leaves on a pod: its gates, selector and tolerations are a function of what was
 submitted and of the one step, if any, that let it go. Placement happens exactly once.
 */
module History {
  import opened Kube
  import opened Profiles
  import opened Injection
  import opened Admission
  import opened Placement
  import opened Protocol
  import opened Safety
  import opened Effects
  import opened Guarantees
  import QuotaCheck
  import Gates

  /** The gate names taken away so far: by others, and WTO's own when the pod was let go. */
  function Gone(rec: PodRec): set<string> {
    rec.othersRemoved + (if rec.removal.Kept? then {} else {SCHEDULING_GATE})
  }

  function Written(removal: Removal): Option<NodePlacement> {
    if removal.QuotaPassed? then removal.node else None
  }

  /** The profile a pod was submitted for. */
  function ProfileOf(submitted: PodObj): string {
    ValueAt(submitted.annotations, PROFILE_ANNOTATION)
  }

  /** The pod is exactly what its history says. */
  ghost predicate Told(rec: PodRec) {
    && (rec.ticket.Some? <==> Managed(rec.submitted))
    && SCHEDULING_GATE !in rec.othersRemoved
    && (rec.ticket.Some? ==>
          && NamesProfile(rec.pod, ProfileOf(rec.submitted))
          && rec.pod.gates == Gates.Without(Gates.Added(rec.submitted.gates), Gone(rec))
          && rec.pod.nodeSelector == WithNode(rec.submitted, Written(rec.removal)).nodeSelector
          && rec.pod.tolerations == WithNode(rec.submitted, Written(rec.removal)).tolerations
          && rec.pod.resourceClaims == rec.submitted.resourceClaims + rec.ticket.value.injected)
  }

  ghost predicate PendingTold(q: Pending) {
    && (q.ticket.Some? <==> Managed(q.submitted))
    && (q.ticket.Some? ==>
          && NamesProfile(q.pod, ProfileOf(q.submitted))
          && q.pod.gates == Gates.Added(q.submitted.gates)
          && q.pod.nodeSelector == q.submitted.nodeSelector
          && q.pod.tolerations == q.submitted.tolerations
          && q.pod.resourceClaims == q.submitted.resourceClaims + q.ticket.value.injected)
  }

  ghost predicate AllTold(s: State) {
    && (forall k :: k in s.pods ==> Told(s.pods[k]))
    && (forall id :: id in s.pending ==> PendingTold(s.pending[id]))
  }

  lemma AnswerTold(s: State, ns: string, submitted: PodObj, overrides: seq<Override>)
    requires Answer(s, ns, submitted, overrides).Some?
    ensures PendingTold(Answer(s, ns, submitted, overrides).value)
  {
    var q := Answer(s, ns, submitted, overrides).value;
    if q.ticket.Some? {
      StillNamesProfile(submitted.annotations, s.profiles[Key(ns, ProfileOf(submitted))], overrides);
    }
  }

  lemma NewTold(s: State, q: Pending)
    requires PendingTold(q)
    ensures Told(NewRec(s, q))
  {
    assert Gone(NewRec(s, q)) == {};
    Gates.WithoutNothing(Gates.Added(q.submitted.gates), {});
  }

  /** WTO's gate is on an admitted pod exactly while no step has let it go. */
  lemma GateMeansKept(rec: PodRec)
    requires Told(rec) && rec.ticket.Some?
    ensures SCHEDULING_GATE in rec.pod.gates <==> rec.removal.Kept?
  {
    Gates.AddRemove(rec.submitted.gates);
  }

  lemma GateDropTold(rec: PodRec, gate: string)
    requires Told(rec) && gate != SCHEDULING_GATE
    ensures Told(WithoutGate(rec, gate))
  {
    Gates.WithoutTwice(Gates.Added(rec.submitted.gates), Gone(rec), {gate});
    assert Gone(WithoutGate(rec, gate)) == Gone(rec) + {gate};
  }

  lemma PlaceTold(rec: PodRec, d: Decision)
    requires Told(rec) && (d.UngateMissing? || d.UngatePlaced? ==> SCHEDULING_GATE in rec.pod.gates)
    ensures Told(AfterPatch(rec, d))
  {
    if rec.ticket.Some? && (d.UngateMissing? || d.UngatePlaced?) {
      GateMeansKept(rec);
      Gates.WithoutTwice(Gates.Added(rec.submitted.gates), Gone(rec), {SCHEDULING_GATE});
      assert Gone(AfterPatch(rec, d)) == Gone(rec) + {SCHEDULING_GATE};
    }
  }

  lemma DecideOnGated(s: State, key: Key, quotaListFails: bool)
    requires key in s.pods
    ensures !Decide(s, key, quotaListFails).Nothing? ==> SCHEDULING_GATE in s.pods[key].pod.gates
  {
  }

  // ---- every step, every run ----

  lemma ToldPlace(s: State, key: Key, quotaListFails: bool, patchFails: bool)
    requires AllTold(s)
    ensures AllTold(Next(s, Place(key, quotaListFails, patchFails)))
  {
    if key in s.pods {
      DecideOnGated(s, key, quotaListFails);
      PlaceTold(s.pods[key], Decide(s, key, quotaListFails));
    }
  }

  lemma ToldWrite(s: State, key: Key, rec: PodRec)
    requires AllTold(s) && Told(rec)
    ensures AllTold(WithPod(s, key, rec))
  {
  }

  lemma ToldRelabel(s: State, key: Key, labels: StringMap)
    requires AllTold(s)
    ensures AllTold(Next(s, EditPodLabels(key, labels)))
  {
    if key in s.pods {
      ToldWrite(s, key, Relabelled(s.pods[key], labels));
    }
  }

  lemma ToldGateDrop(s: State, key: Key, gate: string)
    requires AllTold(s)
    ensures AllTold(Next(s, DropForeignGate(key, gate)))
  {
    if key in s.pods && gate != SCHEDULING_GATE {
      GateDropTold(s.pods[key], gate);
      ToldWrite(s, key, WithoutGate(s.pods[key], gate));
    }
  }

  lemma ToldDelete(s: State, key: Key)
    requires AllTold(s)
    ensures AllTold(Next(s, DeletePod(key)))
  {
  }

  lemma ToldRead(s: State, id: nat, ns: string, submitted: PodObj, overrides: seq<Override>)
    requires AllTold(s)
    ensures AllTold(Next(s, AdmitRead(id, ns, submitted, overrides)))
  {
    if Answer(s, ns, submitted, overrides).Some? {
      AnswerTold(s, ns, submitted, overrides);
    }
  }

  lemma ToldCreate(s: State, a: Step)
    requires AllTold(s) && (a.AdmitCreate? || a.AdmitLost?)
    ensures AllTold(Next(s, a))
  {
    if a.AdmitCreate? && a.id in s.pending {
      var q := s.pending[a.id];
      NewTold(s, q);
      ToldWrite(s, Key(q.namespace, a.name), NewRec(s, q));
    }
  }

  lemma ToldNext(s: State, a: Step)
    requires AllTold(s)
    ensures AllTold(Next(s, a))
  {
    if Away(a) { AwayFromPods(s, a); }
    else if a.ListGated? || a.RemoveFinalizer? { DeletionAway(s, a); }
    else if a.Place? { ToldPlace(s, a.key, a.quotaListFails, a.patchFails); }
    else if a.DeletePod? { ToldDelete(s, a.key); }
    else if a.EditPodLabels? { ToldRelabel(s, a.key, a.labels); }
    else if a.DropForeignGate? { ToldGateDrop(s, a.key, a.gate); }
    else if a.AdmitRead? { ToldRead(s, a.id, a.ns, a.submitted, a.overrides); }
    else { ToldCreate(s, a); }
  }

  lemma {:induction false} ToldRun(steps: seq<Step>)
    ensures AllTold(Run(INITIAL, steps))
    decreases |steps|
  {
    if steps != [] {
      ToldRun(steps[..|steps| - 1]);
      ToldNext(Run(INITIAL, steps[..|steps| - 1]), steps[|steps| - 1]);
    }
  }

  /**
   The gates of an admitted pod, over every run: those submitted, in their order, without the ones
   their own controllers took away, and WTO's last if it was not submitted, while it is kept.
   */
  lemma GatesKeepOrder(steps: seq<Step>, key: Key)
    requires key in Run(INITIAL, steps).pods && Managed(Run(INITIAL, steps).pods[key].submitted)
    ensures var rec := Run(INITIAL, steps).pods[key];
      && Gates.Removed(rec.pod.gates) == Gates.Without(Gates.Removed(rec.submitted.gates), rec.othersRemoved)
      && (SCHEDULING_GATE in rec.pod.gates <==> rec.removal.Kept?)
  {
    ToldRun(steps);
    var rec := Run(INITIAL, steps).pods[key];
    GateMeansKept(rec);
    var added := Gates.Added(rec.submitted.gates);
    var own := {SCHEDULING_GATE};
    Gates.WithoutTwice(added, Gone(rec), own);
    Gates.WithoutTwice(added, own, rec.othersRemoved);
    assert Gone(rec) + own == own + rec.othersRemoved;
    Gates.AddRemove(rec.submitted.gates);
  }

  /**
   A stored pod loses WTO's gate in no step but a placement step whose patch went through, taken
   when the quota check had passed (or its list failed) or when the profile was missing.
   */
  lemma GateLostOnlyByPlacement(s: State, a: Step, key: Key)
    requires key in s.pods && SCHEDULING_GATE in s.pods[key].pod.gates
    requires key in Next(s, a).pods && SCHEDULING_GATE !in Next(s, a).pods[key].pod.gates
    ensures a.Place? && a.key == key && !a.patchFails
    ensures var profile := Key(key.namespace, ValueAt(s.pods[key].pod.annotations, PROFILE_ANNOTATION));
      profile in s.profiles ==>
        || a.quotaListFails
        || QuotaCheck.AllAdmit(QuotasOf(s, key.namespace), ViewOf(s.profiles[profile]))
  {
    if Away(a) { AwayFromPods(s, a); }
    else if a.ListGated? || a.RemoveFinalizer? { DeletionAway(s, a); }
  }

  lemma StoredOrNew(s: State, a: Step, key: Key)
    requires key in Next(s, a).pods
    ensures if key in s.pods then Next(s, a).pods[key].submitted == s.pods[key].submitted
      else Next(s, a).pods[key].removal.Kept?
  {
    if Away(a) { AwayFromPods(s, a); }
    else if a.ListGated? || a.RemoveFinalizer? { DeletionAway(s, a); }
    else if a.Place? { PlaceKeepsSubmitted(s, a.key, a.quotaListFails, a.patchFails); }
    else if a.EditPodLabels? || a.DropForeignGate? { EditKeepsSubmitted(s, a, key); }
    else { PodsComeAndGo(s, a, key); }
  }

  lemma PlaceKeepsSubmitted(s: State, placed: Key, quotaListFails: bool, patchFails: bool)
    ensures var t := Next(s, Place(placed, quotaListFails, patchFails));
      t.pods.Keys == s.pods.Keys && forall k :: k in s.pods ==> t.pods[k].submitted == s.pods[k].submitted
  {
    if placed in s.pods {
      assert AfterPatch(s.pods[placed], Decide(s, placed, quotaListFails)).submitted == s.pods[placed].submitted;
    }
  }

  lemma PodsComeAndGo(s: State, a: Step, key: Key)
    requires (a.DeletePod? || a.AdmitRead? || a.AdmitCreate? || a.AdmitLost?) && key in Next(s, a).pods
    ensures if key in s.pods then Next(s, a).pods[key] == s.pods[key] else Next(s, a).pods[key].removal.Kept?
  {
  }

  lemma EditKeepsSubmitted(s: State, a: Step, key: Key)
    requires a.EditPodLabels? || a.DropForeignGate?
    ensures Next(s, a).pods.Keys == s.pods.Keys
    ensures key in s.pods ==>
      Next(s, a).pods[key].submitted == s.pods[key].submitted && Next(s, a).pods[key].removal == s.pods[key].removal
  {
  }

  /** What must have been so for this removal: nothing of the name, or that profile's own placement after the check. */
  ghost predicate Justified(s: State, ns: string, name: string, quotaListFails: bool, removal: Removal) {
    var profile := Key(ns, name);
    match removal
    case Kept => false
    case ProfileMissing => profile !in s.profiles
    case QuotaPassed(node) =>
      && profile in s.profiles && node == NodeOf(Effective(ViewOf(s.profiles[profile])))
      && (quotaListFails || QuotaCheck.AllAdmit(QuotasOf(s, ns), ViewOf(s.profiles[profile])))
  }

  /** Step i of the run let this pod go: a placement of it whose patch went through, for the removal on record. */
  ghost predicate LetGoAt(steps: seq<Step>, i: nat, key: Key, rec: PodRec) {
    && i < |steps| && steps[i].Place? && steps[i].key == key && !steps[i].patchFails
    && var s := Run(INITIAL, steps[..i]);
       Justified(s, key.namespace, ProfileOf(rec.submitted), steps[i].quotaListFails, rec.removal)
  }

  /**
   Over every run: a profile-annotated pod Kueue had not taken lacks WTO's gate only if some step of
   the run was a placement of it that found the profile missing, or the quota sufficient, and wrote
   what the pod's record says.
   */
  lemma {:induction false} LetGoByPlacement(steps: seq<Step>, key: Key) returns (i: nat)
    requires key in Run(INITIAL, steps).pods && Managed(Run(INITIAL, steps).pods[key].submitted)
    requires SCHEDULING_GATE !in Run(INITIAL, steps).pods[key].pod.gates
    ensures LetGoAt(steps, i, key, Run(INITIAL, steps).pods[key])
    decreases |steps|
  {
    var n := |steps| - 1;
    var s := Run(INITIAL, steps[..n]);
    ToldRun(steps);
    ToldRun(steps[..n]);
    LastStep(s, steps[n], key);
    if SCHEDULING_GATE in s.pods[key].pod.gates {
      i := n;
    } else {
      RemovalStays(s, steps[n], key);
      i := LetGoByPlacement(steps[..n], key);
      assert steps[..n][..i] == steps[..i];
    }
  }

  /** A pod seen without the gate was stored before, and lost it earlier or in this very step. */
  lemma LastStep(s: State, a: Step, key: Key)
    requires AllTold(s) && AllTold(Next(s, a)) && key in Next(s, a).pods
    requires Managed(Next(s, a).pods[key].submitted) && SCHEDULING_GATE !in Next(s, a).pods[key].pod.gates
    ensures key in s.pods && Managed(s.pods[key].submitted)
    ensures SCHEDULING_GATE in s.pods[key].pod.gates ==>
      && a.Place? && a.key == key && !a.patchFails
      && var rec := Next(s, a).pods[key];
         Justified(s, key.namespace, ProfileOf(rec.submitted), a.quotaListFails, rec.removal)
  {
    StoredOrNew(s, a, key);
    GateMeansKept(Next(s, a).pods[key]);
    if SCHEDULING_GATE in s.pods[key].pod.gates {
      GateLostOnlyByPlacement(s, a, key);
      LetGoNow(s, a, key);
    }
  }

  lemma LetGoNow(s: State, a: Step, key: Key)
    requires a.Place? && a.key == key && !a.patchFails && key in s.pods && Told(s.pods[key]) && s.pods[key].ticket.Some?
    requires SCHEDULING_GATE in s.pods[key].pod.gates && SCHEDULING_GATE !in Next(s, a).pods[key].pod.gates
    ensures var rec := Next(s, a).pods[key];
      Justified(s, key.namespace, ProfileOf(rec.submitted), a.quotaListFails, rec.removal)
  {
    var rec := AfterPatch(s.pods[key], Decide(s, key, a.quotaListFails));
    assert Next(s, a).pods[key] == rec;
  }

  /** What let a pod go stays on record. */
  lemma RemovalStays(s: State, a: Step, key: Key)
    requires key in s.pods && SCHEDULING_GATE !in s.pods[key].pod.gates && key in Next(s, a).pods
    ensures Next(s, a).pods[key].removal == s.pods[key].removal
    ensures Next(s, a).pods[key].submitted == s.pods[key].submitted
  {
    StoredOrNew(s, a, key);
    if Away(a) { AwayFromPods(s, a); }
    else if a.ListGated? || a.RemoveFinalizer? { DeletionAway(s, a); }
    else if a.EditPodLabels? || a.DropForeignGate? { EditKeepsSubmitted(s, a, key); }
    else if a.Place? { UngatedIsLeftAlone(s, a.key, key, a.quotaListFails, a.patchFails); }
  }

  /** Once let go, a pod is never placed again, by whatever placement steps. */
  lemma UngatedIsLeftAlone(s: State, placed: Key, key: Key, quotaListFails: bool, patchFails: bool)
    requires key in s.pods && SCHEDULING_GATE !in s.pods[key].pod.gates
    ensures var t := Next(s, Place(placed, quotaListFails, patchFails)); key in t.pods && t.pods[key] == s.pods[key]
  {
    if placed == key {
      assert Decide(s, key, quotaListFails).Nothing?;
    }
  }

  /**
   Placement is exactly once, over every run with any number of failed and repeated patches: an
   admitted pod has the selector and tolerations it was submitted with while it is gated or when it
   was let go for a missing profile. Otherwise step i of the run let it go, and it has those, once
   overridden and once followed by what the profile it names had as its placement at that step.
   */
  lemma PlacedExactlyOnce(steps: seq<Step>, key: Key) returns (i: nat)
    requires key in Run(INITIAL, steps).pods && Managed(Run(INITIAL, steps).pods[key].submitted)
    ensures var rec := Run(INITIAL, steps).pods[key];
      && (SCHEDULING_GATE in rec.pod.gates || rec.removal.ProfileMissing? ==>
            rec.pod.tolerations == rec.submitted.tolerations && rec.pod.nodeSelector == rec.submitted.nodeSelector)
      && (SCHEDULING_GATE !in rec.pod.gates ==> LetGoAt(steps, i, key, rec))
      && (SCHEDULING_GATE !in rec.pod.gates && !rec.removal.ProfileMissing? ==>
            var past := Run(INITIAL, steps[..i]);
            PlacedBy(rec.pod, rec.submitted, past.profiles[Key(key.namespace, ProfileOf(rec.submitted))]))
  {
    ToldRun(steps);
    var rec := Run(INITIAL, steps).pods[key];
    GateMeansKept(rec);
    i := 0;
    if SCHEDULING_GATE !in rec.pod.gates {
      i := LetGoByPlacement(steps, key);
    }
  }

  /**
   The pod carries over what it had the Node placement the profile resolved to, or its own while it
   has not resolved to one: its selector overridden, the tolerations appended; nothing otherwise.
   */
  predicate PlacedBy(pod: PodObj, was: PodObj, p: ProfileObj) {
    var c :=
      if p.status.resolved.Some? && p.status.resolved.value.placement.Some? then p.status.resolved.value.placement
      else p.spec.placement;
    if c.Some? && c.value.kind == NodeType && c.value.node.Some? then
      && pod.tolerations == was.tolerations + c.value.node.value.tolerations
      && pod.nodeSelector == was.nodeSelector + c.value.node.value.nodeSelector
    else
      pod.tolerations == was.tolerations && pod.nodeSelector == was.nodeSelector
  }

  /** Nothing of the pod but its gates, selector and tolerations differs; of the gates only WTO's is gone. */
  predicate LetGo(pod: PodObj, was: PodObj) {
    && pod == was.(gates := pod.gates, nodeSelector := pod.nodeSelector, tolerations := pod.tolerations)
    && pod.gates == Gates.Without(was.gates, {SCHEDULING_GATE})
  }

  /** Every quota of the namespace admits what the profile asks for. */
  predicate Passes(s: State, ns: string, p: ProfileObj) {
    var quotas := if ns in s.env.quotas then s.env.quotas[ns] else [];
    QuotaCheck.AllAdmit(quotas, QuotaCheck.View(p.spec, p.status.resolved))
  }

  /**
   What one placement does to a gated pod, over its profile's fields: without a profile of the name
   it only goes; with one that the quotas admit, or when they could not be listed, it is placed by
   it; otherwise it stays. No other pod changes, and nothing else in the store.
   */
  lemma PlacementWrites(s: State, key: Key, quotaListFails: bool)
    requires key in s.pods && SCHEDULING_GATE in s.pods[key].pod.gates
    requires PROFILE_ANNOTATION in s.pods[key].pod.annotations
    ensures var t := Next(s, Place(key, quotaListFails, false));
      var was := s.pods[key].pod;
      var name := Key(key.namespace, was.annotations[PROFILE_ANNOTATION]);
      && t == s.(clock := t.clock, pods := t.pods) && t.pods.Keys == s.pods.Keys
      && (forall k :: k in s.pods && k != key ==> t.pods[k] == s.pods[k])
      && (name !in s.profiles ==>
            && LetGo(t.pods[key].pod, was)
            && t.pods[key].pod.tolerations == was.tolerations && t.pods[key].pod.nodeSelector == was.nodeSelector)
      && (name in s.profiles && (quotaListFails || Passes(s, key.namespace, s.profiles[name])) ==>
            LetGo(t.pods[key].pod, was) && PlacedBy(t.pods[key].pod, was, s.profiles[name]))
      && (name in s.profiles && !quotaListFails && !Passes(s, key.namespace, s.profiles[name]) ==>
            t.pods[key] == s.pods[key])
  {
    var rec := AfterPatch(s.pods[key], Decide(s, key, quotaListFails));
    var t := Tick(WithPod(s, key, rec));
    assert Next(s, Place(key, quotaListFails, false)) == t;
    assert t.pods[key] == rec;
  }

  /** What WTO put into the pod's claims, after those the pod was submitted with. */
  function Injections(rec: PodRec): seq<PodClaim>
    requires |rec.submitted.resourceClaims| <= |rec.pod.resourceClaims|
  {
    rec.pod.resourceClaims[|rec.submitted.resourceClaims|..]
  }

  /**
   The promise to a gated pod, on the stored pod itself: with the two operations atomic, in every
   reachable state the claims added to it name templates controlled by the profile it names.
   */
  lemma GatedClaimsResolve(actions: seq<Action>, key: Key)
    requires forall a :: a in actions ==> Proper(a)
    requires key in Play(actions).pods && Managed(Play(actions).pods[key].submitted) && Gated(Play(actions).pods[key])
    ensures var s := Play(actions);
      var rec := s.pods[key];
      var profile := Key(key.namespace, ValueAt(rec.pod.annotations, PROFILE_ANNOTATION));
      && profile in s.profiles && s.profiles[profile].finalizer
      && rec.submitted.resourceClaims <= rec.pod.resourceClaims
      && ClaimsOwned(s, key.namespace, Injections(rec), s.profiles[profile].uid)
  {
    var steps := PlayIsRun(actions);
    ToldRun(steps);
    PlayInv(actions);
    var s := Play(actions);
    assert PodOk(s, key.namespace, s.pods[key]);
    GatedPodIsServed(actions, key);
  }
}
