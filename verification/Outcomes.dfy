/** What one whole reconcile of a profile comes to, over the fields of the store it starts from. */
module Outcomes {
  import opened Kube
  import opened Conditions
  import opened Profiles
  import opened Protocol
  import opened Safety
  import opened Reconciles
  import opened Frames

  /** The template of a claim is not another profile's. */
  predicate Free(s: State, key: Key, uid: nat, claim: DeviceClaim) {
    var at := Key(key.namespace, "wto-" + key.name + "-" + claim.name);
    at in s.rcts && s.rcts[at].owner.Some? ==> s.rcts[at].owner.value == uid
  }

  predicate AllFree(s: State, key: Key, uid: nat, claims: seq<DeviceClaim>) {
    forall i :: 0 <= i < |claims| ==> Free(s, key, uid, claims[i])
  }

  /** Ensuring a template takes nothing away from what is free, and changes no profile. */
  lemma EnsureFrees(s: State)
    requires Inv(s) && s.worker.Ensuring? && s.worker.done < |s.worker.spec.deviceClaims|
    ensures var w, t := s.worker, Tick(EnsureStep(s));
      && Inv(t) && t.profiles == s.profiles && t.env == s.env && t.pods == s.pods
      && (forall c :: Free(t, w.key, w.read.uid, c) <==> Free(s, w.key, w.read.uid, c))
      && (Free(s, w.key, w.read.uid, w.spec.deviceClaims[w.done]) ==> t.worker == w.(done := w.done + 1))
      && (!Free(s, w.key, w.read.uid, w.spec.deviceClaims[w.done]) ==> t.worker.Idle?)
  {
    EnsureNext(s);
    EnsureWrites(s);
    InvNext(s, Ensure);
  }

  /** The claims loop with every template free: it ends with all of them ensured, and the status patch. */
  lemma {:induction false} LoopEnsures(s: State, answers: Answers) returns (last: State)
    requires Inv(s) && s.worker.Ensuring?
    requires forall i :: s.worker.done <= i < |s.worker.spec.deviceClaims| ==>
      Free(s, s.worker.key, s.worker.read.uid, s.worker.spec.deviceClaims[i])
    ensures last.worker == s.worker.(done := |s.worker.spec.deviceClaims|)
    ensures FromEnsure(s, answers, NO_FAULTS) == Tick(FinishStep(last, answers))
    ensures Inv(last) && last.profiles == s.profiles && last.pods == s.pods && last.env == s.env
    decreases |s.worker.spec.deviceClaims| - s.worker.done
  {
    if s.worker.done >= |s.worker.spec.deviceClaims| {
      last := s;
    } else {
      EnsureFrees(s);
      last := LoopEnsures(Tick(EnsureStep(s)), answers);
    }
  }

  /** With a template that is another profile's, the loop stops at it and the status is not touched. */
  lemma {:induction false} LoopStopsAtTaken(s: State, answers: Answers, i: nat)
    requires Inv(s) && s.worker.Ensuring? && s.worker.done <= i < |s.worker.spec.deviceClaims|
    requires !Free(s, s.worker.key, s.worker.read.uid, s.worker.spec.deviceClaims[i])
    ensures FromEnsure(s, answers, NO_FAULTS).profiles == s.profiles
    decreases |s.worker.spec.deviceClaims| - s.worker.done
  {
    EnsureFrees(s);
    var t := Tick(EnsureStep(s));
    if t.worker.Ensuring? {
      LoopStopsAtTaken(t, answers, i);
    }
  }

  /** The profile as the reconcile leaves it, besides its status. */
  predicate OnlyStatus(p: ProfileObj, was: ProfileObj) {
    p == was.(finalizer := true, status := p.status)
  }

  /** Every claim has its template, this profile's. */
  predicate AllOwned(s: State, key: Key, uid: nat, claims: seq<DeviceClaim>) {
    forall i :: 0 <= i < |claims| ==>
      var at := Key(key.namespace, "wto-" + key.name + "-" + claims[i].name);
      at in s.rcts && s.rcts[at].owner == Some(uid)
  }

  lemma FinishOutcome(s: State, answers: Answers)
    requires Inv(s) && s.worker.Ensuring? && s.worker.done == |s.worker.spec.deviceClaims|
    ensures var w, t := s.worker, Tick(FinishStep(s, answers));
      && w.key in t.profiles && w.key in s.profiles && OnlyStatus(t.profiles[w.key], s.profiles[w.key])
      && t.profiles[w.key].status.resolved == Some(w.spec)
      && AllOwned(t, w.key, w.read.uid, w.spec.deviceClaims)
      && (IsValid(t.profiles[w.key]) <==> QueueNamed(w.spec.placement) && NotRefused(w.mem.status.conditions))
  {
    var w := s.worker;
    assert Current(s, w.key, w.read);
    FinishNext(s, answers);
    FinishWrites(s, answers);
    FinishStores(s, answers);
    VerdictIff(w.mem, w.spec, Existing(s, w.key, w.spec.deviceClaims), answers, s.clock);
    assert w.spec.deviceClaims[..w.done] == w.spec.deviceClaims;
    forall i | 0 <= i < |w.spec.deviceClaims|
      ensures Owned(s, w.key.namespace, RctName(w.key.name, w.spec.deviceClaims[i].name), w.read.uid)
      ensures w.spec.deviceClaims[i].name in Existing(s, w.key, w.spec.deviceClaims)
    {
      assert w.spec.deviceClaims[i] in w.spec.deviceClaims;
    }
  }

  /** The start: the finalizer is on, and what the worker read is the profile. */
  lemma Begins(s: State, key: Key)
    requires Inv(s) && s.worker.Idle? && key in s.profiles && !s.profiles[key].deleting
    ensures var b := Tick(Begun(s, key));
      && Inv(b) && b.rcts == s.rcts && b.env == s.env && key in b.profiles && b.clock == s.clock + 1
      && b.worker == Resolving(key, b.profiles[key]) && b.profiles[key] == s.profiles[key].(finalizer := true)
  {
    BeginNext(s, key);
    InvNext(s, Begin(key));
  }

  /** A reconcile whose spec resolves goes into the claims loop from the first claim. */
  lemma GoesOn(s: State, answers: Answers) returns (t: State)
    requires Inv(s) && s.worker.Resolving?
    requires Allowed(s.worker.read, s.env.templates, NamespaceLabels(s, s.worker.key.namespace))
    ensures t.worker.Ensuring? && FromResolve(s, answers, NO_FAULTS) == FromEnsure(t, answers, NO_FAULTS)
    ensures Inv(t) && t.profiles == s.profiles && t.rcts == s.rcts
    ensures var w, v := s.worker, t.worker;
      && v.key == w.key && v.read == w.read && v.done == 0 && ResolvesTo(w.read, s.env.templates, v.spec)
      && (Distinct(w.read.status.conditions) ==>
            (NotRefused(v.mem.status.conditions) <==>
               w.read.spec.templateRef.Some? || NotRefused(w.read.status.conditions)))
  {
    t := Tick(ResolveStep(s));
    ResolveNext(s);
    InvNext(s, Resolve);
    ResolveOutcome(s);
    var labels := LabelsOf(s, s.worker.key.namespace);
    assert labels == NamespaceLabels(s, s.worker.key.namespace);
    ResolvedKeeps(s.worker.read, s.env.templates, labels, s.clock);
    var r := ResolveSpec(s.worker.read, s.env.templates, labels, s.clock);
    assert ResolveStep(s) == WithWorker(s, Ensuring(s.worker.key, s.worker.read, r.mem, r.spec, 0));
    if Distinct(s.worker.read.status.conditions) {
      ResolvedRefusals(s.worker.read, s.env.templates, labels, s.clock);
    }
  }

  lemma SameResolved(p: ProfileObj, templates: map<string, Template>, a: ProfileSpec, b: ProfileSpec)
    requires ResolvesTo(p, templates, a) && ResolvesTo(p.(finalizer := true), templates, b)
    ensures a == b
  {
  }

  /** Such a reconcile goes into the claims loop with the spec, from the first claim. */
  lemma Enters(s: State, key: Key, answers: Answers, spec: ProfileSpec) returns (t: State)
    requires Inv(s) && s.worker.Idle? && key in s.profiles && !s.profiles[key].deleting
    requires Allowed(s.profiles[key], s.env.templates, NamespaceLabels(s, key.namespace))
    requires ResolvesTo(s.profiles[key], s.env.templates, spec)
    ensures t.worker.Ensuring? && Undisturbed(s, key, answers, NO_FAULTS) == FromEnsure(t, answers, NO_FAULTS)
    ensures Inv(t) && t.rcts == s.rcts && key in t.profiles && t.profiles[key] == s.profiles[key].(finalizer := true)
    ensures var w, was := t.worker, s.profiles[key];
      && w.key == key && w.read.uid == was.uid && w.spec == spec && w.done == 0
      && (Distinct(was.status.conditions) ==>
            (NotRefused(w.mem.status.conditions) <==>
               was.spec.templateRef.Some? || NotRefused(was.status.conditions)))
  {
    Begins(s, key);
    t := GoesOn(Tick(Begun(s, key)), answers);
    SameResolved(s.profiles[key], s.env.templates, spec, t.worker.spec);
  }

  /**
   A whole reconcile of a live profile, no request failing, when its spec resolves and none of its
   claims' templates is another profile's: the finalizer is on, the resolved spec stored, every claim
   has its template under this profile's control, and Valid is True exactly when the queue, if the
   placement names one, has a name, and no refusal is left from a template no longer used.
   */
  lemma ReconcileResolves(s: State, key: Key, answers: Answers, spec: ProfileSpec)
    requires Inv(s) && s.worker.Idle? && key in s.profiles && !s.profiles[key].deleting
    requires Distinct(s.profiles[key].status.conditions)
    requires Allowed(s.profiles[key], s.env.templates, NamespaceLabels(s, key.namespace))
    requires ResolvesTo(s.profiles[key], s.env.templates, spec)
    requires AllFree(s, key, s.profiles[key].uid, spec.deviceClaims)
    ensures var t := Undisturbed(s, key, answers, NO_FAULTS);
      var was := s.profiles[key];
      && key in t.profiles && OnlyStatus(t.profiles[key], was) && t.worker.Idle?
      && t.profiles[key].status.resolved == Some(spec)
      && AllOwned(t, key, was.uid, spec.deviceClaims)
      && (IsValid(t.profiles[key]) <==>
            QueueNamed(spec.placement) && (was.spec.templateRef.Some? || NotRefused(was.status.conditions)))
  {
    var t := Enters(s, key, answers, spec);
    forall i | 0 <= i < |spec.deviceClaims| ensures Free(t, key, t.worker.read.uid, spec.deviceClaims[i]) {
      assert Free(s, key, s.profiles[key].uid, spec.deviceClaims[i]);
    }
    var last := LoopEnsures(t, answers);
    FinishOutcome(last, answers);
    UndisturbedKeepsInv(s, key, answers, NO_FAULTS);
  }

  /** When one of them is another profile's, the status stays as it was. */
  lemma ReconcileStopsAtTaken(s: State, key: Key, answers: Answers, spec: ProfileSpec, i: nat)
    requires Inv(s) && s.worker.Idle? && key in s.profiles && !s.profiles[key].deleting
    requires Allowed(s.profiles[key], s.env.templates, NamespaceLabels(s, key.namespace))
    requires ResolvesTo(s.profiles[key], s.env.templates, spec) && i < |spec.deviceClaims|
    requires !Free(s, key, s.profiles[key].uid, spec.deviceClaims[i])
    ensures var t := Undisturbed(s, key, answers, NO_FAULTS);
      key in t.profiles && t.profiles[key] == s.profiles[key].(finalizer := true)
  {
    var t := Enters(s, key, answers, spec);
    LoopStopsAtTaken(t, answers, i);
  }

  /** When it is refused, the conditions are what a refusal sets, and the resolved spec and all templates stay. */
  lemma ReconcileRefuses(s: State, key: Key, answers: Answers)
    requires Inv(s) && s.worker.Idle? && key in s.profiles && !s.profiles[key].deleting
    requires !Allowed(s.profiles[key], s.env.templates, NamespaceLabels(s, key.namespace))
    ensures var t := Undisturbed(s, key, answers, NO_FAULTS);
      var was := s.profiles[key];
      var r := ResolveSpec(was.(finalizer := true), s.env.templates, NamespaceLabels(s, key.namespace), s.clock + 1);
      && !r.Resolved? && key in t.profiles && OnlyStatus(t.profiles[key], was) && t.rcts == s.rcts
      && t.profiles[key].status.resolved == was.status.resolved
      && (r.Refused? ==> t.profiles[key].status.conditions == r.stored.status.conditions && !IsValid(t.profiles[key]))
      && (r.Aborted? ==> t.profiles[key].status == was.status)
  {
    Begins(s, key);
    var b := Tick(Begun(s, key));
    var labels := NamespaceLabels(s, key.namespace);
    assert LabelsOf(b, key.namespace) == labels;
    ResolvedKeeps(b.worker.read, b.env.templates, labels, b.clock);
    RefusedIsInvalid(b.worker.read, b.env.templates, labels, b.clock);
    ResolveOutcome(b);
    ResolveNext(b);
    ResolveWrites(b);
  }

  /** A claims loop in which a request fails, or the status patch after it, leaves every profile as it is. */
  lemma {:induction false} FailingLoop(s: State, answers: Answers, faults: Faults)
    requires Inv(s) && s.worker.Ensuring?
    requires faults.status || exists i ::
      s.worker.done <= i < |s.worker.spec.deviceClaims| && s.worker.spec.deviceClaims[i].name in faults.ensure
    ensures FromEnsure(s, answers, faults).profiles == s.profiles
    decreases |s.worker.spec.deviceClaims| - s.worker.done
  {
    var claims := s.worker.spec.deviceClaims;
    if s.worker.done < |claims| && claims[s.worker.done].name !in faults.ensure {
      EnsureFrees(s);
      if Tick(EnsureStep(s)).worker.Ensuring? {
        FailingLoop(Tick(EnsureStep(s)), answers, faults);
      }
    }
  }

  /** A status patch that fails leaves the status; so does a template that cannot be read. */
  lemma ReconcileFails(s: State, key: Key, answers: Answers, faults: Faults)
    requires Inv(s) && s.worker.Idle? && key in s.profiles && !s.profiles[key].deleting
    requires faults.status || (faults.template && s.profiles[key].spec.templateRef.Some?)
    ensures var t := Undisturbed(s, key, answers, faults);
      && key in t.profiles
      && t.profiles[key] == s.profiles[key].(finalizer := s.profiles[key].finalizer || !faults.finalizer)
  {
    if s.profiles[key].finalizer || !faults.finalizer {
      Begins(s, key);
      var b := Tick(Begun(s, key));
      if !ResolveFails(b, faults) {
        ResolveNext(b);
        ResolveWrites(b);
        InvNext(b, Resolve);
        if Tick(ResolveStep(b)).worker.Ensuring? {
          FailingLoop(Tick(ResolveStep(b)), answers, faults);
        }
      }
    }
  }

  /** Some pod in the profile's namespace names it and is still gated. */
  predicate HasGated(s: State, key: Key) {
    exists k :: k in s.pods && k.namespace == key.namespace && SCHEDULING_GATE in s.pods[k].pod.gates
      && ValueAt(s.pods[k].pod.annotations, PROFILE_ANNOTATION) == key.name
  }

  lemma NoneGated(s: State, key: Key)
    ensures GatedPods(s, key) == {} <==> !HasGated(s, key)
  {
    if GatedPods(s, key) == {} {
      forall k | k in s.pods && k.namespace == key.namespace && SCHEDULING_GATE in s.pods[k].pod.gates
        ensures ValueAt(s.pods[k].pod.annotations, PROFILE_ANNOTATION) != key.name
      {
        assert k !in GatedPods(s, key);
      }
    } else {
      var k :| k in GatedPods(s, key);
      assert GatedFor(s.pods[k], key.name);
    }
  }

  /**
   A whole reconcile of a profile that is being deleted, no request failing: it goes, with every
   template it controlled and nothing else, exactly when no pod in its namespace that names it is
   still gated; otherwise nothing changes.
   */
  lemma ReconcileDeletes(s: State, key: Key, answers: Answers)
    requires Inv(s) && s.worker.Idle? && key in s.profiles && s.profiles[key].deleting
    ensures var t := Undisturbed(s, key, answers, NO_FAULTS);
      && t.pods == s.pods && t.env == s.env
      && (HasGated(s, key) ==> t.profiles == s.profiles && t.rcts == s.rcts)
      && (!HasGated(s, key) ==>
            && t.profiles == s.profiles - {key}
            && (forall k :: k in t.rcts <==> k in s.rcts && s.rcts[k].owner != Some(s.profiles[key].uid))
            && (forall k :: k in t.rcts ==> t.rcts[k] == s.rcts[k]))
  {
    NoneGated(s, key);
    if !HasGated(s, key) {
      var listed := Tick(WithWorker(s, Removing(key, s.profiles[key], s.clock)));
      RemoveNext(listed);
      RemovalWrites(listed);
    }
  }
}
