/**
 What a stored Valid=True means: only a status patch after a successful resolve and a completed
 round of claim templates writes it, and only it lets the webhook inject device claims.
 */
module Validity {
  import opened Kube
  import opened Profiles
  import opened Conditions
  import opened Injection
  import opened Admission
  import opened Protocol
  import opened Safety

  /** A status patch that ends a reconcile whose templates were all ensured, with a positive verdict. */
  ghost predicate Validates(s: State, a: Step, key: Key) {
    && a.Finish? && s.worker.Ensuring? && s.worker.key == key && s.worker.done == |s.worker.spec.deviceClaims|
    && SpecOwned(s, key, s.worker.spec.deviceClaims, s.worker.read.uid)
    && QueueNamed(s.worker.spec.placement)
    && Verdict(s.worker.mem, s.worker.spec, Existing(s, key, s.worker.spec.deviceClaims), a.answers, s.clock)
  }

  ghost predicate ValidAt(s: State, key: Key) {
    key in s.profiles && IsValid(s.profiles[key])
  }

  /** A refusal ends with a stored Valid that is not True. */
  lemma RefusalInvalidates(s: State, stored: ProfileObj)
    requires Inv(s) && s.worker.Resolving?
    requires ResolveSpec(s.worker.read, s.env.templates, LabelsOf(s, s.worker.key.namespace), s.clock)
      == Refused(stored)
    ensures !ValidAt(Next(s, Resolve), s.worker.key)
  {
    RefusedIsInvalid(s.worker.read, s.env.templates, LabelsOf(s, s.worker.key.namespace), s.clock);
    assert Current(s, s.worker.key, s.worker.read);
    assert ResolveStep(s) == Patched(s, s.worker.key, s.worker.read.status, stored.status);
  }

  lemma ResolveDoesNotValidate(s: State, key: Key)
    requires Inv(s) && s.worker.Resolving? && !ValidAt(s, key)
    ensures !ValidAt(ResolveStep(s), key)
  {
    match ResolveSpec(s.worker.read, s.env.templates, LabelsOf(s, s.worker.key.namespace), s.clock)
    case Aborted =>
    case Refused(stored) =>
      RefusedIsInvalid(s.worker.read, s.env.templates, LabelsOf(s, s.worker.key.namespace), s.clock);
      assert Current(s, s.worker.key, s.worker.read);
    case Resolved(mem, spec) =>
  }

  lemma FinishValidates(s: State, answers: Answers, key: Key)
    requires Inv(s) && s.worker.Ensuring? && s.worker.done == |s.worker.spec.deviceClaims| && !ValidAt(s, key)
    ensures ValidAt(FinishStep(s, answers), key) <==> Validates(s, Finish(answers), key)
    ensures ValidAt(FinishStep(s, answers), key)
      ==> FinishStep(s, answers).profiles[key].status.resolved == Some(s.worker.spec)
  {
    FinishStores(s, answers);
    assert s.worker.spec.deviceClaims[..s.worker.done] == s.worker.spec.deviceClaims;
  }

  lemma UserDoesNotValidate(s: State, a: Step, key: Key)
    requires a.CreateProfile? || a.EditProfile? || a.DeleteProfile? || a.Begin?
    requires !ValidAt(s, key)
    ensures !ValidAt(Act(s, a), key)
  {
    match a
    case CreateProfile(k, spec) =>
    case EditProfile(k, spec) =>
    case DeleteProfile(k) =>
    case Begin(k) =>
  }

  lemma RestDoesNotValidate(s: State, a: Step, key: Key)
    requires !(a.CreateProfile? || a.EditProfile? || a.DeleteProfile? || a.Begin? || a.Resolve? || a.Finish?)
    requires !ValidAt(s, key)
    ensures !ValidAt(Act(s, a), key)
  {
    if a.RemoveFinalizer? && s.worker.Removing? {
      if s.worker.key in s.profiles && s.profiles[s.worker.key] == s.worker.read {
        assert RemoveFinalizerStep(s) == Departed(s, s.worker.key, s.worker.listedAt);
      }
    }
  }

  /** Valid=True appears in a step exactly when the step is a patch with all that evidence. */
  lemma ValidStepIff(s: State, a: Step, key: Key)
    requires Inv(s) && !ValidAt(s, key)
    ensures ValidAt(Next(s, a), key) <==> Validates(s, a, key)
  {
    if a.Resolve? { if s.worker.Resolving? { ResolveDoesNotValidate(s, key); } }
    else if a.Finish? {
      if s.worker.Ensuring? && s.worker.done >= |s.worker.spec.deviceClaims| { FinishValidates(s, a.answers, key); }
    }
    else if a.CreateProfile? || a.EditProfile? || a.DeleteProfile? || a.Begin? { UserDoesNotValidate(s, a, key); }
    else { RestDoesNotValidate(s, a, key); }
  }

  /**
   The resolve behind what a worker ensures: a step of the run in which it was read off the store
   of that moment that the profile is inline, or that its template is there and admits the
   namespace, and what its spec is.
   */
  ghost predicate ResolvedAt(steps: seq<Step>, j: nat, w: Worker) {
    && j < |steps| && steps[j].Resolve? && w.Ensuring?
    && var s := Run(INITIAL, steps[..j]);
       && s.worker == Resolving(w.key, w.read)
       && Allowed(w.read, s.env.templates, LabelsOf(s, w.key.namespace))
       && ResolvesTo(w.read, s.env.templates, w.spec)
       && ResolveSpec(w.read, s.env.templates, LabelsOf(s, w.key.namespace), s.clock) == Resolved(w.mem, w.spec)
  }

  /** The worker goes on with the resolve it had, or has just resolved. */
  ghost predicate Continues(s: State, a: Step, w: Worker)
    requires w.Ensuring?
  {
    || (s.worker.Ensuring? && w.(done := s.worker.done) == s.worker)
    || (a.Resolve? && s.worker == Resolving(w.key, w.read)
        && ResolveSpec(w.read, s.env.templates, LabelsOf(s, w.key.namespace), s.clock) == Resolved(w.mem, w.spec))
  }

  lemma ResolveContinues(s: State)
    requires s.worker.Resolving? && ResolveStep(s).worker.Ensuring?
    ensures Continues(s, Resolve, ResolveStep(s).worker)
  {
    match ResolveSpec(s.worker.read, s.env.templates, LabelsOf(s, s.worker.key.namespace), s.clock)
    case Aborted =>
    case Refused(stored) =>
    case Resolved(mem, spec) =>
  }

  lemma EnsureContinues(s: State)
    requires s.worker.Ensuring? && s.worker.done < |s.worker.spec.deviceClaims| && EnsureStep(s).worker.Ensuring?
    ensures Continues(s, Ensure, EnsureStep(s).worker)
  {
    var w := s.worker;
    var key := Key(w.key.namespace, RctName(w.key.name, w.spec.deviceClaims[w.done].name));
    if !(key in s.rcts && s.rcts[key].owner.Some? && s.rcts[key].owner != Some(w.read.uid)) {
      assert EnsureStep(s).worker == w.(done := w.done + 1);
    }
  }

  lemma FinishIdles(s: State, answers: Answers)
    requires s.worker.Ensuring?
    ensures FinishStep(s, answers).worker.Idle?
  {
  }

  lemma ProfileStepContinues(s: State, a: Step)
    requires
      || a.CreateProfile? || a.EditProfile? || a.DeleteProfile?
      || a.Begin? || a.ListGated? || a.RemoveFinalizer? || a.Abort?
    requires Act(s, a).worker.Ensuring?
    ensures Act(s, a).worker == s.worker
  {
  }

  lemma OtherStepContinues(s: State, a: Step)
    requires !(a.CreateProfile? || a.EditProfile? || a.DeleteProfile? || a.Begin? || a.ListGated? || a.RemoveFinalizer?
               || a.Abort? || a.Resolve? || a.Ensure? || a.Finish?)
    ensures Act(s, a).worker == s.worker
  {
  }

  /** A step after which a worker ensures: it did so before, for the same resolve; or it resolved. */
  lemma EnsuringNext(s: State, a: Step)
    requires Next(s, a).worker.Ensuring?
    ensures Continues(s, a, Next(s, a).worker)
  {
    var t := Act(s, a);
    assert Next(s, a).worker == t.worker;
    if a.Resolve? { if s.worker.Resolving? { ResolveContinues(s); } }
    else if a.Ensure? { if s.worker.Ensuring? && s.worker.done < |s.worker.spec.deviceClaims| { EnsureContinues(s); } }
    else if a.Finish? { if s.worker.Ensuring? { FinishIdles(s, a.answers); } }
    else if a.CreateProfile? || a.EditProfile? || a.DeleteProfile?
      || a.Begin? || a.ListGated? || a.RemoveFinalizer? || a.Abort? {
      ProfileStepContinues(s, a);
    } else { OtherStepContinues(s, a); }
  }

  /** In every reachable state what the worker ensures goes back to a successful resolve of the run. */
  lemma {:induction false} WasResolved(steps: seq<Step>) returns (j: nat)
    requires Run(INITIAL, steps).worker.Ensuring?
    ensures ResolvedAt(steps, j, Run(INITIAL, steps).worker)
    decreases |steps|
  {
    var n := |steps| - 1;
    var s := Run(INITIAL, steps[..n]);
    var w := Run(INITIAL, steps).worker;
    EnsuringNext(s, steps[n]);
    if s.worker.Ensuring? && w.(done := s.worker.done) == s.worker {
      j := WasResolved(steps[..n]);
      assert steps[..n][..j] == steps[..j];
    } else {
      j := n;
      ResolvedKeeps(w.read, s.env.templates, LabelsOf(s, w.key.namespace), s.clock);
    }
  }

  /**
   In every reachable state: a step stores Valid=True exactly when it is a patch with all that
   evidence, and then an earlier step of the run was the successful resolve.
   */
  lemma ValidOnlyByPatch(steps: seq<Step>, a: Step, key: Key)
    requires !ValidAt(Run(INITIAL, steps), key)
    ensures var s := Run(INITIAL, steps);
      ValidAt(Next(s, a), key) <==> Validates(s, a, key) && exists j :: ResolvedAt(steps, j, s.worker)
  {
    InvRun(steps);
    var s := Run(INITIAL, steps);
    ValidStepIff(s, a, key);
    if Validates(s, a, key) {
      var j := WasResolved(steps);
    }
  }

  /** Step i of the run is such a patch, and step j before it the resolve it rests on. */
  ghost predicate EvidenceAt(steps: seq<Step>, j: nat, i: nat, key: Key) {
    && j < i < |steps| && Validates(Run(INITIAL, steps[..i]), steps[i], key)
    && ResolvedAt(steps[..i], j, Run(INITIAL, steps[..i]).worker)
  }

  /** Every Valid=True in a reachable state goes back to such a patch and such a resolve in the run. */
  lemma {:induction false} ValidHasEvidence(steps: seq<Step>, key: Key) returns (j: nat, i: nat)
    requires ValidAt(Run(INITIAL, steps), key)
    ensures EvidenceAt(steps, j, i, key)
    decreases |steps|
  {
    var n := |steps| - 1;
    InvRun(steps[..n]);
    if ValidAt(Run(INITIAL, steps[..n]), key) {
      j, i := ValidHasEvidence(steps[..n], key);
      assert steps[..n][..i] == steps[..i];
    } else {
      ValidStepIff(Run(INITIAL, steps[..n]), steps[n], key);
      i := n;
      j := WasResolved(steps[..n]);
    }
  }

  /** From a state where the profile is not Valid, until such a patch, it stays not Valid. */
  lemma {:induction false} StaysInvalid(s: State, more: seq<Step>, key: Key)
    requires Inv(s) && !ValidAt(s, key)
    requires forall i :: 0 <= i < |more| ==> !Validates(Run(s, more[..i]), more[i], key)
    ensures Inv(Run(s, more)) && !ValidAt(Run(s, more), key)
    decreases |more|
  {
    if more != [] {
      var n := |more| - 1;
      forall i | 0 <= i < n ensures !Validates(Run(s, more[..n][..i]), more[..n][i], key) {
        assert more[..n][..i] == more[..i];
      }
      StaysInvalid(s, more[..n], key);
      InvNext(Run(s, more[..n]), more[n]);
      assert !Validates(Run(s, more[..n]), more[n], key);
      ValidStepIff(Run(s, more[..n]), more[n], key);
    }
  }

  /**
   After a stored missing-template or disallowed-namespace result, whatever happens next, no
   Handle call injects a device claim for the profile until such a patch has been made.
   */
  lemma NoClaimsAfterRefusal(s: State, stored: ProfileObj, more: seq<Step>, submitted: PodObj, overrides: seq<Override>)
    requires Inv(s) && s.worker.Resolving?
    requires ResolveSpec(s.worker.read, s.env.templates, LabelsOf(s, s.worker.key.namespace), s.clock)
      == Refused(stored)
    requires forall i :: 0 <= i < |more| ==> !Validates(Run(Next(s, Resolve), more[..i]), more[i], s.worker.key)
    requires ValueAt(submitted.annotations, PROFILE_ANNOTATION) == s.worker.key.name
    ensures var q := Answer(Run(Next(s, Resolve), more), s.worker.key.namespace, submitted, overrides);
      q.Some? ==> q.value.pod.resourceClaims == submitted.resourceClaims
  {
    var key := s.worker.key;
    RefusalInvalidates(s, stored);
    InvNext(s, Resolve);
    StaysInvalid(Next(s, Resolve), more, key);
    InvalidInjectsNothing(Run(Next(s, Resolve), more), key, submitted, overrides);
  }

  lemma InvalidInjectsNothing(t: State, key: Key, submitted: PodObj, overrides: seq<Override>)
    requires !ValidAt(t, key) && ValueAt(submitted.annotations, PROFILE_ANNOTATION) == key.name
    ensures var q := Answer(t, key.namespace, submitted, overrides);
      q.Some? ==> q.value.pod.resourceClaims == submitted.resourceClaims
  {
    var q := Answer(t, key.namespace, submitted, overrides);
    if q.Some? && q.value.ticket.Some? {
      ClaimsOnlyWhenValid(submitted, t.profiles[key], overrides);
    }
  }

  /**
   The two generations are set before the patch base is taken, so no patch carries them: in every
   reachable state they are absent, and no admitted pod gets the template-generation annotation.
   */
  lemma GenerationsNeverStored(steps: seq<Step>, key: Key)
    requires key in Run(INITIAL, steps).profiles
    ensures var p := Run(INITIAL, steps).profiles[key];
      && p.status.templateGeneration.None? && p.status.resolvedGeneration.None?
      && forall annotations, overrides :: TEMPLATE_GENERATION_ANNOTATION in Tracking(annotations, p, overrides)
           <==> TEMPLATE_GENERATION_ANNOTATION in annotations
  {
    InvRun(steps);
    assert |GENERATION_ANNOTATION| == 39 && |TEMPLATE_GENERATION_ANNOTATION| == 40 && |OVERRIDES_ANNOTATION| == 30;
  }

  // ---- stored condition lists are maps ----

  ghost predicate ListsAreMaps(s: State) {
    && (forall k :: k in s.profiles ==> Distinct(s.profiles[k].status.conditions))
    && (s.worker.Resolving? || s.worker.Ensuring? ==> Distinct(s.worker.read.status.conditions))
    && (s.worker.Ensuring? ==> Distinct(s.worker.mem.status.conditions))
  }

  lemma PatchedLists(s: State, key: Key, base: ProfileStatus, modified: ProfileStatus)
    requires ListsAreMaps(s) && Distinct(modified.conditions)
    ensures ListsAreMaps(Patched(s, key, base, modified))
  {
    if key in s.profiles {
    }
  }

  lemma ResolveLists(s: State)
    requires ListsAreMaps(s) && s.worker.Resolving?
    ensures ListsAreMaps(ResolveStep(s))
  {
    var w := s.worker;
    ResolveKeepsDistinct(w.read, s.env.templates, LabelsOf(s, w.key.namespace), s.clock);
    match ResolveSpec(w.read, s.env.templates, LabelsOf(s, w.key.namespace), s.clock)
    case Aborted =>
    case Refused(stored) => PatchedLists(s, w.key, w.read.status, stored.status);
    case Resolved(mem, spec) =>
  }

  lemma FinishLists(s: State, answers: Answers)
    requires ListsAreMaps(s) && s.worker.Ensuring?
    ensures ListsAreMaps(FinishStep(s, answers))
  {
    var w := s.worker;
    UpdateKeepsDistinct(w.mem, w.spec, Existing(s, w.key, w.spec.deviceClaims), answers, s.clock);
    PatchedLists(s, w.key, w.mem.status, Final(s, answers).status);
  }

  lemma ProfileLists(s: State, key: Key, p: ProfileObj)
    requires ListsAreMaps(s) && Distinct(p.status.conditions)
    ensures ListsAreMaps(WithProfile(s, key, p))
  {
  }

  lemma DroppedLists(s: State, key: Key)
    requires ListsAreMaps(s) && key in s.profiles
    ensures ListsAreMaps(Dropped(s, key))
  {
  }

  lemma UserLists(s: State, a: Step)
    requires ListsAreMaps(s) && (a.CreateProfile? || a.EditProfile? || a.DeleteProfile? || a.Begin?)
    ensures ListsAreMaps(Act(s, a))
  {
    if a.key in s.profiles {
      var p := s.profiles[a.key];
      if a.EditProfile? { ProfileLists(s, a.key, Edited(p, a.newSpec)); }
      else if a.DeleteProfile? { ProfileLists(s, a.key, Terminating(p)); DroppedLists(s, a.key); }
      else if a.Begin? { ProfileLists(s, a.key, p.(finalizer := true)); }
    }
  }

  lemma WorkerLists(s: State, w: Worker)
    requires ListsAreMaps(s) && (w.Idle? || w.Removing?)
    ensures ListsAreMaps(WithWorker(s, w))
  {
  }

  lemma RemovalLists(s: State)
    requires ListsAreMaps(s) && s.worker.Removing?
    ensures ListsAreMaps(RemoveFinalizerStep(s))
  {
    WorkerLists(s, Idle);
    if s.worker.key in s.profiles {
      DroppedLists(s, s.worker.key);
    }
  }

  lemma DeletionLists(s: State, a: Step)
    requires ListsAreMaps(s) && (a.ListGated? || a.RemoveFinalizer? || a.Abort?)
    ensures ListsAreMaps(Act(s, a))
  {
    if a.RemoveFinalizer? {
      if s.worker.Removing? { RemovalLists(s); }
    } else if a.ListGated? {
      if Clear(s, a.key) { WorkerLists(s, Removing(a.key, s.profiles[a.key], s.clock)); }
    } else {
      WorkerLists(s, Idle);
    }
  }

  lemma EnsureLists(s: State)
    requires ListsAreMaps(s)
    ensures ListsAreMaps(Act(s, Ensure))
  {
    if s.worker.Ensuring? && s.worker.done < |s.worker.spec.deviceClaims| {
      var w := s.worker;
      var key := Key(w.key.namespace, RctName(w.key.name, w.spec.deviceClaims[w.done].name));
      if key in s.rcts && s.rcts[key].owner.Some? && s.rcts[key].owner != Some(w.read.uid) {
        assert EnsureStep(s) == WithWorker(s, Idle);
      }
    }
  }

  lemma RestLists(s: State, a: Step)
    requires ListsAreMaps(s)
    requires
      || a.PutTemplate? || a.DropTemplate? || a.PutNamespace? || a.PutQuotas?
      || a.CreateForeignRct? || a.DropForeignRct?
      || a.DeletePod? || a.EditPodLabels? || a.DropForeignGate? || a.Place?
      || a.AdmitRead? || a.AdmitCreate? || a.AdmitLost?
    ensures ListsAreMaps(Act(s, a))
  {
  }

  lemma ActLists(s: State, a: Step)
    requires ListsAreMaps(s)
    ensures ListsAreMaps(Act(s, a))
  {
    if a.Resolve? {
      if s.worker.Resolving? { ResolveLists(s); }
    } else if a.Finish? {
      if s.worker.Ensuring? { FinishLists(s, a.answers); }
    }
    else if a.Ensure? { EnsureLists(s); }
    else if a.CreateProfile? || a.EditProfile? || a.DeleteProfile? || a.Begin? { UserLists(s, a); }
    else if a.ListGated? || a.RemoveFinalizer? || a.Abort? { DeletionLists(s, a); }
    else { RestLists(s, a); }
  }

  lemma ListsNext(s: State, a: Step)
    requires ListsAreMaps(s)
    ensures ListsAreMaps(Next(s, a))
  {
    var t := Act(s, a);
    assert ListsAreMaps(t) by {
      ActLists(s, a);
    }
    assert ListsAreMaps(Tick(t));
  }

  /** In every reachable state each profile's condition list has one entry per type. */
  lemma {:induction false} ListsAreMapsAlways(steps: seq<Step>)
    ensures ListsAreMaps(Run(INITIAL, steps))
    decreases |steps|
  {
    if steps != [] {
      ListsAreMapsAlways(steps[..|steps| - 1]);
      ListsNext(Run(INITIAL, steps[..|steps| - 1]), steps[|steps| - 1]);
    }
  }

  // ---- the documented meaning, over runs ----

  /** What an ensured claim's template is to the status update. */
  lemma EnsuredArePresent(s: State)
    requires s.worker.Ensuring? && SpecOwned(s, s.worker.key, s.worker.spec.deviceClaims, s.worker.read.uid)
    ensures AllPresent(s.worker.spec.deviceClaims, Existing(s, s.worker.key, s.worker.spec.deviceClaims))
  {
    var w := s.worker;
    forall i | 0 <= i < |w.spec.deviceClaims|
      ensures w.spec.deviceClaims[i].name in Existing(s, w.key, w.spec.deviceClaims)
    {
      assert w.spec.deviceClaims[i] in w.spec.deviceClaims;
      assert Owned(s, w.key.namespace, RctName(w.key.name, w.spec.deviceClaims[i].name), w.read.uid);
    }
  }

  /**
   Over every run, a completing status patch stores Valid=True just when the dependencies exist at
   that moment, if and only if the profile it read uses a template or carried no refusal, or its
   queue is unnamed: read errors never matter, the templates are there.
   */
  lemma StoredAsDocumentedIff(steps: seq<Step>, answers: Answers)
    requires var w := Run(INITIAL, steps).worker; w.Ensuring? && w.done == |w.spec.deviceClaims|
    ensures var s := Run(INITIAL, steps);
      var w := s.worker;
      var present := Existing(s, w.key, w.spec.deviceClaims);
      (ValidAt(FinishStep(s, answers), w.key) <==> DependenciesExist(w.spec, present)) <==>
        w.read.spec.templateRef.Some? || NotRefused(w.read.status.conditions) || !QueueNamed(w.spec.placement)
  {
    InvRun(steps);
    ListsAreMapsAlways(steps);
    var j := WasResolved(steps);
    var s := Run(INITIAL, steps);
    var w := s.worker;
    var past := Run(INITIAL, steps[..j]);
    assert w.spec.deviceClaims[..w.done] == w.spec.deviceClaims;
    EnsuredArePresent(s);
    FinishStores(s, answers);
    ResolvedRefusals(w.read, past.env.templates, LabelsOf(past, w.key.namespace), past.clock);
    VerdictIff(w.mem, w.spec, Existing(s, w.key, w.spec.deviceClaims), answers, s.clock);
  }
}
