/** What the steps of users and of the profile controller leave alone: the pods. */
module Effects {
  import opened Kube
  import opened Profiles
  import opened Protocol

  /** Pods and pending creates as before; the departed as before; no removal newly under way. */
  ghost predicate SamePods(s: State, t: State) {
    && t.pods == s.pods && t.pending == s.pending && t.ids.departed == s.ids.departed
    && (!s.worker.Removing? ==> !t.worker.Removing?)
  }

  lemma PatchedAway(s: State, key: Key, base: ProfileStatus, modified: ProfileStatus)
    ensures SamePods(s, Patched(s, key, base, modified))
  {
    if key in s.profiles {
    }
  }

  lemma ResolveAway(s: State)
    requires s.worker.Resolving?
    ensures SamePods(s, ResolveStep(s))
  {
    match ResolveSpec(s.worker.read, s.env.templates, LabelsOf(s, s.worker.key.namespace), s.clock)
    case Aborted =>
    case Refused(stored) => PatchedAway(s, s.worker.key, s.worker.read.status, stored.status);
    case Resolved(mem, spec) =>
  }

  lemma BeginAway(s: State, a: Step)
    requires a.Begin? || a.Resolve? || a.Abort?
    ensures SamePods(s, Next(s, a))
  {
    if a.Resolve? && s.worker.Resolving? {
      ResolveAway(s);
    }
  }

  lemma EnsureAway(s: State)
    ensures SamePods(s, Next(s, Ensure))
  {
    if s.worker.Ensuring? && s.worker.done < |s.worker.spec.deviceClaims| {
      var w := s.worker;
      var key := Key(w.key.namespace, RctName(w.key.name, w.spec.deviceClaims[w.done].name));
      if key in s.rcts && s.rcts[key].owner.Some? && s.rcts[key].owner != Some(w.read.uid) {
        assert EnsureStep(s) == WithWorker(s, Idle);
      }
    }
  }

  lemma FinishAway(s: State, answers: Answers)
    ensures SamePods(s, Next(s, Finish(answers)))
  {
    if s.worker.Ensuring? {
      PatchedAway(s, s.worker.key, s.worker.mem.status, Final(s, answers).status);
    }
  }

  lemma UserAway(s: State, a: Step)
    requires a.CreateProfile? || a.EditProfile? || a.DeleteProfile? || a.PutTemplate? || a.DropTemplate?
      || a.PutNamespace? || a.PutQuotas? || a.CreateForeignRct? || a.DropForeignRct?
    ensures SamePods(s, Next(s, a))
  {
    match a
    case CreateProfile(key, spec) =>
    case EditProfile(key, spec) =>
    case DeleteProfile(key) =>
    case PutTemplate(name, template) =>
    case DropTemplate(name) =>
    case PutNamespace(ns, labels) =>
    case PutQuotas(ns, list) =>
    case CreateForeignRct(key, request) =>
    case DropForeignRct(key) =>
  }

  /** The steps that are neither about pods nor half of a split operation. */
  predicate Away(a: Step) {
    !(a.DeletePod? || a.EditPodLabels? || a.DropForeignGate? || a.Place?
      || a.AdmitRead? || a.AdmitCreate? || a.AdmitLost?
      || a.ListGated? || a.RemoveFinalizer?)
  }

  lemma AwayFromPods(s: State, a: Step)
    requires Away(a)
    ensures SamePods(s, Next(s, a))
  {
    match a
    case Begin(_) => BeginAway(s, a);
    case Resolve => BeginAway(s, a);
    case Abort => BeginAway(s, a);
    case Ensure => EnsureAway(s);
    case Finish(answers) => FinishAway(s, answers);
    case _ => UserAway(s, a);
  }

  /** The two halves of a deletion leave the pods alone as well. */
  lemma DeletionAway(s: State, a: Step)
    requires a.ListGated? || a.RemoveFinalizer?
    ensures Next(s, a).pods == s.pods && Next(s, a).pending == s.pending
  {
    if a.RemoveFinalizer? && s.worker.Removing? {
      if s.worker.key in s.profiles && s.profiles[s.worker.key] == s.worker.read {
        assert RemoveFinalizerStep(s) == Departed(s, s.worker.key, s.worker.listedAt);
      }
    }
  }
}
