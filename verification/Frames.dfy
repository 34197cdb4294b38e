/** What each step of the components writes into the store, field by field, and that it writes nothing else. */
module Frames {
  import opened Kube
  import opened Profiles
  import opened Injection
  import opened Admission
  import opened Protocol
  import opened Safety
  import opened Reconciles

  /** Only the named parts of the store differ, besides the clock and the worker. */
  predicate OnlyProfiles(s: State, t: State) {
    t.rcts == s.rcts && t.pods == s.pods && t.pending == s.pending && t.env == s.env && t.ids == s.ids
  }

  predicate OthersSame(s: State, t: State, key: Key) {
    t.profiles.Keys == s.profiles.Keys && forall k :: k in s.profiles && k != key ==> t.profiles[k] == s.profiles[k]
  }

  /** The finalizer, and nothing else of the profile. */
  lemma BeginWrites(s: State, key: Key)
    requires s.worker.Idle? && key in s.profiles && !s.profiles[key].deleting
    ensures var t := Next(s, Begin(key));
      && OnlyProfiles(s, t) && OthersSame(s, t, key)
      && t.profiles[key].finalizer && t.profiles[key] == s.profiles[key].(finalizer := true)
      && t.worker == Resolving(key, t.profiles[key])
  {
    BeginNext(s, key);
  }

  /** The conditions of a refusal, and nothing else of the profile; nothing at all without a refusal. */
  lemma ResolveWrites(s: State)
    requires Inv(s) && s.worker.Resolving?
    ensures var t := Next(s, Resolve);
      var key := s.worker.key;
      var r := ResolveSpec(s.worker.read, s.env.templates, LabelsOf(s, key.namespace), s.clock);
      && OnlyProfiles(s, t) && OthersSame(s, t, key) && key in s.profiles
      && (!r.Refused? ==> t.profiles == s.profiles)
      && (r.Refused? ==>
            && t.profiles[key].status.conditions == r.stored.status.conditions
            && var was := s.profiles[key].status;
               t.profiles[key] == s.profiles[key].(status := was.(conditions := r.stored.status.conditions)))
  {
    var w := s.worker;
    assert Current(s, w.key, w.read);
    ResolveNext(s);
    var r := ResolveSpec(w.read, s.env.templates, LabelsOf(s, w.key.namespace), s.clock);
    if r.Refused? {
      RefusedIsInvalid(w.read, s.env.templates, LabelsOf(s, w.key.namespace), s.clock);
      assert ResolveStep(s) == Patched(s, w.key, w.read.status, r.stored.status);
    }
  }

  /** One template, named by profile and claim, unless another profile controls it; no profile. */
  lemma EnsureWrites(s: State)
    requires s.worker.Ensuring? && s.worker.done < |s.worker.spec.deviceClaims|
    ensures var t := Next(s, Ensure);
      var w := s.worker;
      var claim := w.spec.deviceClaims[w.done];
      var at := Key(w.key.namespace, "wto-" + w.key.name + "-" + claim.name);
      && t.profiles == s.profiles && t.pods == s.pods && t.pending == s.pending && t.env == s.env && t.ids == s.ids
      && (at in s.rcts && s.rcts[at].owner.Some? && s.rcts[at].owner.value != w.read.uid ==>
            t.rcts == s.rcts && t.worker.Idle?)
      && (!(at in s.rcts && s.rcts[at].owner.Some? && s.rcts[at].owner.value != w.read.uid) ==>
            t.rcts == s.rcts[at := Rct(Some(w.read.uid), claim.exactly)] && t.worker == w.(done := w.done + 1))
  {
    EnsureNext(s);
  }

  /**
   The resolved spec and the conditions of the update, and nothing else of the profile; the conditions
   only if the update changed what resolving had set in memory, for the patch is taken from there.
   */
  lemma FinishWrites(s: State, answers: Answers)
    requires Inv(s) && s.worker.Ensuring? && s.worker.done >= |s.worker.spec.deviceClaims|
    ensures var t := Next(s, Finish(answers));
      var w := s.worker;
      && OnlyProfiles(s, t) && OthersSame(s, t, w.key) && w.key in s.profiles && t.worker.Idle?
      && t.profiles[w.key] == s.profiles[w.key].(status := t.profiles[w.key].status)
      && t.profiles[w.key].status.resolved == Some(w.spec)
      && t.profiles[w.key].status.conditions ==
           (if Final(s, answers).status.conditions == w.mem.status.conditions then s.profiles[w.key].status.conditions
            else Final(s, answers).status.conditions)
      && t.profiles[w.key].status.templateGeneration == s.profiles[w.key].status.templateGeneration
      && t.profiles[w.key].status.resolvedGeneration == s.profiles[w.key].status.resolvedGeneration
  {
    assert Current(s, s.worker.key, s.worker.read);
    FinishNext(s, answers);
    FinishStores(s, answers);
  }

  /** The list writes nothing. */
  lemma ListWrites(s: State, key: Key)
    ensures var t := Next(s, ListGated(key)); OnlyProfiles(s, t) && t.profiles == s.profiles
  {
    if Clear(s, key) {
      ListNext(s, key);
    }
  }

  /** The profile goes with what it controlled, unless it changed since it was read; no other does. */
  lemma RemovalWrites(s: State)
    requires s.worker.Removing?
    ensures var t := Next(s, RemoveFinalizer);
      var w := s.worker;
      var same := w.key in s.profiles && s.profiles[w.key] == w.read;
      && t.pods == s.pods && t.pending == s.pending && t.env == s.env && t.worker.Idle?
      && (!same ==> t.profiles == s.profiles && t.rcts == s.rcts)
      && (same ==>
            && t.profiles == s.profiles - {w.key}
            && (forall k :: k in t.rcts <==> k in s.rcts && s.rcts[k].owner != Some(w.read.uid))
            && (forall k :: k in t.rcts ==> t.rcts[k] == s.rcts[k]))
  {
    RemoveNext(s);
  }

  /** What Handle answered is what is stored, under its namespace and the name it gets. */
  lemma AnswerIsStored(s: State, id: nat, ns: string, submitted: PodObj, overrides: seq<Override>, name: string)
    requires id !in s.pending && Key(ns, name) !in s.pods
    ensures var named := PROFILE_ANNOTATION in submitted.annotations
        && Key(ns, submitted.annotations[PROFILE_ANNOTATION]) in s.profiles;
      var profile := if named then Some(s.profiles[Key(ns, submitted.annotations[PROFILE_ANNOTATION])]) else None;
      var r := Respond(submitted, profile, overrides);
      var t := Next(Next(s, AdmitRead(id, ns, submitted, overrides)), AdmitCreate(id, name));
      && t.profiles == s.profiles && t.rcts == s.rcts && t.env == s.env
      && (forall k :: k in s.pods ==> k in t.pods && t.pods[k] == s.pods[k])
      && (Key(ns, name) in t.pods <==> r.Unmanaged? || r.Admitted?)
      && (r.Unmanaged? ==> t.pods[Key(ns, name)].pod == submitted)
      && (r.Admitted? ==> t.pods[Key(ns, name)].pod == r.pod)
  {
    var s1 := Next(s, AdmitRead(id, ns, submitted, overrides));
    AnswerReads(s, ns, submitted, overrides);
    AdmitReadNext(s, id, ns, submitted, overrides);
    AdmitCreateNext(s1, id, name);
  }

  /** The profile read is the one the pod's annotation names, in the pod's namespace. */
  lemma AnswerReads(s: State, ns: string, submitted: PodObj, overrides: seq<Override>)
    ensures var q := Answer(s, ns, submitted, overrides);
      var named := PROFILE_ANNOTATION in submitted.annotations
        && Key(ns, submitted.annotations[PROFILE_ANNOTATION]) in s.profiles;
      var profile := if named then Some(s.profiles[Key(ns, submitted.annotations[PROFILE_ANNOTATION])]) else None;
      var r := Respond(submitted, profile, overrides);
      && (q.Some? <==> r.Unmanaged? || r.Admitted?)
      && (q.Some? ==> q.value.namespace == ns && q.value.pod == if r.Unmanaged? then submitted else r.pod)
  {
  }

  lemma AdmitReadNext(s: State, id: nat, ns: string, submitted: PodObj, overrides: seq<Override>)
    requires id !in s.pending
    ensures var q := Answer(s, ns, submitted, overrides);
      Next(s, AdmitRead(id, ns, submitted, overrides)) == Tick(if q.Some? then WithPending(s, id, q.value) else s)
  {
  }

  lemma AdmitCreateNext(s: State, id: nat, name: string)
    ensures Next(s, AdmitCreate(id, name)) == Tick(
      if id !in s.pending || Key(s.pending[id].namespace, name) in s.pods then s
      else WithoutPending(WithPod(s, Key(s.pending[id].namespace, name), NewRec(s, s.pending[id])), id))
  {
  }

  /** The labels read are those of the profile's namespace. */
  function NamespaceLabels(s: State, ns: string): Option<StringMap> {
    if ns !in s.env.namespaces then None else Some(s.env.namespaces[ns])
  }

  /** After a resolve the worker goes on exactly when it succeeded, from the first claim, with the spec it gave. */
  lemma ResolveOutcome(s: State)
    requires s.worker.Resolving?
    ensures var w, v := s.worker, Next(s, Resolve).worker;
      && (v.Ensuring? <==> Allowed(w.read, s.env.templates, NamespaceLabels(s, w.key.namespace)))
      && (v.Ensuring? ==>
            v.key == w.key && v.read == w.read && v.done == 0 && ResolvesTo(w.read, s.env.templates, v.spec))
      && (!v.Ensuring? ==> v.Idle?)
  {
    ResolveNext(s);
    ResolvedKeeps(s.worker.read, s.env.templates, NamespaceLabels(s, s.worker.key.namespace), s.clock);
    assert NamespaceLabels(s, s.worker.key.namespace) == LabelsOf(s, s.worker.key.namespace);
    match ResolveSpec(s.worker.read, s.env.templates, LabelsOf(s, s.worker.key.namespace), s.clock)
    case Aborted =>
    case Refused(stored) =>
    case Resolved(mem, spec) =>
  }

  /** The claims the update finds: those whose template, named by profile and claim, is in the namespace. */
  lemma ExistingMeans(s: State, key: Key, claims: seq<DeviceClaim>, i: nat)
    requires i < |claims|
    ensures claims[i].name in Existing(s, key, claims)
      <==> Key(key.namespace, "wto-" + key.name + "-" + claims[i].name) in s.rcts
  {
  }
}
