/**
 The reconcilers in their own form, step by step over objects held in memory, each shown to do
 to the store what the protocol's steps do when nothing comes in between, the clock moving on with
 each of them, and so to keep the protocol's invariant. A request that fails ends a reconcile; in
 the protocol that is an Abort, or a patch that fails.
 */
module Controllers {
  import opened Kube
  import opened Pods
  import opened Conditions
  import opened Profiles
  import opened Protocol
  import opened Placement
  import opened Reconciles
  import opened Safety
  import QuotaCheck
  import Gates

  /** The API server as the controllers see it. */
  class Cluster {
    var state: State

    constructor ()
      ensures state == INITIAL
    {
      state := INITIAL;
    }
  }

  // ---- placement ----

  /**
   A reconcile of a pod. `readError`: its profile could not be read, for another reason than being
   absent. Where a patch is sent, this is the protocol's placement step; otherwise nothing happens.
   */
  method ReconcilePod(c: Cluster, key: Key, readError: bool, quotaListFails: bool, patchFails: bool)
    modifies c
    ensures c.state ==
      if Decide(old(c.state), key, quotaListFails) in {Nothing, Held} || readError then old(c.state)
      else Next(old(c.state), Place(key, quotaListFails, patchFails))
    ensures Inv(old(c.state)) ==> Inv(c.state)
  {
    if key !in c.state.pods {
      return;
    }
    var pod := new Pod(c.state.pods[key].pod);
    var gated := Gates.HasSchedulingGate(pod);
    if !gated || PROFILE_ANNOTATION !in pod.annotations || readError {
      return;
    }
    var name := Key(key.namespace, pod.annotations[PROFILE_ANNOTATION]);
    var removal := ProfileMissing;
    if name in c.state.profiles {
      var profile := c.state.profiles[name];
      var quotas := QuotasOf(c.state, key.namespace);
      var ok := QuotaCheck.CheckQuota(if quotaListFails then None else Some(quotas), ViewOf(profile));
      if !ok {
        return;
      }
      var placement := profile.spec.placement;
      if profile.status.resolved.Some? && profile.status.resolved.value.placement.Some? {
        placement := profile.status.resolved.value.placement;
      }
      var node := NodeOf(placement);
      removal := QuotaPassed(node);
      if node.Some? {
        ApplyNodePlacement(pod, node.value);
      }
    }
    Gates.RemoveSchedulingGate(pod);
    PatchPod(c, key, pod, removal, quotaListFails, patchFails);
  }

  /** The patch is sent, and accepted or not. */
  method PatchPod(c: Cluster, key: Key, pod: Pod, removal: Removal, ghost quotaListFails: bool, patchFails: bool)
    requires key in c.state.pods
    requires AfterPatch(c.state.pods[key], Decide(c.state, key, quotaListFails))
      == c.state.pods[key].(pod := pod.Value(), removal := removal)
    modifies c
    ensures c.state == Next(old(c.state), Place(key, quotaListFails, patchFails))
    ensures Inv(old(c.state)) ==> Inv(c.state)
  {
    ghost var before := c.state;
    if !patchFails {
      c.state := WithPod(c.state, key, c.state.pods[key].(pod := pod.Value(), removal := removal));
    }
    c.state := Tick(c.state);
    assert c.state == Next(before, Place(key, quotaListFails, patchFails));
    if Inv(before) {
      InvNext(before, Place(key, quotaListFails, patchFails));
    }
  }

  // ---- the profile object in memory ----

  class Profile {
    const uid: nat
    const generation: int
    const spec: ProfileSpec
    const deleting: bool
    const conditions: ConditionList
    var finalizer: bool
    var resolved: Option<ProfileSpec>
    var templateGeneration: Option<int>
    var resolvedGeneration: Option<int>

    constructor (p: ProfileObj)
      ensures Valid() && Value() == p && fresh(conditions)
    {
      uid, generation, spec, deleting, finalizer := p.uid, p.generation, p.spec, p.deleting, p.finalizer;
      conditions := new ConditionList(p.status.conditions, p.generation);
      resolved := p.status.resolved;
      templateGeneration, resolvedGeneration := p.status.templateGeneration, p.status.resolvedGeneration;
    }

    ghost predicate Valid() {
      conditions.generation == generation
    }

    function Value(): ProfileObj
      reads this, conditions
    {
      ProfileObj(uid, generation, spec, finalizer, deleting,
                 ProfileStatus(conditions.items, resolved, templateGeneration, resolvedGeneration))
    }

    method SetProfileCondition(kind: string, status: Status, reason: string, now: nat)
      requires Valid()
      modifies conditions
      ensures Value() == WithCondition(old(Value()), kind, status, reason, now)
    {
      conditions.SetCondition(kind, status, reason, now);
    }
  }

  // ---- resolving and updating the status ----

  /** The reads resolveSpec makes, and whether one fails for another reason than absence. */
  predicate ReadFails(read: ProfileObj, templates: map<string, Template>, faults: Faults) {
    && read.spec.templateRef.Some?
    && (|| faults.template
        || (faults.namespace && read.spec.templateRef.value in templates
            && templates[read.spec.templateRef.value].namespaceSelector.Some?))
  }

  method ResolveProfile(c: Cluster, p: Profile, key: Key, faults: Faults) returns (r: Resolution)
    requires p.Valid()
    modifies p, p.conditions
    ensures r == if ReadFails(old(p.Value()), c.state.env.templates, faults) then Aborted
      else ResolveSpec(old(p.Value()), c.state.env.templates, LabelsOf(c.state, key.namespace), c.state.clock)
    ensures (r.Resolved? ==> p.Value() == r.mem) && (r.Refused? ==> p.Value() == r.stored)
  {
    var now := c.state.clock;
    if p.spec.templateRef.None? {
      return Resolved(p.Value(), p.spec);
    }
    if faults.template {
      return Aborted;
    }
    var name := p.spec.templateRef.value;
    if name !in c.state.env.templates {
      p.SetProfileCondition(TEMPLATE_FOUND, False, "NotFound", now);
      p.SetProfileCondition(VALID, False, "TemplateNotFound", now);
      return Refused(p.Value());
    }
    var template := c.state.env.templates[name];
    var hadGeneration := p.resolvedGeneration.Some?;
    p.SetProfileCondition(TEMPLATE_FOUND, True, "Found", now);
    if template.namespaceSelector.Some? {
      if faults.namespace {
        return Aborted;
      }
      if key.namespace !in c.state.env.namespaces || Malformed in template.namespaceSelector.value {
        return Aborted;
      }
      if !Matches(c.state.env.namespaces[key.namespace], template.namespaceSelector.value) {
        p.SetProfileCondition(NAMESPACE_ALLOWED, False, "NotAllowed", now);
        p.SetProfileCondition(VALID, False, "NamespaceNotAllowed", now);
        return Refused(p.Value());
      }
      p.SetProfileCondition(NAMESPACE_ALLOWED, True, "Allowed", now);
    } else {
      p.SetProfileCondition(NAMESPACE_ALLOWED, True, "AllNamespaces", now);
    }
    var merged := ProfileSpec(None, template.defaults, template.containers, template.deviceClaims, p.spec.placement);
    p.templateGeneration := Some(template.generation);
    p.resolvedGeneration := Some(p.generation);
    if hadGeneration && p.resolved.Some? && p.resolved.value.templateRef.Some? {
      p.SetProfileCondition(DRIFTED, False, "InSync", now);
    }
    r := Resolved(p.Value(), merged);
  }

  /** The nested loops over claims and device classes: the inner one stops at the first match. */
  method AnyClassFound(claims: seq<DeviceClaim>, classes: set<string>) returns (found: bool)
    ensures found <==> SomeClassIn(claims, classes)
  {
    found := false;
    for i := 0 to |claims|
      invariant found <==> SomeClassIn(claims[..i], classes)
    {
      var todo := classes;
      while todo != {}
        invariant todo <= classes
        invariant claims[i].exactly.Some? ==> claims[i].exactly.value.className !in classes - todo
        invariant found <==> SomeClassIn(claims[..i], classes)
        decreases |todo|
      {
        var dc :| dc in todo;
        if claims[i].exactly.Some? && dc == claims[i].exactly.value.className {
          found := true;
          break;
        }
        todo := todo - {dc};
      }
    }
  }

  /** The verdict's loops: over the claims' templates, then over every condition. */
  method Structural(c: Cluster, key: Key, spec: ProfileSpec, conditions: ConditionList, answers: Answers)
    returns (valid: bool)
    ensures valid <==>
      && QueueNamed(spec.placement)
      && ClaimsPresent(spec.deviceClaims, Existing(c.state, key, spec.deviceClaims), answers)
      && NotRefused(conditions.items)
  {
    valid := true;
    if spec.placement.Some? && spec.placement.value.kind == QueueType {
      if spec.placement.value.queue.None? || spec.placement.value.queue.value.localQueueName == "" {
        valid := false;
      }
    }
    ghost var present := Existing(c.state, key, spec.deviceClaims);
    for i := 0 to |spec.deviceClaims|
      invariant valid <==>
        && QueueNamed(spec.placement)
        && ClaimsPresent(spec.deviceClaims[..i], present, answers)
    {
      var claim := spec.deviceClaims[i];
      var readError := claim.name in answers.getErrors;
      if !readError && Key(key.namespace, RctName(key.name, claim.name)) !in c.state.rcts {
        assert claim.name !in present;
        valid := false;
      }
    }
    for i := 0 to |conditions.items|
      invariant valid <==>
        && QueueNamed(spec.placement) && ClaimsPresent(spec.deviceClaims, present, answers)
        && forall j :: 0 <= j < i ==> !Refuses(conditions.items[j])
    {
      if conditions.items[i].kind == TEMPLATE_FOUND && conditions.items[i].status == False {
        valid := false;
      }
      if conditions.items[i].kind == NAMESPACE_ALLOWED && conditions.items[i].status == False {
        valid := false;
      }
    }
  }

  method UpdateStatus(c: Cluster, p: Profile, key: Key, spec: ProfileSpec, answers: Answers)
    requires p.Valid()
    modifies p, p.conditions
    ensures var existing := Existing(c.state, key, spec.deviceClaims);
      p.Value() == UpdatedStatus(old(p.Value()), spec, existing, answers, c.state.clock)
  {
    var now := c.state.clock;
    p.resolved := Some(spec);
    var draAvailable := false;
    if answers.deviceClasses.Some? {
      draAvailable := AnyClassFound(spec.deviceClaims, answers.deviceClasses.value);
    }
    if |spec.deviceClaims| == 0 {
      p.conditions.RemoveCondition(DRA_ENABLED);
      p.conditions.RemoveCondition(DEVICE_CLASS_AVAILABLE);
    } else {
      p.SetProfileCondition(DRA_ENABLED, True, "DRAAvailable", now);
      var reason := ReasonOf(draAvailable, "Found", "NotFound");
      p.SetProfileCondition(DEVICE_CLASS_AVAILABLE, StatusOf(draAvailable), reason, now);
    }
    match answers.targetKind {
      case None => p.conditions.RemoveCondition(TARGET_KIND_VALID);
      case Some((status, reason)) => p.SetProfileCondition(TARGET_KIND_VALID, status, reason, now);
    }
    assert p.Value() == BeforeVerdict(old(p.Value()), spec, answers, now);
    var valid := Structural(c, key, spec, p.conditions, answers);
    p.SetProfileCondition(VALID, StatusOf(valid), ReasonOf(valid, "Valid", "Invalid"), now);
  }

  // ---- deletion ----

  /** findGatedPodsForProfile: a scan of the namespace's pods, in any order. */
  method FindGatedPods(c: Cluster, key: Key) returns (gated: seq<Key>)
    ensures (set k | k in gated) == GatedPods(c.state, key)
  {
    gated := [];
    var todo := set k | k in c.state.pods && k.namespace == key.namespace;
    while todo != {}
      invariant todo <= (set k | k in c.state.pods && k.namespace == key.namespace)
      invariant forall k :: k in gated <==> k in GatedPods(c.state, key) && k !in todo
      decreases |todo|
    {
      var k :| k in todo;
      todo := todo - {k};
      var pod := new Pod(c.state.pods[k].pod);
      if ValueAt(pod.annotations, PROFILE_ANNOTATION) != key.name {
        continue;
      }
      var has := Gates.HasSchedulingGate(pod);
      if has {
        gated := gated + [k];
      }
    }
  }

  method HandleDeletion(c: Cluster, key: Key, faults: Faults)
    requires c.state.worker.Idle? && key in c.state.profiles && c.state.profiles[key].deleting
    modifies c
    ensures c.state == DeletionStep(old(c.state), key, faults)
  {
    if !c.state.profiles[key].finalizer || faults.podList {
      return;
    }
    var gated := FindGatedPods(c, key);
    if |gated| > 0 {
      ghost var listed := set k | k in gated;
      assert gated[0] in listed;
      assert GatedPods(c.state, key) != {};
      return;
    }
    assert (set k | k in gated) == {};
    RemoveFinalizerFrom(c, key, faults);
  }

  /** The update that drops the finalizer: the list was one moment before. */
  method RemoveFinalizerFrom(c: Cluster, key: Key, faults: Faults)
    requires Clear(c.state, key) && !faults.podList
    modifies c
    ensures c.state == DeletionStep(old(c.state), key, faults)
  {
    var listedAt := c.state.clock;
    ghost var before := c.state;
    c.state := Tick(c.state);
    if !faults.removal {
      c.state := Departed(c.state, key, listedAt);
    }
    c.state := Tick(c.state);
    ghost var listed := Tick(WithWorker(before, Removing(key, before.profiles[key], listedAt)));
    assert WithWorker(listed, Idle) == Tick(before);
    assert RemoveFinalizerStep(listed) == Departed(listed, key, listedAt) == Departed(Tick(before), key, listedAt);
  }

  // ---- the whole reconcile of a profile ----

  method EnsureResourceClaimTemplate(c: Cluster, key: Key, uid: nat, claim: DeviceClaim, faults: Faults)
    returns (ok: bool)
    modifies c
    ensures var rct := Key(key.namespace, RctName(key.name, claim.name));
      && (ok <==>
            && claim.name !in faults.ensure
            && (rct in old(c.state).rcts ==> old(c.state).rcts[rct].owner in {None, Some(uid)}))
      && c.state == Tick(if ok then WithRct(old(c.state), rct, Rct(Some(uid), claim.exactly)) else old(c.state))
  {
    var at := Key(key.namespace, RctName(key.name, claim.name));
    ok := false;
    if claim.name !in faults.ensure {
      if !(at in c.state.rcts && c.state.rcts[at].owner.Some? && c.state.rcts[at].owner.value != uid) {
        c.state := WithRct(c.state, at, Rct(Some(uid), claim.exactly));
        ok := true;
      }
    }
    c.state := Tick(c.state);
  }

  method PatchProfileStatus(c: Cluster, key: Key, base: ProfileStatus, modified: ProfileStatus, fails: bool)
    requires c.state.worker.Idle?
    modifies c
    ensures c.state == Tick(if fails then old(c.state) else Patched(old(c.state), key, base, modified))
  {
    if !fails && key in c.state.profiles {
      var p := c.state.profiles[key];
      c.state := WithProfile(c.state, key, p.(status := PatchStatus(p.status, base, modified)));
    }
    c.state := Tick(c.state);
  }

  /** The claims loop and the status patch. */
  method EnsureAndUpdate(c: Cluster, p: Profile, key: Key, spec: ProfileSpec, answers: Answers, faults: Faults,
                         ghost read: ProfileObj)
    requires c.state.worker.Idle? && p.Valid() && p.uid == read.uid
    modifies c, p, p.conditions
    ensures var ensuring := WithWorker(old(c.state), Ensuring(key, read, old(p.Value()), spec, 0));
      c.state == FromEnsure(ensuring, answers, faults)
  {
    ghost var mem := p.Value();
    ghost var goal := FromEnsure(WithWorker(c.state, Ensuring(key, read, mem, spec, 0)), answers, faults);
    for i := 0 to |spec.deviceClaims|
      invariant c.state.worker.Idle? && p.Value() == mem
      invariant FromEnsure(WithWorker(c.state, Ensuring(key, read, mem, spec, i)), answers, faults) == goal
    {
      ghost var before := WithWorker(c.state, Ensuring(key, read, mem, spec, i));
      var ok := EnsureResourceClaimTemplate(c, key, p.uid, spec.deviceClaims[i], faults);
      EnsureUnfolds(before, c.state, ok, answers, faults);
      if !ok {
        return;
      }
    }
    var base := p.Value();
    UpdateStatus(c, p, key, spec, answers);
    PatchProfileStatus(c, key, base.status, p.Value().status, faults.status);
  }

  lemma EnsureUnfolds(s: State, t: State, ok: bool, answers: Answers, faults: Faults)
    requires s.worker.Ensuring? && s.worker.done < |s.worker.spec.deviceClaims| && t.worker.Idle?
    requires var w := s.worker;
      var claim := w.spec.deviceClaims[w.done];
      var rct := Key(w.key.namespace, RctName(w.key.name, claim.name));
      && (ok <==>
            && claim.name !in faults.ensure
            && !(rct in s.rcts && s.rcts[rct].owner.Some? && s.rcts[rct].owner != Some(w.read.uid)))
      && t == Tick(WithWorker(if ok then WithRct(s, rct, Rct(Some(w.read.uid), claim.exactly)) else s, Idle))
    ensures FromEnsure(s, answers, faults)
      == if ok then FromEnsure(WithWorker(t, s.worker.(done := s.worker.done + 1)), answers, faults) else t
  {
    if ok {
      assert Tick(EnsureStep(s)) == WithWorker(t, s.worker.(done := s.worker.done + 1));
    } else if s.worker.spec.deviceClaims[s.worker.done].name !in faults.ensure {
      assert Tick(EnsureStep(s)) == t;
    }
  }

  /** Reconcile from the resolve on. */
  method ResolveAndEnsure(c: Cluster, key: Key, answers: Answers, faults: Faults)
    requires c.state.worker.Idle? && key in c.state.profiles
    modifies c
    ensures var resolving := WithWorker(old(c.state), Resolving(key, old(c.state).profiles[key]));
      c.state == FromResolve(resolving, answers, faults)
  {
    var read := c.state.profiles[key];
    ghost var resolving := WithWorker(c.state, Resolving(key, read));
    var p := new Profile(read);
    var resolution := ResolveProfile(c, p, key, faults);
    ResolveUnfolds(resolving, resolution, answers, faults);
    match resolution {
      case Aborted =>
        c.state := Tick(c.state);
      case Refused(stored) =>
        PatchProfileStatus(c, key, read.status, p.Value().status, faults.status);
      case Resolved(mem, spec) =>
        c.state := Tick(c.state);
        EnsureAndUpdate(c, p, key, spec, answers, faults, read);
    }
  }

  lemma ResolveUnfolds(s: State, r: Resolution, answers: Answers, faults: Faults)
    requires s.worker.Resolving?
    requires var w := s.worker;
      r == if ReadFails(w.read, s.env.templates, faults) then Aborted
        else ResolveSpec(w.read, s.env.templates, LabelsOf(s, w.key.namespace), s.clock)
    ensures FromResolve(s, answers, faults) == AfterResolve(s, r, answers, faults)
  {
  }

  /** What follows the outcome of a resolve. */
  function AfterResolve(s: State, r: Resolution, answers: Answers, faults: Faults): State
    requires s.worker.Resolving?
  {
    var w := s.worker;
    match r
    case Aborted => Tick(WithWorker(s, Idle))
    case Refused(stored) =>
      Tick(if faults.status then WithWorker(s, Idle) else Patched(s, w.key, w.read.status, stored.status))
    case Resolved(mem, spec) =>
      FromEnsure(Tick(WithWorker(s, Ensuring(w.key, w.read, mem, spec, 0))), answers, faults)
  }

  /** One call of Reconcile for a profile, whatever requests fail on the way. */
  method ReconcileProfile(c: Cluster, key: Key, answers: Answers, faults: Faults)
    requires c.state.worker.Idle?
    modifies c
    ensures c.state == Undisturbed(old(c.state), key, answers, faults)
    ensures c.state.worker.Idle? && (Inv(old(c.state)) ==> Inv(c.state))
  {
    UndisturbedKeepsInv(c.state, key, answers, faults);
    if key !in c.state.profiles {
      return;
    }
    var read := c.state.profiles[key];
    if read.deleting {
      HandleDeletion(c, key, faults);
      return;
    }
    if !read.finalizer {
      if faults.finalizer {
        return;
      }
      c.state := WithProfile(c.state, key, read.(finalizer := true));
    }
    c.state := Tick(c.state);
    BeginUnfolds(old(c.state), key);
    ResolveAndEnsure(c, key, answers, faults);
  }

  lemma BeginUnfolds(s: State, key: Key)
    requires key in s.profiles
    ensures var p := s.profiles[key].(finalizer := true);
      && Tick(Begun(s, key)) == WithWorker(Tick(WithProfile(s, key, p)), Resolving(key, p))
      && (s.profiles[key].finalizer ==> WithProfile(s, key, p) == s)
  {
  }
}
