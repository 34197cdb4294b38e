/**
 The profile object and the pure parts of its controller: resolving the spec against the
 template and the namespace, and computing the status that one patch then stores.
 */
module Profiles {
  import opened Kube
  import opened Conditions
  import QuotaCheck

  datatype ProfileStatus = ProfileStatus(
    conditions: seq<Condition>,
    resolved: Option<ProfileSpec>,
    templateGeneration: Option<int>,
    resolvedGeneration: Option<int>)

  const NO_STATUS := ProfileStatus([], None, None, None)

  /** `finalizer`: carries the profile-protection finalizer, the only one there is. */
  datatype ProfileObj = ProfileObj(
    uid: nat,
    generation: int,
    spec: ProfileSpec,
    finalizer: bool,
    deleting: bool,
    status: ProfileStatus)

  function ViewOf(p: ProfileObj): QuotaCheck.View {
    QuotaCheck.View(p.spec, p.status.resolved)
  }

  predicate IsValid(p: ProfileObj) {
    IsTrue(p.status.conditions, VALID)
  }

  function WithCondition(p: ProfileObj, kind: string, status: Status, reason: string, now: nat): ProfileObj {
    p.(status := p.status.(conditions := Set(p.status.conditions, kind, status, reason, now, p.generation)))
  }

  function WithoutCondition(p: ProfileObj, kind: string): ProfileObj {
    p.(status := p.status.(conditions := Remove(p.status.conditions, kind)))
  }

  // ---- resolveSpec ----

  /**
   Aborted: an API error or a malformed selector. Refused: the result was stored as conditions.
   Resolved: the in-memory object with its conditions set, and the spec to use.
   */
  datatype Resolution =
    | Aborted
    | Refused(stored: ProfileObj)
    | Resolved(mem: ProfileObj, spec: ProfileSpec)

  function Merged(p: ProfileObj, t: Template): ProfileSpec {
    ProfileSpec(None, t.defaults, t.containers, t.deviceClaims, p.spec.placement)
  }

  /** The in-memory object once the namespace is allowed. */
  function Accepted(p: ProfileObj, t: Template, now: nat): ProfileObj {
    var reason := ReasonOf(t.namespaceSelector.Some?, "Allowed", "AllNamespaces");
    var allowed := WithCondition(p, NAMESPACE_ALLOWED, True, reason, now);
    var stamped := allowed.(status := allowed.status.(templateGeneration := Some(t.generation),
      resolvedGeneration := Some(p.generation)));
    if p.status.resolvedGeneration.Some? && p.status.resolved.Some? && p.status.resolved.value.templateRef.Some?
    then WithCondition(stamped, DRIFTED, False, "InSync", now)
    else stamped
  }

  function ResolveSpec(p: ProfileObj, templates: map<string, Template>, labels: Option<StringMap>,
      now: nat): Resolution {
    if p.spec.templateRef.None? then Resolved(p, p.spec)
    else if p.spec.templateRef.value !in templates then
      Refused(WithCondition(WithCondition(p, TEMPLATE_FOUND, False, "NotFound", now), VALID, False,
        "TemplateNotFound", now))
    else
      var t := templates[p.spec.templateRef.value];
      var found := WithCondition(p, TEMPLATE_FOUND, True, "Found", now);
      if t.namespaceSelector.Some? && (labels.None? || Malformed in t.namespaceSelector.value) then Aborted
      else if t.namespaceSelector.Some? && !Matches(labels.value, t.namespaceSelector.value) then
        Refused(WithCondition(WithCondition(found, NAMESPACE_ALLOWED, False, "NotAllowed", now), VALID, False,
          "NamespaceNotAllowed", now))
      else Resolved(Accepted(found, t, now), Merged(p, t))
  }

  /** An inline profile, or one whose template is there and admits the namespace. */
  predicate Allowed(p: ProfileObj, templates: map<string, Template>, labels: Option<StringMap>) {
    p.spec.templateRef.Some? ==>
      && p.spec.templateRef.value in templates
      && var selector := templates[p.spec.templateRef.value].namespaceSelector;
         selector.Some? ==> labels.Some? && Matches(labels.value, selector.value)
  }

  /** What such a profile resolves to: its own spec, or its template's hardware with its own placement. */
  predicate ResolvesTo(p: ProfileObj, templates: map<string, Template>, spec: ProfileSpec) {
    && (p.spec.templateRef.None? ==> spec == p.spec)
    && (p.spec.templateRef.Some? ==>
          && p.spec.templateRef.value in templates
          && spec.templateRef == None
          && spec.defaults == templates[p.spec.templateRef.value].defaults
          && spec.containers == templates[p.spec.templateRef.value].containers
          && spec.deviceClaims == templates[p.spec.templateRef.value].deviceClaims
          && spec.placement == p.spec.placement)
  }

  // ---- updateStatus ----

  /** What the status update reads besides the object: any answer the API server may give. */
  datatype Answers = Answers(
    deviceClasses: Option<set<string>>,       // None: the list failed
    getErrors: set<string>,                   // claims whose template could not be read for another reason
    targetKind: Option<(Status, string)>)     // the verdict of the target kind check; None: no target kind

  /** Some claim's device class exists. */
  predicate SomeClassIn(claims: seq<DeviceClaim>, classes: set<string>) {
    exists i :: 0 <= i < |claims| && claims[i].exactly.Some? && claims[i].exactly.value.className in classes
  }

  predicate ClassFound(claims: seq<DeviceClaim>, answers: Answers) {
    answers.deviceClasses.Some? && SomeClassIn(claims, answers.deviceClasses.value)
  }

  predicate QueueNamed(placement: Option<PlacementConfig>) {
    placement.Some? && placement.value.kind == QueueType ==>
      placement.value.queue.Some? && placement.value.queue.value.localQueueName != ""
  }

  /** No claim's ResourceClaimTemplate was found missing. */
  predicate ClaimsPresent(claims: seq<DeviceClaim>, existing: set<string>, answers: Answers) {
    forall i :: 0 <= i < |claims| ==> claims[i].name in answers.getErrors || claims[i].name in existing
  }

  predicate Refuses(c: Condition) {
    c.status == False && (c.kind == TEMPLATE_FOUND || c.kind == NAMESPACE_ALLOWED)
  }

  /** The scan looks at every entry, not just the first of its type. */
  predicate NotRefused(cs: seq<Condition>) {
    forall i :: 0 <= i < |cs| ==> !Refuses(cs[i])
  }

  function WithDeviceConditions(p: ProfileObj, claims: seq<DeviceClaim>, answers: Answers, now: nat): ProfileObj {
    if claims == [] then WithoutCondition(WithoutCondition(p, DRA_ENABLED), DEVICE_CLASS_AVAILABLE)
    else
      var found := ClassFound(claims, answers);
      WithCondition(WithCondition(p, DRA_ENABLED, True, "DRAAvailable", now),
                    DEVICE_CLASS_AVAILABLE, StatusOf(found), ReasonOf(found, "Found", "NotFound"), now)
  }

  function WithTargetKind(p: ProfileObj, answers: Answers, now: nat): ProfileObj {
    match answers.targetKind
    case None => WithoutCondition(p, TARGET_KIND_VALID)
    case Some((status, reason)) => WithCondition(p, TARGET_KIND_VALID, status, reason, now)
  }

  /** The conditions just before the verdict is set. */
  function BeforeVerdict(mem: ProfileObj, spec: ProfileSpec, answers: Answers, now: nat): ProfileObj {
    var start := mem.(status := mem.status.(resolved := Some(spec)));
    WithTargetKind(WithDeviceConditions(start, spec.deviceClaims, answers, now), answers, now)
  }

  predicate Verdict(mem: ProfileObj, spec: ProfileSpec, existing: set<string>, answers: Answers, now: nat) {
    && QueueNamed(spec.placement)
    && ClaimsPresent(spec.deviceClaims, existing, answers)
    && NotRefused(BeforeVerdict(mem, spec, answers, now).status.conditions)
  }

  /** The in-memory object the status patch is computed from. */
  function UpdatedStatus(mem: ProfileObj, spec: ProfileSpec, existing: set<string>, answers: Answers,
      now: nat): ProfileObj {
    var ok := Verdict(mem, spec, existing, answers, now);
    WithCondition(BeforeVerdict(mem, spec, answers, now), VALID, StatusOf(ok), ReasonOf(ok, "Valid", "Invalid"), now)
  }

  /** A merge patch carries a field only if it differs from the base; lists are carried whole. */
  function Carried<T(==)>(stored: T, base: T, modified: T): T {
    if base == modified then stored else modified
  }

  function PatchStatus(stored: ProfileStatus, base: ProfileStatus, modified: ProfileStatus): ProfileStatus {
    ProfileStatus(
      Carried(stored.conditions, base.conditions, modified.conditions),
      Carried(stored.resolved, base.resolved, modified.resolved),
      Carried(stored.templateGeneration, base.templateGeneration, modified.templateGeneration),
      Carried(stored.resolvedGeneration, base.resolvedGeneration, modified.resolvedGeneration))
  }

  // ---- what these functions keep ----

  /** The condition of the type is there, with this status and reason, observed at this generation. */
  predicate Reads(cs: seq<Condition>, kind: string, status: Status, reason: string, generation: int) {
    && Find(cs, kind).Some? && Find(cs, kind).value.status == status
    && Find(cs, kind).value.reason == reason && Find(cs, kind).value.observedGeneration == generation
  }

  lemma FindWith(p: ProfileObj, kind: string, status: Status, reason: string, now: nat)
    ensures var cs := WithCondition(p, kind, status, reason, now).status.conditions;
      && (forall k :: k != kind ==> Find(cs, k) == Find(p.status.conditions, k))
      && Reads(cs, kind, status, reason, p.generation)
  {
    FindSet(p.status.conditions, kind, status, reason, now, p.generation);
  }

  /** A refusal stores a Valid that is not True, and touches nothing but conditions. */
  lemma RefusedIsInvalid(p: ProfileObj, templates: map<string, Template>, labels: Option<StringMap>, now: nat)
    ensures var r := ResolveSpec(p, templates, labels, now);
      r.Refused? ==> !IsValid(r.stored) && r.stored == p.(status := p.status.(conditions := r.stored.status.conditions))
  {
    var r := ResolveSpec(p, templates, labels, now);
    if r.Refused? {
      if p.spec.templateRef.value !in templates {
        FindWith(WithCondition(p, TEMPLATE_FOUND, False, "NotFound", now), VALID, False, "TemplateNotFound", now);
      } else {
        var found := WithCondition(p, TEMPLATE_FOUND, True, "Found", now);
        FindWith(WithCondition(found, NAMESPACE_ALLOWED, False, "NotAllowed", now), VALID, False,
          "NamespaceNotAllowed", now);
      }
    }
  }

  /** A resolve succeeds exactly when allowed; it leaves the stored verdict, uid and resolved spec alone in memory. */
  lemma ResolvedKeeps(p: ProfileObj, templates: map<string, Template>, labels: Option<StringMap>, now: nat)
    ensures var r := ResolveSpec(p, templates, labels, now);
      && (r.Resolved? <==> Allowed(p, templates, labels))
      && (r.Resolved? ==>
        && Find(r.mem.status.conditions, VALID) == Find(p.status.conditions, VALID)
        && r.mem.uid == p.uid && r.mem.status.resolved == p.status.resolved
        && ResolvesTo(p, templates, r.spec))
  {
    var r := ResolveSpec(p, templates, labels, now);
    if r.Resolved? && p.spec.templateRef.Some? {
      var t := templates[p.spec.templateRef.value];
      FindWith(p, TEMPLATE_FOUND, True, "Found", now);
      var found := WithCondition(p, TEMPLATE_FOUND, True, "Found", now);
      var reason := ReasonOf(t.namespaceSelector.Some?, "Allowed", "AllNamespaces");
      FindWith(found, NAMESPACE_ALLOWED, True, reason, now);
      var stamped := WithCondition(found, NAMESPACE_ALLOWED, True, reason, now);
      FindWith(stamped.(status := stamped.status.(templateGeneration := Some(t.generation),
        resolvedGeneration := Some(p.generation))),
               DRIFTED, False, "InSync", now);
    }
  }

  /**
   What a refusal stores, and when: the template is missing, or the namespace does not match its
   well-formed selector. No other condition moves.
   */
  lemma RefusedSays(p: ProfileObj, templates: map<string, Template>, labels: Option<StringMap>, now: nat)
    ensures var r := ResolveSpec(p, templates, labels, now);
      && (r.Refused? <==>
            && p.spec.templateRef.Some?
            && (p.spec.templateRef.value in templates ==>
                  && templates[p.spec.templateRef.value].namespaceSelector.Some? && labels.Some?
                  && Malformed !in templates[p.spec.templateRef.value].namespaceSelector.value
                  && !Matches(labels.value, templates[p.spec.templateRef.value].namespaceSelector.value)))
      && (r.Refused? ==>
            var cs, was := r.stored.status.conditions, p.status.conditions;
            && (p.spec.templateRef.value !in templates ==>
                  && Reads(cs, VALID, False, "TemplateNotFound", p.generation)
                  && Reads(cs, TEMPLATE_FOUND, False, "NotFound", p.generation)
                  && Find(cs, NAMESPACE_ALLOWED) == Find(was, NAMESPACE_ALLOWED))
            && (p.spec.templateRef.value in templates ==>
                  && Reads(cs, VALID, False, "NamespaceNotAllowed", p.generation)
                  && Reads(cs, TEMPLATE_FOUND, True, "Found", p.generation)
                  && Reads(cs, NAMESPACE_ALLOWED, False, "NotAllowed", p.generation))
            && forall k :: k !in {VALID, TEMPLATE_FOUND, NAMESPACE_ALLOWED} ==> Find(cs, k) == Find(was, k))
  {
    var r := ResolveSpec(p, templates, labels, now);
    if r.Refused? {
      if p.spec.templateRef.value !in templates {
        FindWith(p, TEMPLATE_FOUND, False, "NotFound", now);
        FindWith(WithCondition(p, TEMPLATE_FOUND, False, "NotFound", now), VALID, False, "TemplateNotFound", now);
      } else {
        FindWith(p, TEMPLATE_FOUND, True, "Found", now);
        var found := WithCondition(p, TEMPLATE_FOUND, True, "Found", now);
        FindWith(found, NAMESPACE_ALLOWED, False, "NotAllowed", now);
        FindWith(WithCondition(found, NAMESPACE_ALLOWED, False, "NotAllowed", now), VALID, False,
          "NamespaceNotAllowed", now);
      }
    }
  }

  /** The drift condition, for a profile that had resolved before to a spec naming a template. */
  predicate DriftSaid(p: ProfileObj, cs: seq<Condition>) {
    var was := p.status;
    if was.resolvedGeneration.Some? && was.resolved.Some? && was.resolved.value.templateRef.Some?
    then Reads(cs, DRIFTED, False, "InSync", p.generation)
    else Find(cs, DRIFTED) == Find(was.conditions, DRIFTED)
  }

  /** What a successful resolve sets in memory: nothing for an inline profile. */
  lemma ResolvedSays(p: ProfileObj, templates: map<string, Template>, labels: Option<StringMap>, now: nat)
    requires ResolveSpec(p, templates, labels, now).Resolved?
    ensures var mem := ResolveSpec(p, templates, labels, now).mem;
      && (p.spec.templateRef.None? ==> mem == p)
      && (p.spec.templateRef.Some? ==>
            var reason :=
              if templates[p.spec.templateRef.value].namespaceSelector.None? then "AllNamespaces" else "Allowed";
            && Reads(mem.status.conditions, TEMPLATE_FOUND, True, "Found", p.generation)
            && Reads(mem.status.conditions, NAMESPACE_ALLOWED, True, reason, p.generation)
            && DriftSaid(p, mem.status.conditions)
            && mem.status.templateGeneration == Some(templates[p.spec.templateRef.value].generation)
            && mem.status.resolvedGeneration == Some(p.generation))
      && (forall k :: k !in {TEMPLATE_FOUND, NAMESPACE_ALLOWED, DRIFTED} ==>
            Find(mem.status.conditions, k) == Find(p.status.conditions, k))
      && mem == p.(status := mem.status)
  {
    if p.spec.templateRef.Some? {
      var t := templates[p.spec.templateRef.value];
      FindWith(p, TEMPLATE_FOUND, True, "Found", now);
      var found := WithCondition(p, TEMPLATE_FOUND, True, "Found", now);
      var reason := ReasonOf(t.namespaceSelector.Some?, "Allowed", "AllNamespaces");
      FindWith(found, NAMESPACE_ALLOWED, True, reason, now);
      var allowed := WithCondition(found, NAMESPACE_ALLOWED, True, reason, now);
      var stamped := allowed.(status := allowed.status.(templateGeneration := Some(t.generation),
        resolvedGeneration := Some(p.generation)));
      FindWith(stamped, DRIFTED, False, "InSync", now);
    }
  }

  lemma FindWithout(p: ProfileObj, kind: string)
    ensures var cs := WithoutCondition(p, kind).status.conditions;
      forall k :: Find(cs, k) == if k == kind then None else Find(p.status.conditions, k)
  {
    FindRemove(p.status.conditions, kind);
  }

  /** What an update leaves of every condition but the verdict. */
  lemma UpdatedConditions(mem: ProfileObj, spec: ProfileSpec, existing: set<string>, answers: Answers, now: nat)
    ensures var cs := UpdatedStatus(mem, spec, existing, answers, now).status.conditions;
      && (spec.deviceClaims == [] ==> Find(cs, DRA_ENABLED) == None && Find(cs, DEVICE_CLASS_AVAILABLE) == None)
      && (spec.deviceClaims != [] ==>
            && Reads(cs, DRA_ENABLED, True, "DRAAvailable", mem.generation)
            && (|| Reads(cs, DEVICE_CLASS_AVAILABLE, True, "Found", mem.generation)
                || Reads(cs, DEVICE_CLASS_AVAILABLE, False, "NotFound", mem.generation)))
      && (answers.targetKind.None? ==> Find(cs, TARGET_KIND_VALID) == None)
      && (answers.targetKind.Some? ==>
            Reads(cs, TARGET_KIND_VALID, answers.targetKind.value.0, answers.targetKind.value.1, mem.generation))
      && (|| Reads(cs, VALID, True, "Valid", mem.generation)
          || Reads(cs, VALID, False, "Invalid", mem.generation))
      && forall k :: k !in {DRA_ENABLED, DEVICE_CLASS_AVAILABLE, TARGET_KIND_VALID, VALID} ==>
           Find(cs, k) == Find(mem.status.conditions, k)
  {
    var start := mem.(status := mem.status.(resolved := Some(spec)));
    var devices := WithDeviceConditions(start, spec.deviceClaims, answers, now);
    if spec.deviceClaims == [] {
      FindWithout(start, DRA_ENABLED);
      FindWithout(WithoutCondition(start, DRA_ENABLED), DEVICE_CLASS_AVAILABLE);
    } else {
      var found := ClassFound(spec.deviceClaims, answers);
      FindWith(start, DRA_ENABLED, True, "DRAAvailable", now);
      FindWith(WithCondition(start, DRA_ENABLED, True, "DRAAvailable", now), DEVICE_CLASS_AVAILABLE,
               StatusOf(found), ReasonOf(found, "Found", "NotFound"), now);
    }
    match answers.targetKind {
      case None => FindWithout(devices, TARGET_KIND_VALID);
      case Some((status, reason)) => FindWith(devices, TARGET_KIND_VALID, status, reason, now);
    }
    var ok := Verdict(mem, spec, existing, answers, now);
    FindWith(BeforeVerdict(mem, spec, answers, now), VALID, StatusOf(ok), ReasonOf(ok, "Valid", "Invalid"), now);
  }

  /** The updated status says Valid exactly by the verdict, and holds the resolved spec. */
  lemma UpdatedSays(mem: ProfileObj, spec: ProfileSpec, existing: set<string>, answers: Answers, now: nat)
    ensures var u := UpdatedStatus(mem, spec, existing, answers, now);
      && (IsValid(u) <==> Verdict(mem, spec, existing, answers, now))
      && u.status.resolved == Some(spec)
      && u.status.templateGeneration == mem.status.templateGeneration
      && u.status.resolvedGeneration == mem.status.resolvedGeneration
  {
    var ok := Verdict(mem, spec, existing, answers, now);
    FindWith(BeforeVerdict(mem, spec, answers, now), VALID, StatusOf(ok), ReasonOf(ok, "Valid", "Invalid"), now);
  }

  // ---- when a profile whose dependencies exist is Valid ----

  lemma NotRefusedMeans(cs: seq<Condition>)
    ensures NotRefused(cs) <==> forall c :: c in cs ==> !Refuses(c)
  {
    if forall c :: c in cs ==> !Refuses(c) {
      assert forall i :: 0 <= i < |cs| ==> cs[i] in cs;
    }
  }

  /** The update before the verdict touches no refusal, in either direction. */
  lemma BeforeVerdictKeepsRefusals(mem: ProfileObj, spec: ProfileSpec, answers: Answers, now: nat)
    ensures forall c :: Refuses(c) ==>
      (c in BeforeVerdict(mem, spec, answers, now).status.conditions <==> c in mem.status.conditions)
  {
    var start := mem.(status := mem.status.(resolved := Some(spec)));
    var devices := WithDeviceConditions(start, spec.deviceClaims, answers, now);
    var cs := mem.status.conditions;
    if spec.deviceClaims == [] {
      RemoveOthers(cs, DRA_ENABLED);
      RemoveOthers(Remove(cs, DRA_ENABLED), DEVICE_CLASS_AVAILABLE);
    } else {
      SetOthers(cs, DRA_ENABLED, True, "DRAAvailable", now, mem.generation);
      var found := ClassFound(spec.deviceClaims, answers);
      SetOthers(Set(cs, DRA_ENABLED, True, "DRAAvailable", now, mem.generation), DEVICE_CLASS_AVAILABLE,
                StatusOf(found), ReasonOf(found, "Found", "NotFound"), now, mem.generation);
    }
    match answers.targetKind
    case None => RemoveOthers(devices.status.conditions, TARGET_KIND_VALID);
    case Some((status, reason)) => SetOthers(devices.status.conditions, TARGET_KIND_VALID, status, reason, now,
      mem.generation);
  }

  /** For any object the verdict is: queue named, templates present, and no refusal on record. */
  lemma VerdictIff(mem: ProfileObj, spec: ProfileSpec, existing: set<string>, answers: Answers, now: nat)
    ensures Verdict(mem, spec, existing, answers, now)
      <==>
        && QueueNamed(spec.placement) && ClaimsPresent(spec.deviceClaims, existing, answers)
        && NotRefused(mem.status.conditions)
  {
    BeforeVerdictKeepsRefusals(mem, spec, answers, now);
    NotRefusedMeans(mem.status.conditions);
    NotRefusedMeans(BeforeVerdict(mem, spec, answers, now).status.conditions);
  }

  /**
   The verdict over the fields: no queue placement without a queue name, no claim whose template was
   found missing, and no entry anywhere in the list that says the template is missing or the
   namespace not allowed.
   */
  lemma ValidIff(mem: ProfileObj, spec: ProfileSpec, existing: set<string>, answers: Answers, now: nat)
    ensures var cs := mem.status.conditions;
      IsValid(UpdatedStatus(mem, spec, existing, answers, now)) <==>
        && !(spec.placement.Some? && spec.placement.value.kind == QueueType
             && (spec.placement.value.queue.None? || spec.placement.value.queue.value.localQueueName == ""))
        && (forall i :: 0 <= i < |spec.deviceClaims| ==>
              spec.deviceClaims[i].name in answers.getErrors || spec.deviceClaims[i].name in existing)
        && (forall i :: 0 <= i < |cs| && (cs[i].kind == "TemplateFound" || cs[i].kind == "NamespaceAllowed") ==>
              cs[i].status != False)
  {
    UpdatedSays(mem, spec, existing, answers, now);
    VerdictIff(mem, spec, existing, answers, now);
    var cs := mem.status.conditions;
    assert forall c :: Refuses(c) <==> c.status == False && (c.kind == "TemplateFound" || c.kind == "NamespaceAllowed");
  }

  /** Every claim's template is there. */
  predicate AllPresent(claims: seq<DeviceClaim>, existing: set<string>) {
    forall i :: 0 <= i < |claims| ==> claims[i].name in existing
  }

  /** What Valid is documented to mean: the queue is named and every claim's template exists. */
  predicate DependenciesExist(spec: ProfileSpec, existing: set<string>) {
    QueueNamed(spec.placement) && AllPresent(spec.deviceClaims, existing)
  }

  /** The status stored for this resolve says just that. */
  ghost predicate Says(mem: ProfileObj, spec: ProfileSpec, existing: set<string>, answers: Answers, now: nat) {
    IsValid(UpdatedStatus(mem, spec, existing, answers, now)) <==> DependenciesExist(spec, existing)
  }

  /** Whatever the API server answers, once every template was ensured. */
  ghost predicate SaysWhenEnsured(mem: ProfileObj, spec: ProfileSpec) {
    forall existing, answers, now | AllPresent(spec.deviceClaims, existing) :: Says(mem, spec, existing, answers, now)
  }

  /** Whatever the API server answers and whatever templates there are. */
  ghost predicate SaysAlways(mem: ProfileObj, spec: ProfileSpec) {
    forall existing, answers, now :: Says(mem, spec, existing, answers, now)
  }

  /** A resolve that uses a template clears the refusals; an inline one keeps them. */
  lemma ResolvedRefusals(p: ProfileObj, templates: map<string, Template>, labels: Option<StringMap>, now: nat)
    requires Distinct(p.status.conditions) && ResolveSpec(p, templates, labels, now).Resolved?
    ensures NotRefused(ResolveSpec(p, templates, labels, now).mem.status.conditions)
      <==> p.spec.templateRef.Some? || NotRefused(p.status.conditions)
  {
    if p.spec.templateRef.Some? {
      AcceptedNotRefused(p, templates[p.spec.templateRef.value], now);
    }
  }

  lemma SaysIff(mem: ProfileObj, spec: ProfileSpec, existing: set<string>, answers: Answers, now: nat)
    requires AllPresent(spec.deviceClaims, existing)
    ensures Says(mem, spec, existing, answers, now)
      <==> NotRefused(mem.status.conditions) || !QueueNamed(spec.placement)
  {
    UpdatedSays(mem, spec, existing, answers, now);
    VerdictIff(mem, spec, existing, answers, now);
  }

  function ClaimNames(claims: seq<DeviceClaim>): (r: set<string>)
    ensures AllPresent(claims, r)
  {
    set i | 0 <= i < |claims| :: claims[i].name
  }

  /**
   Valid is documented as: all dependencies exist. Once the templates are ensured, that is what is
   stored exactly when the profile uses a template or carries no refusal from an earlier one, or
   its queue is unnamed and it is not Valid either way.
   */
  lemma ValidAsDocumentedIff(p: ProfileObj, templates: map<string, Template>, labels: Option<StringMap>, now: nat)
    requires Distinct(p.status.conditions) && ResolveSpec(p, templates, labels, now).Resolved?
    ensures var r := ResolveSpec(p, templates, labels, now);
      SaysWhenEnsured(r.mem, r.spec) <==>
        p.spec.templateRef.Some? || NotRefused(p.status.conditions) || !QueueNamed(r.spec.placement)
  {
    var r := ResolveSpec(p, templates, labels, now);
    ResolvedRefusals(p, templates, labels, now);
    forall existing, answers, later | AllPresent(r.spec.deviceClaims, existing)
      ensures Says(r.mem, r.spec, existing, answers, later)
        <==> NotRefused(r.mem.status.conditions) || !QueueNamed(r.spec.placement)
    {
      SaysIff(r.mem, r.spec, existing, answers, later);
    }
    SaysIff(r.mem, r.spec, ClaimNames(r.spec.deviceClaims), Answers(None, {}, None), now);
  }

  /**
   A template that cannot be read counts as present. For every answer and every set of templates
   the status says what is documented only where that cannot matter: there is no device claim.
   */
  lemma ReadErrorsIff(p: ProfileObj, templates: map<string, Template>, labels: Option<StringMap>, now: nat)
    requires Distinct(p.status.conditions) && ResolveSpec(p, templates, labels, now).Resolved?
    ensures var r := ResolveSpec(p, templates, labels, now);
      SaysAlways(r.mem, r.spec) <==>
        || !QueueNamed(r.spec.placement)
        || (r.spec.deviceClaims == [] && (p.spec.templateRef.Some? || NotRefused(p.status.conditions)))
  {
    var r := ResolveSpec(p, templates, labels, now);
    var claims := r.spec.deviceClaims;
    ResolvedRefusals(p, templates, labels, now);
    forall existing, answers, later | claims == [] || !QueueNamed(r.spec.placement)
      ensures Says(r.mem, r.spec, existing, answers, later)
        <==> NotRefused(r.mem.status.conditions) || !QueueNamed(r.spec.placement)
    {
      UpdatedSays(r.mem, r.spec, existing, answers, later);
      VerdictIff(r.mem, r.spec, existing, answers, later);
    }
    if QueueNamed(r.spec.placement) {
      var none := Answers(None, {}, None);
      SaysIff(r.mem, r.spec, ClaimNames(claims), none, now);
      if claims != [] {
        var errors := none.(getErrors := ClaimNames(claims));
        var absent: set<string> := {};
        assert claims[0].name !in absent;
        assert !AllPresent(claims, absent);
        UpdatedSays(r.mem, r.spec, {}, errors, now);
        VerdictIff(r.mem, r.spec, {}, errors, now);
        assert !Says(r.mem, r.spec, {}, errors, now) || !Says(r.mem, r.spec, ClaimNames(claims), none, now);
      } else {
        assert Says(r.mem, r.spec, ClaimNames(claims), none, now) <==> NotRefused(r.mem.status.conditions);
      }
    }
  }

  // ---- when the device class condition means what is documented ----

  /** Every claim's device class exists: what DeviceClassAvailable is documented to mean. */
  predicate AllClassesIn(claims: seq<DeviceClaim>, classes: set<string>) {
    forall i :: 0 <= i < |claims| && claims[i].exactly.Some? ==> claims[i].exactly.value.className in classes
  }

  /** There is a class, and all claims name it. */
  predicate OneClass(claims: seq<DeviceClaim>) {
    && (exists i :: 0 <= i < |claims| && claims[i].exactly.Some?)
    && forall i, j :: 0 <= i < j < |claims| && claims[i].exactly.Some? && claims[j].exactly.Some? ==>
         claims[i].exactly.value.className == claims[j].exactly.value.className
  }

  /** What the condition stored by an update says. */
  lemma DeviceClassSaid(mem: ProfileObj, spec: ProfileSpec, existing: set<string>, answers: Answers, now: nat)
    requires spec.deviceClaims != []
    ensures IsTrue(UpdatedStatus(mem, spec, existing, answers, now).status.conditions, DEVICE_CLASS_AVAILABLE)
      <==> ClassFound(spec.deviceClaims, answers)
  {
    var start := mem.(status := mem.status.(resolved := Some(spec)));
    var found := ClassFound(spec.deviceClaims, answers);
    FindWith(WithCondition(start, DRA_ENABLED, True, "DRAAvailable", now), DEVICE_CLASS_AVAILABLE,
             StatusOf(found), ReasonOf(found, "Found", "NotFound"), now);
    var devices := WithDeviceConditions(start, spec.deviceClaims, answers, now);
    match answers.targetKind {
      case None => FindRemove(devices.status.conditions, TARGET_KIND_VALID);
      case Some((status, reason)) => FindWith(devices, TARGET_KIND_VALID, status, reason, now);
    }
    var ok := Verdict(mem, spec, existing, answers, now);
    FindWith(BeforeVerdict(mem, spec, answers, now), VALID, StatusOf(ok), ReasonOf(ok, "Valid", "Invalid"), now);
  }

  /** The answer about device classes is true: the list failed, or shows the classes there are. */
  predicate Honest(answers: Answers, actual: set<string>) {
    answers.deviceClasses.Some? ==> answers.deviceClasses.value == actual
  }

  /** The condition stored tells whether all claimed classes are among those there are. */
  ghost predicate ClassesSaid(mem: ProfileObj, spec: ProfileSpec, actual: set<string>, answers: Answers,
                              existing: set<string>, now: nat)
  {
    IsTrue(UpdatedStatus(mem, spec, existing, answers, now).status.conditions, DEVICE_CLASS_AVAILABLE)
    <==> AllClassesIn(spec.deviceClaims, actual)
  }

  /** For every set of classes and every update whose list of them succeeded. */
  ghost predicate ClassesSaidWhenListed(mem: ProfileObj, spec: ProfileSpec) {
    forall actual: set<string>, answers: Answers, existing, now | answers.deviceClasses == Some(actual) ::
      ClassesSaid(mem, spec, actual, answers, existing, now)
  }

  /** For every set of classes and every honest answer, a failed list included. */
  ghost predicate ClassesSaidAlways(mem: ProfileObj, spec: ProfileSpec) {
    forall actual, answers, existing, now | Honest(answers, actual) ::
      ClassesSaid(mem, spec, actual, answers, existing, now)
  }

  /** The code asks for some class, not for all: with a list, the same exactly when the claims name one class. */
  lemma DeviceClassAsDocumentedIff(mem: ProfileObj, spec: ProfileSpec)
    requires spec.deviceClaims != []
    ensures ClassesSaidWhenListed(mem, spec) <==> OneClass(spec.deviceClaims)
  {
    var claims := spec.deviceClaims;
    forall actual: set<string>, answers: Answers, existing, now | answers.deviceClasses == Some(actual)
      ensures ClassesSaid(mem, spec, actual, answers, existing, now)
        <==> (SomeClassIn(claims, actual) <==> AllClassesIn(claims, actual))
    {
      DeviceClassSaid(mem, spec, existing, answers, now);
    }
    if OneClass(claims) {
      SomeIsAll(claims);
    } else if exists i :: 0 <= i < |claims| && claims[i].exactly.Some? {
      var i, j :| 0 <= i < j < |claims| && claims[i].exactly.Some? && claims[j].exactly.Some?
        && claims[i].exactly.value.className != claims[j].exactly.value.className;
      var actual := {claims[i].exactly.value.className};
      assert SomeClassIn(claims, actual) && !AllClassesIn(claims, actual);
      assert !ClassesSaid(mem, spec, actual, Answers(Some(actual), {}, None), {}, 0);
    } else {
      assert !SomeClassIn(claims, {}) && AllClassesIn(claims, {});
      assert !ClassesSaid(mem, spec, {}, Answers(Some({}), {}, None), {}, 0);
    }
  }

  /**
   When the list fails the condition is stored False. So with one class it tells what is documented,
   for an honest answer, exactly when the list succeeded or the class is indeed not there.
   */
  lemma OneClassSaidIff(mem: ProfileObj, spec: ProfileSpec, actual: set<string>, answers: Answers,
                        existing: set<string>, now: nat)
    requires OneClass(spec.deviceClaims) && Honest(answers, actual)
    ensures ClassesSaid(mem, spec, actual, answers, existing, now)
      <==> answers.deviceClasses.Some? || !AllClassesIn(spec.deviceClaims, actual)
  {
    DeviceClassSaid(mem, spec, existing, answers, now);
    SomeIsAll(spec.deviceClaims);
  }

  /** No profile with device claims is told the truth for every answer: a failed list is enough. */
  lemma FailedListMisleads(mem: ProfileObj, spec: ProfileSpec)
    requires spec.deviceClaims != []
    ensures !ClassesSaidAlways(mem, spec)
  {
    var claims := spec.deviceClaims;
    var actual := set i | 0 <= i < |claims| && claims[i].exactly.Some? :: claims[i].exactly.value.className;
    var failed := Answers(None, {}, None);
    DeviceClassSaid(mem, spec, {}, failed, 0);
    assert AllClassesIn(claims, actual);
    assert !ClassesSaid(mem, spec, actual, failed, {}, 0);
  }

  lemma SomeIsAll(claims: seq<DeviceClaim>)
    requires OneClass(claims)
    ensures forall classes :: SomeClassIn(claims, classes) <==> AllClassesIn(claims, classes)
  {
  }

  /** Valid, against dependencies that count the device classes too. */
  ghost predicate SaysWithClasses(mem: ProfileObj, spec: ProfileSpec) {
    forall actual, answers, existing, now | Honest(answers, actual) && AllPresent(spec.deviceClaims, existing) ::
      SaysClasses(mem, spec, actual, answers, existing, now)
  }

  ghost predicate SaysClasses(mem: ProfileObj, spec: ProfileSpec, actual: set<string>, answers: Answers,
                              existing: set<string>, now: nat)
  {
    IsValid(UpdatedStatus(mem, spec, existing, answers, now))
    <==> DependenciesExist(spec, existing) && AllClassesIn(spec.deviceClaims, actual)
  }

  predicate NamesNoClass(claims: seq<DeviceClaim>) {
    forall i :: 0 <= i < |claims| ==> claims[i].exactly.None?
  }

  /**
   The verdict does not look at device classes. Counting them among the dependencies, it is right for
   every answer exactly when no claim names a class and no refusal is left, or the queue is unnamed.
   */
  lemma ValidWithClassesIff(p: ProfileObj, templates: map<string, Template>, labels: Option<StringMap>, now: nat)
    requires Distinct(p.status.conditions) && ResolveSpec(p, templates, labels, now).Resolved?
    ensures var r := ResolveSpec(p, templates, labels, now);
      SaysWithClasses(r.mem, r.spec) <==>
        || !QueueNamed(r.spec.placement)
        || (NamesNoClass(r.spec.deviceClaims) && (p.spec.templateRef.Some? || NotRefused(p.status.conditions)))
  {
    var r := ResolveSpec(p, templates, labels, now);
    var claims := r.spec.deviceClaims;
    ResolvedRefusals(p, templates, labels, now);
    forall actual, answers, existing, later | Honest(answers, actual) && AllPresent(claims, existing)
      ensures SaysClasses(r.mem, r.spec, actual, answers, existing, later) <==>
        || !QueueNamed(r.spec.placement)
        || (AllClassesIn(claims, actual) <==> NotRefused(r.mem.status.conditions))
    {
      UpdatedSays(r.mem, r.spec, existing, answers, later);
      VerdictIff(r.mem, r.spec, existing, answers, later);
    }
    var failed := Answers(None, {}, None);
    var all := set i | 0 <= i < |claims| && claims[i].exactly.Some? :: claims[i].exactly.value.className;
    assert AllClassesIn(claims, all);
    assert Honest(failed, {}) && Honest(failed, all) && AllPresent(claims, ClaimNames(claims));
    if SaysWithClasses(r.mem, r.spec) && QueueNamed(r.spec.placement) {
      assert SaysClasses(r.mem, r.spec, all, failed, ClaimNames(claims), now);
      assert SaysClasses(r.mem, r.spec, {}, failed, ClaimNames(claims), now);
    }
  }

  /** Two claims, one class missing: the condition is stored True. */
  lemma HalfTheClasses(p: ProfileObj, existing: set<string>, now: nat)
    ensures var claims := [DeviceClaim("gpu", Some(DeviceRequest("gpu.example.com", 1))),
                           DeviceClaim("nic", Some(DeviceRequest("nic.example.com", 1)))];
      var spec := ProfileSpec(None, None, [], claims, None);
      var answers := Answers(Some({"gpu.example.com"}), {}, None);
      && IsTrue(UpdatedStatus(p, spec, existing, answers, now).status.conditions, DEVICE_CLASS_AVAILABLE)
      && !AllClassesIn(claims, answers.deviceClasses.value)
  {
    var claims := [DeviceClaim("gpu", Some(DeviceRequest("gpu.example.com", 1))),
                   DeviceClaim("nic", Some(DeviceRequest("nic.example.com", 1)))];
    var spec := ProfileSpec(None, None, [], claims, None);
    DeviceClassSaid(p, spec, existing, Answers(Some({"gpu.example.com"}), {}, None), now);
    assert claims[0].exactly.value.className in {"gpu.example.com"};
    assert |claims[1].exactly.value.className| == 15 && claims[1].exactly.value.className[0] == 'n';
    assert claims[1].exactly.value.className !in {"gpu.example.com"};
  }

  lemma TrueNotRefused(cs: seq<Condition>)
    requires Distinct(cs) && IsTrue(cs, TEMPLATE_FOUND) && IsTrue(cs, NAMESPACE_ALLOWED)
    ensures NotRefused(cs)
  {
    FindMember(cs, TEMPLATE_FOUND);
    FindMember(cs, NAMESPACE_ALLOWED);
    NotRefusedMeans(cs);
  }

  /** Setting one condition keeps the list a map and leaves the other kinds' verdicts. */
  lemma WithKeeps(p: ProfileObj, kind: string, status: Status, reason: string, now: nat)
    requires Distinct(p.status.conditions)
    ensures var cs := WithCondition(p, kind, status, reason, now).status.conditions;
      && Distinct(cs)
      && (forall k :: k != kind && IsTrue(p.status.conditions, k) ==> IsTrue(cs, k))
      && (status == True ==> IsTrue(cs, kind))
  {
    SetKeepsDistinct(p.status.conditions, kind, status, reason, now, p.generation);
    FindWith(p, kind, status, reason, now);
  }

  lemma AcceptedNotRefused(p: ProfileObj, t: Template, now: nat)
    requires Distinct(p.status.conditions)
    ensures var mem := Accepted(WithCondition(p, TEMPLATE_FOUND, True, "Found", now), t, now);
      Distinct(mem.status.conditions) && NotRefused(mem.status.conditions)
  {
    var found := WithCondition(p, TEMPLATE_FOUND, True, "Found", now);
    WithKeeps(p, TEMPLATE_FOUND, True, "Found", now);
    var reason := ReasonOf(t.namespaceSelector.Some?, "Allowed", "AllNamespaces");
    var allowed := WithCondition(found, NAMESPACE_ALLOWED, True, reason, now);
    WithKeeps(found, NAMESPACE_ALLOWED, True, reason, now);
    var stamped := allowed.(status := allowed.status.(templateGeneration := Some(t.generation),
      resolvedGeneration := Some(p.generation)));
    WithKeeps(stamped, DRIFTED, False, "InSync", now);
    TrueNotRefused(stamped.status.conditions);
    TrueNotRefused(WithCondition(stamped, DRIFTED, False, "InSync", now).status.conditions);
  }

  /** Reconciling an inline profile never clears a refusal: it is Not Valid until a template is used again. */
  lemma InlineKeepsRefusal(p: ProfileObj, existing: set<string>, answers: Answers, now: nat)
    requires p.spec.templateRef.None? && !NotRefused(p.status.conditions)
    ensures var u := UpdatedStatus(p, p.spec, existing, answers, now); !IsValid(u) && !NotRefused(u.status.conditions)
  {
    UpdatedSays(p, p.spec, existing, answers, now);
    VerdictIff(p, p.spec, existing, answers, now);
    BeforeVerdictKeepsRefusals(p, p.spec, answers, now);
    NotRefusedMeans(p.status.conditions);
    SetOthers(BeforeVerdict(p, p.spec, answers, now).status.conditions, VALID, False, "Invalid", now, p.generation);
    NotRefusedMeans(UpdatedStatus(p, p.spec, existing, answers, now).status.conditions);
  }

  // ---- the condition lists stay maps ----

  lemma ResolveKeepsDistinct(p: ProfileObj, templates: map<string, Template>, labels: Option<StringMap>, now: nat)
    requires Distinct(p.status.conditions)
    ensures var r := ResolveSpec(p, templates, labels, now);
      && (r.Refused? ==> Distinct(r.stored.status.conditions))
      && (r.Resolved? ==> Distinct(r.mem.status.conditions))
  {
    if p.spec.templateRef.Some? {
      if p.spec.templateRef.value !in templates {
        WithKeeps(p, TEMPLATE_FOUND, False, "NotFound", now);
        WithKeeps(WithCondition(p, TEMPLATE_FOUND, False, "NotFound", now), VALID, False, "TemplateNotFound", now);
      } else {
        AcceptedNotRefused(p, templates[p.spec.templateRef.value], now);
        var found := WithCondition(p, TEMPLATE_FOUND, True, "Found", now);
        WithKeeps(p, TEMPLATE_FOUND, True, "Found", now);
        WithKeeps(found, NAMESPACE_ALLOWED, False, "NotAllowed", now);
        WithKeeps(WithCondition(found, NAMESPACE_ALLOWED, False, "NotAllowed", now), VALID, False,
          "NamespaceNotAllowed", now);
      }
    }
  }

  lemma UpdateKeepsDistinct(mem: ProfileObj, spec: ProfileSpec, existing: set<string>, answers: Answers, now: nat)
    requires Distinct(mem.status.conditions)
    ensures Distinct(UpdatedStatus(mem, spec, existing, answers, now).status.conditions)
  {
    var start := mem.(status := mem.status.(resolved := Some(spec)));
    var cs := mem.status.conditions;
    var devices := WithDeviceConditions(start, spec.deviceClaims, answers, now);
    if spec.deviceClaims == [] {
      RemoveKeepsDistinct(cs, DRA_ENABLED);
      RemoveKeepsDistinct(Remove(cs, DRA_ENABLED), DEVICE_CLASS_AVAILABLE);
    } else {
      var found := ClassFound(spec.deviceClaims, answers);
      WithKeeps(start, DRA_ENABLED, True, "DRAAvailable", now);
      WithKeeps(WithCondition(start, DRA_ENABLED, True, "DRAAvailable", now), DEVICE_CLASS_AVAILABLE,
                StatusOf(found), ReasonOf(found, "Found", "NotFound"), now);
    }
    match answers.targetKind {
      case None => RemoveKeepsDistinct(devices.status.conditions, TARGET_KIND_VALID);
      case Some((status, reason)) => WithKeeps(devices, TARGET_KIND_VALID, status, reason, now);
    }
    var ok := Verdict(mem, spec, existing, answers, now);
    WithKeeps(BeforeVerdict(mem, spec, answers, now), VALID, StatusOf(ok), ReasonOf(ok, "Valid", "Invalid"), now);
  }
}
