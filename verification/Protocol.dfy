/**
 The scheduling-gate protocol as a transition system over one object store: the webhook, the
 profile controller's single worker, the placement controller, the users and the API server.

 A step is a read of a component, or one write of it with the reads it rests on; Handle is split
 into its read and the create of the pod, handleDeletion into its list and its update, and Reconcile
 of a profile into the finalizer write, the resolve, one ensured ResourceClaimTemplate at a time, and
 the status patch, so any other step may come in between. A step that is not enabled only lets time
 pass.
 */
module Protocol {
  import opened Kube
  import opened Profiles
  import opened Injection
  import opened Admission
  import opened Placement
  import QuotaCheck
  import Gates

  /** `owner`: the uid of the controlling profile. */
  datatype Rct = Rct(owner: Option<nat>, request: Option<DeviceRequest>)

  /** What WTO admitted: under which profile, with which claims, on a read at which time. */
  datatype Ticket = Ticket(uid: nat, name: string, injected: seq<PodClaim>, readAt: nat)

  /** Why WTO's gate is gone. `node`: the placement written in the same patch. */
  datatype Removal = Kept | QuotaPassed(node: Option<NodePlacement>) | ProfileMissing

  /**
   A stored pod and what happened to it so far. No controller reads the history; it is what the
   properties speak about.
   */
  datatype PodRec = PodRec(
    pod: PodObj,
    submitted: PodObj,
    ticket: Option<Ticket>,
    createdAt: nat,
    removal: Removal,
    othersRemoved: set<string>)

  /** A Handle call that answered; its pod is not stored yet. */
  datatype Pending = Pending(namespace: string, pod: PodObj, submitted: PodObj, ticket: Option<Ticket>)

  datatype Worker =
    | Idle
    | Resolving(key: Key, read: ProfileObj)
    | Ensuring(key: Key, read: ProfileObj, mem: ProfileObj, spec: ProfileSpec, done: nat)
    | Removing(key: Key, read: ProfileObj, listedAt: nat)

  /** When the list that found no gated pod was made, and when the finalizer went. */
  datatype Departure = Departure(listedAt: nat, removedAt: nat)

  /** Who was given which uid, and who left. Uids are never reused. */
  datatype Ids = Ids(nextUid: nat, keyOf: map<nat, Key>, departed: map<nat, Departure>)

  /** What users and administrators own. */
  datatype Env = Env(
    templates: map<string, Template>,
    namespaces: map<string, StringMap>,
    quotas: map<string, seq<Quota>>)

  datatype State = State(
    clock: nat,
    ids: Ids,
    env: Env,
    profiles: map<Key, ProfileObj>,
    rcts: map<Key, Rct>,
    pods: map<Key, PodRec>,
    pending: map<nat, Pending>,
    worker: Worker)

  const INITIAL := State(0, Ids(0, map[], map[]), Env(map[], map[], map[]), map[], map[], map[], map[], Idle)

  datatype Step =
    // users and other components
    | CreateProfile(key: Key, newSpec: ProfileSpec)
    | EditProfile(key: Key, newSpec: ProfileSpec)
    | DeleteProfile(key: Key)
    | PutTemplate(templateName: string, template: Template)
    | DropTemplate(templateName: string)
    | PutNamespace(ns: string, labels: StringMap)
    | PutQuotas(ns: string, list: seq<Quota>)
    | CreateForeignRct(key: Key, request: Option<DeviceRequest>)
    | DropForeignRct(key: Key)
    | DeletePod(key: Key)
    | EditPodLabels(key: Key, labels: StringMap)
    | DropForeignGate(key: Key, gate: string)
    // the webhook
    | AdmitRead(id: nat, ns: string, submitted: PodObj, overrides: seq<Override>)
    | AdmitCreate(id: nat, name: string)
    | AdmitLost(id: nat)
    // the profile controller
    | Begin(key: Key)
    | Resolve
    | Ensure
    | Finish(answers: Answers)
    | Abort
    | ListGated(key: Key)
    | RemoveFinalizer
    // the placement controller
    | Place(key: Key, quotaListFails: bool, patchFails: bool)

  // ---- users and other components ----

  function Tick(s: State): State {
    s.(clock := s.clock + 1)
  }

  function WithProfile(s: State, key: Key, p: ProfileObj): State {
    s.(profiles := s.profiles[key := p])
  }

  function Created(s: State, key: Key, spec: ProfileSpec): State {
    s.(ids := s.ids.(nextUid := s.ids.nextUid + 1, keyOf := s.ids.keyOf[s.ids.nextUid := key]),
       profiles := s.profiles[key := ProfileObj(s.ids.nextUid, 1, spec, false, false, NO_STATUS)])
  }

  function Edited(p: ProfileObj, spec: ProfileSpec): ProfileObj {
    p.(spec := spec, generation := p.generation + 1)
  }

  function Terminating(p: ProfileObj): ProfileObj {
    p.(deleting := true, generation := p.generation + 1)
  }

  /** Garbage collection of what a profile controlled. */
  function Collected(rcts: map<Key, Rct>, uid: nat): map<Key, Rct> {
    map k | k in rcts && rcts[k].owner != Some(uid) :: rcts[k]
  }

  /** The object goes, and what it owned with it. */
  function Dropped(s: State, key: Key): State
    requires key in s.profiles
  {
    s.(profiles := s.profiles - {key}, rcts := Collected(s.rcts, s.profiles[key].uid))
  }

  function WithPod(s: State, key: Key, rec: PodRec): State {
    s.(pods := s.pods[key := rec])
  }

  function Relabelled(rec: PodRec, labels: StringMap): PodRec {
    rec.(pod := rec.pod.(labels := labels))
  }

  /** Another controller takes its own gate away. */
  function WithoutGate(rec: PodRec, gate: string): PodRec {
    rec.(pod := rec.pod.(gates := Gates.Without(rec.pod.gates, {gate})), othersRemoved := rec.othersRemoved + {gate})
  }

  // ---- the webhook ----

  function TicketOf(s: State, submitted: PodObj, p: ProfileObj): Ticket {
    var name := ValueAt(submitted.annotations, PROFILE_ANNOTATION);
    var claims := if p.status.resolved.Some? then p.status.resolved.value.deviceClaims else [];
    Ticket(p.uid, name, PodClaims(name, claims), s.clock)
  }

  /** What a Handle call lets into the store, if anything. */
  function Answer(s: State, ns: string, submitted: PodObj, overrides: seq<Override>): Option<Pending> {
    var profile := Read(submitted, ns, s.profiles);
    match Respond(submitted, profile, overrides)
    case Unmanaged => Some(Pending(ns, submitted, submitted, None))
    case Admitted(pod) => Some(Pending(ns, pod, submitted, Some(TicketOf(s, submitted, profile.value))))
    case _ => None
  }

  function WithPending(s: State, id: nat, q: Pending): State {
    s.(pending := s.pending[id := q])
  }

  function WithoutPending(s: State, id: nat): State {
    s.(pending := s.pending - {id})
  }

  function NewRec(s: State, q: Pending): PodRec {
    PodRec(q.pod, q.submitted, q.ticket, s.clock, Kept, {})
  }

  // ---- the profile controller ----

  function WithWorker(s: State, w: Worker): State {
    s.(worker := w)
  }

  /** The finalizer is written before anything else is done; the write is guarded by what was read. */
  function Begun(s: State, key: Key): State
    requires key in s.profiles
  {
    var p := s.profiles[key].(finalizer := true);
    WithWorker(WithProfile(s, key, p), Resolving(key, p))
  }

  /** The status patch, which ends the reconcile. */
  function Patched(s: State, key: Key, base: ProfileStatus, modified: ProfileStatus): State {
    if key !in s.profiles then WithWorker(s, Idle)
    else
      var p := s.profiles[key];
      WithWorker(WithProfile(s, key, p.(status := PatchStatus(p.status, base, modified))), Idle)
  }

  function LabelsOf(s: State, ns: string): Option<StringMap> {
    if ns in s.env.namespaces then Some(s.env.namespaces[ns]) else None
  }

  function ResolveStep(s: State): State
    requires s.worker.Resolving?
  {
    var w := s.worker;
    match ResolveSpec(w.read, s.env.templates, LabelsOf(s, w.key.namespace), s.clock)
    case Aborted => WithWorker(s, Idle)
    case Refused(stored) => Patched(s, w.key, w.read.status, stored.status)
    case Resolved(mem, spec) => WithWorker(s, Ensuring(w.key, w.read, mem, spec, 0))
  }

  /** CreateOrUpdate of one ResourceClaimTemplate; it fails when another profile controls it. */
  function EnsureStep(s: State): State
    requires s.worker.Ensuring? && s.worker.done < |s.worker.spec.deviceClaims|
  {
    var w := s.worker;
    var claim := w.spec.deviceClaims[w.done];
    var key := Key(w.key.namespace, RctName(w.key.name, claim.name));
    if key in s.rcts && s.rcts[key].owner.Some? && s.rcts[key].owner != Some(w.read.uid) then WithWorker(s, Idle)
    else WithWorker(WithRct(s, key, Rct(Some(w.read.uid), claim.exactly)), w.(done := w.done + 1))
  }

  function WithRct(s: State, key: Key, rct: Rct): State {
    s.(rcts := s.rcts[key := rct])
  }

  /** The claims of a profile whose template is in the store. */
  function Existing(s: State, key: Key, claims: seq<DeviceClaim>): set<string> {
    set i | 0 <= i < |claims| && Key(key.namespace, RctName(key.name, claims[i].name)) in s.rcts :: claims[i].name
  }

  /** The object updateStatus patches towards. */
  function Final(s: State, answers: Answers): ProfileObj
    requires s.worker.Ensuring?
  {
    var w := s.worker;
    UpdatedStatus(w.mem, w.spec, Existing(s, w.key, w.spec.deviceClaims), answers, s.clock)
  }

  function FinishStep(s: State, answers: Answers): State
    requires s.worker.Ensuring?
  {
    Patched(s, s.worker.key, s.worker.mem.status, Final(s, answers).status)
  }

  /** findGatedPodsForProfile. */
  predicate GatedFor(rec: PodRec, name: string) {
    ValueAt(rec.pod.annotations, PROFILE_ANNOTATION) == name && SCHEDULING_GATE in rec.pod.gates
  }

  function GatedPods(s: State, key: Key): set<Key> {
    set k | k in s.pods && k.namespace == key.namespace && GatedFor(s.pods[k], key.name)
  }

  /** handleDeletion finds the profile terminating, still protected, and without gated pods. */
  predicate Clear(s: State, key: Key) {
    && s.worker.Idle? && key in s.profiles && s.profiles[key].deleting && s.profiles[key].finalizer
    && GatedPods(s, key) == {}
  }

  /** The update that drops the finalizer is refused if the object changed since it was read. */
  function RemoveFinalizerStep(s: State): State
    requires s.worker.Removing?
  {
    var w := s.worker;
    if w.key in s.profiles && s.profiles[w.key] == w.read then Departed(s, w.key, w.listedAt)
    else WithWorker(s, Idle)
  }

  function Departed(s: State, key: Key, listedAt: nat): State
    requires key in s.profiles
  {
    var departed := s.ids.departed[s.profiles[key].uid := Departure(listedAt, s.clock)];
    WithWorker(Dropped(s, key), Idle).(ids := s.ids.(departed := departed))
  }

  // ---- the placement controller ----

  function QuotasOf(s: State, ns: string): seq<Quota> {
    if ns in s.env.quotas then s.env.quotas[ns] else []
  }

  /** What one placement reconcile of a pod does, before its patch is sent. */
  datatype Decision = Nothing | Held | UngateMissing | UngatePlaced(node: Option<NodePlacement>)

  function Decide(s: State, key: Key, quotaListFails: bool): Decision {
    if key !in s.pods || SCHEDULING_GATE !in s.pods[key].pod.gates
      || PROFILE_ANNOTATION !in s.pods[key].pod.annotations then Nothing
    else
      var profile := Key(key.namespace, s.pods[key].pod.annotations[PROFILE_ANNOTATION]);
      if profile !in s.profiles then UngateMissing
      else
        var view := ViewOf(s.profiles[profile]);
        if !quotaListFails && !QuotaCheck.AllAdmit(QuotasOf(s, key.namespace), view) then Held
        else UngatePlaced(NodeOf(Effective(view)))
  }

  /** The pod after the patch of an ungating decision. */
  function AfterPatch(rec: PodRec, d: Decision): PodRec {
    match d
    case UngateMissing => rec.(pod := Ungated(rec.pod), removal := ProfileMissing)
    case UngatePlaced(node) => rec.(pod := Placed(rec.pod, node), removal := QuotaPassed(node))
    case _ => rec
  }

  function PlaceStep(s: State, key: Key, quotaListFails: bool, patchFails: bool): State {
    if patchFails || key !in s.pods then s else WithPod(s, key, AfterPatch(s.pods[key], Decide(s, key, quotaListFails)))
  }

  // ---- runs ----

  function Act(s: State, a: Step): State {
    match a
    case CreateProfile(key, spec) => if key in s.profiles then s else Created(s, key, spec)
    case EditProfile(key, spec) => if key !in s.profiles then s else WithProfile(s, key, Edited(s.profiles[key], spec))
    case DeleteProfile(key) =>
      if key !in s.profiles then s
      else if s.profiles[key].finalizer then WithProfile(s, key, Terminating(s.profiles[key]))
      else Dropped(s, key)
    case PutTemplate(name, template) => s.(env := s.env.(templates := s.env.templates[name := template]))
    case DropTemplate(name) => s.(env := s.env.(templates := s.env.templates - {name}))
    case PutNamespace(ns, labels) => s.(env := s.env.(namespaces := s.env.namespaces[ns := labels]))
    case PutQuotas(ns, list) => s.(env := s.env.(quotas := s.env.quotas[ns := list]))
    case CreateForeignRct(key, request) => if key in s.rcts then s else WithRct(s, key, Rct(None, request))
    case DropForeignRct(key) => if key in s.rcts && s.rcts[key].owner.None? then s.(rcts := s.rcts - {key}) else s
    case DeletePod(key) => s.(pods := s.pods - {key})
    case EditPodLabels(key, labels) => if key !in s.pods then s else WithPod(s, key, Relabelled(s.pods[key], labels))
    case DropForeignGate(key, gate) =>
      if key !in s.pods || gate == SCHEDULING_GATE then s else WithPod(s, key, WithoutGate(s.pods[key], gate))
    case AdmitRead(id, ns, submitted, overrides) =>
      if id in s.pending || Answer(s, ns, submitted, overrides).None? then s
      else WithPending(s, id, Answer(s, ns, submitted, overrides).value)
    case AdmitCreate(id, name) =>
      if id !in s.pending || Key(s.pending[id].namespace, name) in s.pods then s
      else WithoutPending(WithPod(s, Key(s.pending[id].namespace, name), NewRec(s, s.pending[id])), id)
    case AdmitLost(id) => WithoutPending(s, id)
    case Begin(key) => if !s.worker.Idle? || key !in s.profiles || s.profiles[key].deleting then s else Begun(s, key)
    case Resolve => if !s.worker.Resolving? then s else ResolveStep(s)
    case Ensure => if !s.worker.Ensuring? || s.worker.done >= |s.worker.spec.deviceClaims| then s else EnsureStep(s)
    case Finish(answers) =>
      if !s.worker.Ensuring? || s.worker.done < |s.worker.spec.deviceClaims| then s else FinishStep(s, answers)
    case Abort => WithWorker(s, Idle)
    case ListGated(key) => if !Clear(s, key) then s else WithWorker(s, Removing(key, s.profiles[key], s.clock))
    case RemoveFinalizer => if !s.worker.Removing? then s else RemoveFinalizerStep(s)
    case Place(key, quotaListFails, patchFails) => PlaceStep(s, key, quotaListFails, patchFails)
  }

  function Next(s: State, a: Step): State {
    Tick(Act(s, a))
  }

  function Run(s: State, steps: seq<Step>): State
    decreases |steps|
  {
    if steps == [] then s else Next(Run(s, steps[..|steps| - 1]), steps[|steps| - 1])
  }

  lemma RunSnoc(s: State, steps: seq<Step>, a: Step)
    ensures Run(s, steps + [a]) == Next(Run(s, steps), a)
  {
    assert (steps + [a])[..|steps|] == steps;
  }

  lemma {:induction false} RunConcat(s: State, first: seq<Step>, more: seq<Step>)
    ensures Run(s, first + more) == Run(Run(s, first), more)
    decreases |more|
  {
    if more == [] {
      assert first + more == first;
    } else {
      var n := |more| - 1;
      RunConcat(s, first, more[..n]);
      assert first + more == (first + more[..n]) + [more[n]];
      RunSnoc(s, first + more[..n], more[n]);
    }
  }

  lemma RunCons(s: State, a: Step, more: seq<Step>)
    ensures Run(s, [a] + more) == Run(Next(s, a), more)
  {
    RunConcat(s, [a], more);
    RunSnoc(s, [], a);
    assert [] + [a] == [a];
  }

  lemma RunSplit(s: State, steps: seq<Step>, i: nat)
    requires i < |steps|
    ensures Run(s, steps) == Run(Next(Run(s, steps[..i]), steps[i]), steps[i + 1..])
  {
    var first := steps[..i] + [steps[i]];
    assert steps == first + steps[i + 1..];
    RunSnoc(s, steps[..i], steps[i]);
    RunConcat(s, first, steps[i + 1..]);
  }
}
