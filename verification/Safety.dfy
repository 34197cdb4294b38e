/**
 The invariant of the protocol, kept by every step, and its meaning for runs in which the
 webhook's read and create, and the deletion's list and update, may be any steps apart.
 */
module Safety {
  import opened Kube
  import opened Profiles
  import opened Conditions
  import opened Injection
  import opened Admission
  import opened Protocol

  /** The profile with this uid is in the store. */
  ghost predicate Live(s: State, uid: nat) {
    uid in s.ids.keyOf && s.ids.keyOf[uid] in s.profiles && s.profiles[s.ids.keyOf[uid]].uid == uid
  }

  ghost predicate Protected(s: State, uid: nat) {
    Live(s, uid) && s.profiles[s.ids.keyOf[uid]].finalizer
  }

  ghost predicate Owned(s: State, ns: string, template: string, uid: nat) {
    Key(ns, template) in s.rcts && s.rcts[Key(ns, template)].owner == Some(uid)
  }

  /** Every claim names a template that exists in the namespace and is controlled by the profile. */
  ghost predicate ClaimsOwned(s: State, ns: string, claims: seq<PodClaim>, uid: nat) {
    forall c :: c in claims ==> c.template.Some? && Owned(s, ns, c.template.value, uid)
  }

  ghost predicate SpecOwned(s: State, key: Key, claims: seq<DeviceClaim>, uid: nat) {
    forall c :: c in claims ==> Owned(s, key.namespace, RctName(key.name, c.name), uid)
  }

  // ---- the invariant, part by part ----

  ghost predicate Uids(s: State) {
    && (forall u :: u in s.ids.keyOf ==> u < s.ids.nextUid)
    && (forall k :: k in s.profiles ==> s.profiles[k].uid in s.ids.keyOf && s.ids.keyOf[s.profiles[k].uid] == k)
    && (forall u :: u in s.ids.departed ==> u in s.ids.keyOf && !Live(s, u))
    && (forall u :: u in s.ids.departed ==> s.ids.departed[u].listedAt < s.ids.departed[u].removedAt < s.clock)
  }

  /** A resolved or terminating profile has its finalizer; the two generations are never stored. */
  ghost predicate Finalized(s: State) {
    forall k :: k in s.profiles ==>
      && (s.profiles[k].status.resolved.Some? || s.profiles[k].deleting ==> s.profiles[k].finalizer)
      && s.profiles[k].status.templateGeneration.None?
      && s.profiles[k].status.resolvedGeneration.None?
  }

  ghost predicate OwnersLive(s: State) {
    forall k :: k in s.rcts && s.rcts[k].owner.Some? ==> Live(s, s.rcts[k].owner.value)
  }

  /** The templates come before Valid. */
  ghost predicate ValidOwned(s: State) {
    forall k :: k in s.profiles && IsValid(s.profiles[k]) ==>
      && s.profiles[k].status.resolved.Some?
      && SpecOwned(s, k, s.profiles[k].status.resolved.value.deviceClaims, s.profiles[k].uid)
  }

  ghost predicate Current(s: State, key: Key, read: ProfileObj) {
    && key in s.profiles && s.profiles[key].uid == read.uid && s.profiles[key].finalizer
    && s.profiles[key].status == read.status
  }

  ghost predicate WorkerOk(s: State) {
    match s.worker
    case Idle => true
    case Resolving(key, read) => Current(s, key, read)
    case Ensuring(key, read, mem, spec, done) =>
      && Current(s, key, read)
      && Find(mem.status.conditions, VALID) == Find(read.status.conditions, VALID)
      && mem.uid == read.uid && mem.status.resolved == read.status.resolved
      && done <= |spec.deviceClaims|
      && SpecOwned(s, key, spec.deviceClaims[..done], read.uid)
    case Removing(key, read, listedAt) =>
      && listedAt < s.clock && read.finalizer
      && read.uid in s.ids.keyOf && s.ids.keyOf[read.uid] == key
  }

  /** The profile is there, finalizer and templates included; or it left after the pod was read. */
  ghost predicate TicketOk(s: State, ns: string, t: Ticket) {
    && t.uid in s.ids.keyOf && s.ids.keyOf[t.uid] == Key(ns, t.name)
    && t.readAt < s.clock
    && ((Protected(s, t.uid) && ClaimsOwned(s, ns, t.injected, t.uid))
        || (t.uid in s.ids.departed && t.readAt < s.ids.departed[t.uid].removedAt))
  }

  predicate NamesProfile(pod: PodObj, name: string) {
    PROFILE_ANNOTATION in pod.annotations && pod.annotations[PROFILE_ANNOTATION] == name
  }

  ghost predicate PendingOk(s: State) {
    forall id :: id in s.pending && s.pending[id].ticket.Some? ==>
      && TicketOk(s, s.pending[id].namespace, s.pending[id].ticket.value)
      && NamesProfile(s.pending[id].pod, s.pending[id].ticket.value.name)
  }

  ghost predicate Gated(rec: PodRec) {
    SCHEDULING_GATE in rec.pod.gates
  }

  /** A gated pod that outlived its profile: read before the finalizer went, created after the list. */
  ghost predicate Stranded(s: State, rec: PodRec) {
    && rec.ticket.Some? && rec.ticket.value.uid in s.ids.departed
    && rec.ticket.value.readAt < s.ids.departed[rec.ticket.value.uid].removedAt
    && rec.createdAt > s.ids.departed[rec.ticket.value.uid].listedAt
  }

  ghost predicate Served(s: State, ns: string, rec: PodRec) {
    && rec.ticket.Some? && Protected(s, rec.ticket.value.uid)
    && ClaimsOwned(s, ns, rec.ticket.value.injected, rec.ticket.value.uid)
  }

  ghost predicate PodOk(s: State, ns: string, rec: PodRec) {
    && rec.createdAt < s.clock
    && (rec.ticket.Some? ==>
          && rec.ticket.value.uid in s.ids.keyOf && s.ids.keyOf[rec.ticket.value.uid] == Key(ns, rec.ticket.value.name)
          && rec.ticket.value.readAt < rec.createdAt
          && NamesProfile(rec.pod, rec.ticket.value.name)
          && (Gated(rec) ==> Served(s, ns, rec) || Stranded(s, rec)))
  }

  ghost predicate PodsOk(s: State) {
    forall k :: k in s.pods ==> PodOk(s, k.namespace, s.pods[k])
  }

  ghost predicate NotListed(rec: PodRec, uid: nat, listedAt: nat) {
    rec.ticket.Some? && rec.ticket.value.uid == uid && Gated(rec) ==> rec.createdAt > listedAt
  }

  /** While the finalizer's removal is under way, the profile's gated pods are newer than the list. */
  ghost predicate RemovingOk(s: State) {
    s.worker.Removing? ==> forall k :: k in s.pods ==> NotListed(s.pods[k], s.worker.read.uid, s.worker.listedAt)
  }

  ghost predicate Inv(s: State) {
    StoreOk(s) && AgentsOk(s)
  }

  // ---- what a step must keep for the pods' sake ----

  /** Time passes, and no protected profile loses its protection or a template it controls. */
  ghost predicate Keeps(s: State, t: State) {
    && s.clock < t.clock
    && (forall u :: u in s.ids.keyOf ==> u in t.ids.keyOf && t.ids.keyOf[u] == s.ids.keyOf[u])
    && t.ids.departed == s.ids.departed
    && (forall u :: Protected(s, u) ==> Protected(t, u))
    && (forall ns, template, u :: Protected(s, u) && Owned(s, ns, template, u) ==> Owned(t, ns, template, u))
  }

  lemma KeepsTicket(s: State, t: State, ns: string, ticket: Ticket)
    requires Keeps(s, t) && TicketOk(s, ns, ticket)
    ensures TicketOk(t, ns, ticket)
  {
  }

  lemma KeepsPod(s: State, t: State, ns: string, rec: PodRec)
    requires Keeps(s, t) && PodOk(s, ns, rec)
    ensures PodOk(t, ns, rec)
  {
  }

  lemma KeepsPending(s: State, t: State)
    requires Keeps(s, t) && PendingOk(s)
    requires forall id :: id in t.pending ==> id in s.pending && t.pending[id] == s.pending[id]
    ensures PendingOk(t)
  {
    forall id | id in t.pending && t.pending[id].ticket.Some?
      ensures TicketOk(t, t.pending[id].namespace, t.pending[id].ticket.value)
    {
      KeepsTicket(s, t, t.pending[id].namespace, t.pending[id].ticket.value);
    }
  }

  lemma KeepsPods(s: State, t: State)
    requires Keeps(s, t) && PodsOk(s) && forall k :: k in t.pods ==> k in s.pods && t.pods[k] == s.pods[k]
    ensures PodsOk(t)
  {
    forall k | k in t.pods ensures PodOk(t, k.namespace, t.pods[k]) {
      KeepsPod(s, t, k.namespace, t.pods[k]);
    }
  }

  /** The store part of the invariant: everything but the pods. */
  ghost predicate StoreOk(s: State) {
    Uids(s) && Finalized(s) && OwnersLive(s) && ValidOwned(s)
  }

  // ---- the store part, change by change ----

  /** Only profiles and templates may differ. */
  ghost predicate SameIds(s: State, t: State) {
    && t.ids.keyOf == s.ids.keyOf && t.ids.nextUid == s.ids.nextUid && t.ids.departed == s.ids.departed
    && s.clock < t.clock
  }

  lemma SameStore(s: State, t: State)
    requires StoreOk(s) && SameIds(s, t) && t.profiles == s.profiles && t.rcts == s.rcts
    ensures StoreOk(t) && Keeps(s, t)
  {
  }

  lemma CreateKeeps(s: State, key: Key, spec: ProfileSpec)
    requires Uids(s) && key !in s.profiles
    ensures Keeps(s, Tick(Created(s, key, spec)))
  {
  }

  lemma CreateUids(s: State, key: Key, spec: ProfileSpec)
    requires Uids(s) && key !in s.profiles
    ensures Uids(Tick(Created(s, key, spec)))
  {
  }

  lemma CreateStore(s: State, key: Key, spec: ProfileSpec)
    requires StoreOk(s) && key !in s.profiles
    ensures StoreOk(Tick(Created(s, key, spec)))
  {
    CreateUids(s, key, spec);
    var t := Tick(Created(s, key, spec));
    assert Finalized(t) && ValidOwned(t);
    forall k | k in t.rcts && t.rcts[k].owner.Some? ensures Live(t, t.rcts[k].owner.value) {
      assert Live(s, s.rcts[k].owner.value);
    }
  }

  /** One profile replaced: same uid, the finalizer not taken. */
  lemma ReplaceKeeps(s: State, t: State, key: Key, p: ProfileObj)
    requires SameIds(s, t) && t.rcts == s.rcts && t.profiles == s.profiles[key := p]
    requires key in s.profiles && p.uid == s.profiles[key].uid && (s.profiles[key].finalizer ==> p.finalizer)
    ensures Keeps(s, t)
  {
  }

  lemma ReplaceStore(s: State, t: State, key: Key, p: ProfileObj)
    requires SameIds(s, t) && t.rcts == s.rcts && t.profiles == s.profiles[key := p]
    requires StoreOk(s) && key in s.profiles && p.uid == s.profiles[key].uid
    requires p.status.resolved.Some? || p.deleting ==> p.finalizer
    requires p.status.templateGeneration.None? && p.status.resolvedGeneration.None?
    requires IsValid(p) ==> p.status.resolved.Some? && SpecOwned(s, key, p.status.resolved.value.deviceClaims, p.uid)
    ensures StoreOk(t)
  {
    assert Uids(t);
    forall k | k in t.rcts && t.rcts[k].owner.Some? ensures Live(t, t.rcts[k].owner.value) {
      assert Live(s, s.rcts[k].owner.value);
    }
  }

  /** A profile gone with what it controlled. */
  lemma DropStore(s: State, t: State, key: Key)
    requires StoreOk(s) && key in s.profiles && t.ids.keyOf == s.ids.keyOf && t.ids.nextUid == s.ids.nextUid
    requires s.clock < t.clock
    requires t.profiles == s.profiles - {key} && t.rcts == Collected(s.rcts, s.profiles[key].uid)
    requires t.ids.departed == s.ids.departed || exists d: Departure ::
      d.listedAt < d.removedAt < t.clock && t.ids.departed == s.ids.departed[s.profiles[key].uid := d]
    ensures StoreOk(t)
  {
    assert Uids(t);
    forall k | k in t.rcts && t.rcts[k].owner.Some? ensures Live(t, t.rcts[k].owner.value) {
      assert Live(s, s.rcts[k].owner.value);
    }
  }

  lemma DropKeeps(s: State, key: Key)
    requires Uids(s) && key in s.profiles && !s.profiles[key].finalizer
    ensures Keeps(s, Tick(Dropped(s, key)))
  {
  }

  /** A template written for a live profile where no other profile's was. */
  lemma RctStore(s: State, t: State, key: Key, rct: Rct)
    requires StoreOk(s) && SameIds(s, t) && t.profiles == s.profiles && t.rcts == s.rcts[key := rct]
    requires key in s.rcts && s.rcts[key].owner.Some? ==> s.rcts[key].owner == rct.owner
    requires rct.owner.Some? ==> Live(s, rct.owner.value)
    ensures StoreOk(t) && Keeps(s, t)
  {
    assert forall ns, template, u :: Owned(s, ns, template, u) ==> Owned(t, ns, template, u);
    assert Uids(t);
  }

  /** A template nobody controls, gone. */
  lemma RctDropStore(s: State, t: State, key: Key)
    requires StoreOk(s) && SameIds(s, t) && t.profiles == s.profiles && t.rcts == s.rcts - {key}
    requires key in s.rcts && s.rcts[key].owner.None?
    ensures StoreOk(t) && Keeps(s, t)
  {
    assert forall ns, template, u :: Owned(s, ns, template, u) ==> Owned(t, ns, template, u);
    assert Uids(t);
  }

  // ---- the worker and the pods under such changes ----

  /** The worker's premises survive when its profile's status does and nothing owned is lost. */
  lemma WorkerFrame(s: State, t: State)
    requires Uids(s) && WorkerOk(s) && Keeps(s, t) && t.worker == s.worker
    requires forall key, read :: Current(s, key, read) ==> Current(t, key, read)
    ensures WorkerOk(t)
  {
    match s.worker
    case Ensuring(key, read, mem, spec, done) =>
      assert Protected(s, read.uid);
      forall c | c in spec.deviceClaims[..done] ensures Owned(t, key.namespace, RctName(key.name, c.name), read.uid) {
        assert Owned(s, key.namespace, RctName(key.name, c.name), read.uid);
      }
    case _ =>
  }

  lemma RemovingFrame(s: State, t: State)
    requires RemovingOk(s) && t.worker == s.worker && forall k :: k in t.pods ==> k in s.pods && t.pods[k] == s.pods[k]
    ensures RemovingOk(t)
  {
  }

  /** The part of the invariant about the worker and the pods. */
  ghost predicate AgentsOk(s: State) {
    WorkerOk(s) && PendingOk(s) && PodsOk(s) && RemovingOk(s)
  }

  lemma Frame(s: State, t: State)
    requires Uids(s) && AgentsOk(s) && Keeps(s, t) && t.worker == s.worker
    requires forall key, read :: Current(s, key, read) ==> Current(t, key, read)
    requires t.pods == s.pods && t.pending == s.pending
    ensures AgentsOk(t)
  {
    WorkerFrame(s, t);
    KeepsPending(s, t);
    KeepsPods(s, t);
    RemovingFrame(s, t);
  }

  /** The same when the worker moves on. */
  lemma FramePods(s: State, t: State)
    requires PendingOk(s) && PodsOk(s) && Keeps(s, t) && t.pods == s.pods && t.pending == s.pending
    ensures PendingOk(t) && PodsOk(t)
  {
    KeepsPending(s, t);
    KeepsPods(s, t);
  }

  // ---- users ----

  lemma StepCreate(s: State, key: Key, spec: ProfileSpec)
    requires Inv(s) && key !in s.profiles
    ensures Inv(Tick(Created(s, key, spec)))
  {
    CreateKeeps(s, key, spec);
    CreateStore(s, key, spec);
    Frame(s, Tick(Created(s, key, spec)));
  }

  /** An edit of the spec or a deletion mark: uid, finalizer and status stay. */
  lemma StepReplace(s: State, key: Key, p: ProfileObj)
    requires Inv(s) && key in s.profiles
    requires p.uid == s.profiles[key].uid && p.finalizer == s.profiles[key].finalizer
    requires p.status == s.profiles[key].status
    requires p.deleting ==> s.profiles[key].deleting || p.finalizer
    ensures Inv(Tick(WithProfile(s, key, p)))
  {
    var t := Tick(WithProfile(s, key, p));
    ReplaceKeeps(s, t, key, p);
    ReplaceStore(s, t, key, p);
    Frame(s, t);
  }

  lemma StepDrop(s: State, key: Key)
    requires Inv(s) && key in s.profiles && !s.profiles[key].finalizer
    ensures Inv(Tick(Dropped(s, key)))
  {
    var t := Tick(Dropped(s, key));
    DropKeeps(s, key);
    DropStore(s, t, key);
    Frame(s, t);
  }

  /** Any step that touches none of profiles, templates of claims, worker and pods. */
  lemma StepElsewhere(s: State, t: State)
    requires Inv(s) && SameIds(s, t) && t.profiles == s.profiles && t.rcts == s.rcts
    requires t.worker == s.worker && t.pods == s.pods && t.pending == s.pending
    ensures Inv(t)
  {
    SameStore(s, t);
    Frame(s, t);
  }

  lemma StepNothing(s: State)
    requires Inv(s)
    ensures Inv(Tick(s))
  {
    StepElsewhere(s, Tick(s));
  }

  lemma StepForeignRct(s: State, key: Key, rct: Rct)
    requires Inv(s) && key !in s.rcts && rct.owner.None?
    ensures Inv(Tick(WithRct(s, key, rct)))
  {
    var t := Tick(WithRct(s, key, rct));
    RctStore(s, t, key, rct);
    Frame(s, t);
  }

  lemma StepDropForeignRct(s: State, key: Key)
    requires Inv(s) && key in s.rcts && s.rcts[key].owner.None?
    ensures Inv(Tick(s.(rcts := s.rcts - {key})))
  {
    var t := Tick(s.(rcts := s.rcts - {key}));
    RctDropStore(s, t, key);
    Frame(s, t);
  }

  // ---- the profile controller ----

  lemma StepBegin(s: State, key: Key)
    requires Inv(s) && key in s.profiles && s.worker.Idle?
    ensures Inv(Tick(Begun(s, key)))
  {
    var p := s.profiles[key].(finalizer := true);
    var t := Tick(Begun(s, key));
    ReplaceKeeps(s, t, key, p);
    ReplaceStore(s, t, key, p);
    FramePods(s, t);
  }

  lemma StepIdle(s: State)
    requires Inv(s)
    ensures Inv(Tick(WithWorker(s, Idle)))
  {
    var t := Tick(WithWorker(s, Idle));
    SameStore(s, t);
    FramePods(s, t);
  }

  /** A status patch by the worker, given what it stores. */
  lemma StepPatched(s: State, key: Key, base: ProfileStatus, modified: ProfileStatus)
    requires Inv(s) && key in s.profiles && s.profiles[key].finalizer
    requires var p := s.profiles[key].(status := PatchStatus(s.profiles[key].status, base, modified));
      && p.status.templateGeneration.None? && p.status.resolvedGeneration.None?
      && (IsValid(p) ==> p.status.resolved.Some? && SpecOwned(s, key, p.status.resolved.value.deviceClaims, p.uid))
    ensures Inv(Tick(Patched(s, key, base, modified)))
  {
    var p := s.profiles[key].(status := PatchStatus(s.profiles[key].status, base, modified));
    var t := Tick(Patched(s, key, base, modified));
    ReplaceKeeps(s, t, key, p);
    ReplaceStore(s, t, key, p);
    FramePods(s, t);
  }

  lemma StepRefused(s: State, stored: ProfileObj)
    requires Inv(s) && s.worker.Resolving?
    requires ResolveSpec(s.worker.read, s.env.templates, LabelsOf(s, s.worker.key.namespace), s.clock)
      == Refused(stored)
    ensures Inv(Tick(Patched(s, s.worker.key, s.worker.read.status, stored.status)))
  {
    assert Current(s, s.worker.key, s.worker.read);
    RefusedIsInvalid(s.worker.read, s.env.templates, LabelsOf(s, s.worker.key.namespace), s.clock);
    StepPatched(s, s.worker.key, s.worker.read.status, stored.status);
  }

  lemma StepResolved(s: State, mem: ProfileObj, spec: ProfileSpec)
    requires Inv(s) && s.worker.Resolving?
    requires ResolveSpec(s.worker.read, s.env.templates, LabelsOf(s, s.worker.key.namespace), s.clock)
      == Resolved(mem, spec)
    ensures Inv(Tick(ResolveStep(s)))
  {
    var t := Tick(ResolveStep(s));
    assert Current(s, s.worker.key, s.worker.read);
    ResolvedKeeps(s.worker.read, s.env.templates, LabelsOf(s, s.worker.key.namespace), s.clock);
    SameStore(s, t);
    FramePods(s, t);
  }

  lemma StepResolve(s: State)
    requires Inv(s) && s.worker.Resolving?
    ensures Inv(Tick(ResolveStep(s)))
  {
    match ResolveSpec(s.worker.read, s.env.templates, LabelsOf(s, s.worker.key.namespace), s.clock)
    case Aborted => StepIdle(s);
    case Refused(stored) => StepRefused(s, stored);
    case Resolved(mem, spec) => StepResolved(s, mem, spec);
  }

  lemma StepEnsure(s: State)
    requires Inv(s) && s.worker.Ensuring? && s.worker.done < |s.worker.spec.deviceClaims|
    ensures Inv(Tick(EnsureStep(s)))
  {
    var w := s.worker;
    var claim := w.spec.deviceClaims[w.done];
    var key := Key(w.key.namespace, RctName(w.key.name, claim.name));
    if key in s.rcts && s.rcts[key].owner.Some? && s.rcts[key].owner != Some(w.read.uid) {
      StepIdle(s);
    } else {
      StepEnsured(s, key, Rct(Some(w.read.uid), claim.exactly));
    }
  }

  lemma OwnedGrows(s: State, t: State, ns: string, name: string, claims: seq<DeviceClaim>, done: nat, uid: nat)
    requires Keeps(s, t) && Protected(s, uid) && done < |claims|
    requires SpecOwned(s, Key(ns, name), claims[..done], uid) && Owned(t, ns, RctName(name, claims[done].name), uid)
    ensures SpecOwned(t, Key(ns, name), claims[..done + 1], uid)
  {
    forall c | c in claims[..done + 1] ensures Owned(t, ns, RctName(name, c.name), uid) {
      if c in claims[..done] {
        assert Owned(s, ns, RctName(name, c.name), uid);
      }
    }
  }

  lemma StepEnsured(s: State, key: Key, rct: Rct)
    requires Inv(s) && s.worker.Ensuring? && s.worker.done < |s.worker.spec.deviceClaims|
    requires key == Key(s.worker.key.namespace,
      RctName(s.worker.key.name, s.worker.spec.deviceClaims[s.worker.done].name))
    requires rct.owner == Some(s.worker.read.uid)
    requires key in s.rcts && s.rcts[key].owner.Some? ==> s.rcts[key].owner == rct.owner
    ensures Inv(Tick(WithWorker(WithRct(s, key, rct), s.worker.(done := s.worker.done + 1))))
  {
    var w := s.worker;
    var t := Tick(WithWorker(WithRct(s, key, rct), w.(done := w.done + 1)));
    assert Current(s, w.key, w.read) && Protected(s, w.read.uid);
    RctStore(s, t, key, rct);
    FramePods(s, t);
    OwnedGrows(s, t, w.key.namespace, w.key.name, w.spec.deviceClaims, w.done, w.read.uid);
  }

  /** What the final patch stores: the worker's spec, and Valid exactly by the verdict. */
  lemma FinishStores(s: State, answers: Answers)
    requires Inv(s) && s.worker.Ensuring?
    ensures var w := s.worker;
      && w.key in s.profiles
      && var status := PatchStatus(s.profiles[w.key].status, w.mem.status, Final(s, answers).status);
      var p := s.profiles[w.key].(status := status);
      && p.status.resolved == Some(w.spec)
      && p.status.templateGeneration.None? && p.status.resolvedGeneration.None?
      && (IsValid(p) <==> Verdict(w.mem, w.spec, Existing(s, w.key, w.spec.deviceClaims), answers, s.clock))
  {
    var w := s.worker;
    assert Current(s, w.key, w.read);
    UpdatedSays(w.mem, w.spec, Existing(s, w.key, w.spec.deviceClaims), answers, s.clock);
  }

  lemma StepFinish(s: State, answers: Answers)
    requires Inv(s) && s.worker.Ensuring? && s.worker.done == |s.worker.spec.deviceClaims|
    ensures Inv(Tick(FinishStep(s, answers)))
  {
    var w := s.worker;
    assert Current(s, w.key, w.read);
    FinishStores(s, answers);
    assert w.spec.deviceClaims[..w.done] == w.spec.deviceClaims;
    StepPatched(s, w.key, w.mem.status, Final(s, answers).status);
  }

  /** A pod the list does not show is not a gated pod admitted under the profile. */
  lemma UnlistedNotGated(s: State, key: Key, k: Key)
    requires Uids(s) && PodsOk(s) && key in s.profiles && k in s.pods && k !in GatedPods(s, key)
    ensures s.pods[k].ticket.Some? && s.pods[k].ticket.value.uid == s.profiles[key].uid ==> !Gated(s.pods[k])
  {
    assert PodOk(s, k.namespace, s.pods[k]);
  }

  /** At the list there is no gated pod of the profile at all. */
  lemma StepListGated(s: State, key: Key)
    requires Inv(s) && Clear(s, key)
    ensures Inv(Tick(WithWorker(s, Removing(key, s.profiles[key], s.clock))))
  {
    var t := Tick(WithWorker(s, Removing(key, s.profiles[key], s.clock)));
    SameStore(s, t);
    FramePods(s, t);
    forall k | k in t.pods ensures NotListed(t.pods[k], s.profiles[key].uid, s.clock) {
      UnlistedNotGated(s, key, k);
    }
  }

  lemma DepartedTicket(s: State, t: State, uid: nat, ns: string, ticket: Ticket)
    requires TicketOk(s, ns, ticket) && DepartsFrom(s, t, uid)
    ensures TicketOk(t, ns, ticket)
  {
    if ticket.uid != uid && Protected(s, ticket.uid) && ClaimsOwned(s, ns, ticket.injected, ticket.uid) {
      assert Protected(t, ticket.uid);
    }
  }

  /** One profile leaves, at this time; every other keeps what its pods rely on. */
  ghost predicate DepartsFrom(s: State, t: State, uid: nat) {
    && s.clock < t.clock && t.ids.keyOf == s.ids.keyOf
    && uid in t.ids.departed && t.ids.departed[uid].removedAt == s.clock
    && uid !in s.ids.departed
    && (forall u :: u in s.ids.departed ==> u in t.ids.departed && t.ids.departed[u] == s.ids.departed[u])
    && (forall u :: u != uid && Protected(s, u) ==> Protected(t, u))
    && (forall ns, template, u :: u != uid && Owned(s, ns, template, u) ==> Owned(t, ns, template, u))
  }

  lemma DepartedPod(s: State, t: State, uid: nat, ns: string, rec: PodRec)
    requires PodOk(s, ns, rec) && DepartsFrom(s, t, uid) && NotListed(rec, uid, t.ids.departed[uid].listedAt)
    ensures PodOk(t, ns, rec)
  {
    if rec.ticket.Some? && rec.ticket.value.uid != uid && Gated(rec) && Served(s, ns, rec) {
      assert Served(t, ns, rec);
    }
  }

  lemma DepartedKeeps(s: State, key: Key, listedAt: nat)
    requires Uids(s) && key in s.profiles
    ensures DepartsFrom(s, Tick(Departed(s, key, listedAt)), s.profiles[key].uid)
  {
    assert Live(s, s.profiles[key].uid);
  }

  lemma DepartedAgents(s: State, t: State, uid: nat)
    requires DepartsFrom(s, t, uid) && PendingOk(s) && PodsOk(s) && t.pods == s.pods && t.pending == s.pending
    requires forall k :: k in s.pods ==> NotListed(s.pods[k], uid, t.ids.departed[uid].listedAt)
    ensures PendingOk(t) && PodsOk(t)
  {
    forall id | id in t.pending && t.pending[id].ticket.Some?
      ensures TicketOk(t, t.pending[id].namespace, t.pending[id].ticket.value)
    {
      DepartedTicket(s, t, uid, t.pending[id].namespace, t.pending[id].ticket.value);
    }
    forall k | k in t.pods ensures PodOk(t, k.namespace, t.pods[k]) {
      DepartedPod(s, t, uid, k.namespace, t.pods[k]);
    }
  }

  lemma StepDeparted(s: State, key: Key, listedAt: nat)
    requires Inv(s) && key in s.profiles && s.worker == Removing(key, s.profiles[key], listedAt)
    ensures Inv(Tick(Departed(s, key, listedAt)))
  {
    var t := Tick(Departed(s, key, listedAt));
    assert t.ids.departed == s.ids.departed[s.profiles[key].uid := Departure(listedAt, s.clock)];
    DropStore(s, t, key);
    DepartedKeeps(s, key, listedAt);
    DepartedAgents(s, t, s.profiles[key].uid);
  }

  lemma StepRemoveFinalizer(s: State)
    requires Inv(s) && s.worker.Removing?
    ensures Inv(Tick(RemoveFinalizerStep(s)))
  {
    if s.worker.key in s.profiles && s.profiles[s.worker.key] == s.worker.read {
      StepDeparted(s, s.worker.key, s.worker.listedAt);
    } else {
      StepIdle(s);
    }
  }

  // ---- pods ----

  /** A stored pod changed: still the same entry, naming the same profile, and not gated anew. */
  lemma StepPod(s: State, key: Key, rec: PodRec)
    requires Inv(s) && key in s.pods
    requires rec.ticket == s.pods[key].ticket && rec.createdAt == s.pods[key].createdAt
    requires rec.pod.annotations == s.pods[key].pod.annotations && (Gated(rec) ==> Gated(s.pods[key]))
    ensures Inv(Tick(WithPod(s, key, rec)))
  {
    var t := Tick(WithPod(s, key, rec));
    SameStore(s, t);
    KeepsPending(s, t);
    forall k | k in t.pods ensures PodOk(t, k.namespace, t.pods[k]) {
      KeepsPod(s, t, k.namespace, s.pods[k]);
    }
    WorkerFrame(s, t);
  }

  lemma StepDeletePod(s: State, key: Key)
    requires Inv(s)
    ensures Inv(Tick(s.(pods := s.pods - {key})))
  {
    var t := Tick(s.(pods := s.pods - {key}));
    SameStore(s, t);
    KeepsPending(s, t);
    KeepsPods(s, t);
    WorkerFrame(s, t);
  }

  lemma StepPlace(s: State, key: Key, quotaListFails: bool)
    requires Inv(s) && key in s.pods
    ensures Inv(Tick(WithPod(s, key, AfterPatch(s.pods[key], Decide(s, key, quotaListFails)))))
  {
    StepPod(s, key, AfterPatch(s.pods[key], Decide(s, key, quotaListFails)));
  }

  // ---- the webhook ----

  /** On what a fresh read admits, the ticket is good: the profile is protected, its templates owned. */
  lemma FreshTicket(s: State, t: State, ns: string, submitted: PodObj, overrides: seq<Override>)
    requires StoreOk(s) && SameIds(s, t) && t.profiles == s.profiles && t.rcts == s.rcts
    requires Answer(s, ns, submitted, overrides).Some?
    ensures var q := Answer(s, ns, submitted, overrides).value;
      q.ticket.Some? ==>
        && TicketOk(t, ns, q.ticket.value)
        && NamesProfile(q.pod, q.ticket.value.name)
  {
    var q := Answer(s, ns, submitted, overrides).value;
    if q.ticket.Some? {
      var key := Key(ns, ValueAt(submitted.annotations, PROFILE_ANNOTATION));
      var p := s.profiles[key];
      var claims := p.status.resolved.value.deviceClaims;
      StillNamesProfile(submitted.annotations, p, overrides);
      assert Protected(t, p.uid);
      forall c | c in q.ticket.value.injected ensures c.template.Some? && Owned(t, ns, c.template.value, p.uid) {
        var i :| 0 <= i < |claims| && PodClaims(key.name, claims)[i] == c;
        assert claims[i] in claims;
        assert Owned(s, ns, RctName(key.name, claims[i].name), p.uid);
      }
    }
  }

  lemma StepAdmitRead(s: State, id: nat, ns: string, submitted: PodObj, overrides: seq<Override>)
    requires Inv(s) && Answer(s, ns, submitted, overrides).Some?
    ensures Inv(Tick(WithPending(s, id, Answer(s, ns, submitted, overrides).value)))
  {
    var q := Answer(s, ns, submitted, overrides).value;
    var t := Tick(WithPending(s, id, q));
    SameStore(s, t);
    FreshTicket(s, t, ns, submitted, overrides);
    forall i | i in t.pending && t.pending[i].ticket.Some?
      ensures TicketOk(t, t.pending[i].namespace, t.pending[i].ticket.value)
    {
      if i != id {
        KeepsTicket(s, t, s.pending[i].namespace, s.pending[i].ticket.value);
      }
    }
    KeepsPods(s, t);
    WorkerFrame(s, t);
  }

  lemma NewPod(s: State, t: State, q: Pending)
    requires Keeps(s, t)
    requires q.ticket.Some? ==> TicketOk(s, q.namespace, q.ticket.value)
    requires q.ticket.Some? ==> NamesProfile(q.pod, q.ticket.value.name)
    requires forall u :: u in s.ids.departed ==> s.ids.departed[u].listedAt < s.clock
    ensures PodOk(t, q.namespace, NewRec(s, q))
  {
    if q.ticket.Some? {
      KeepsTicket(s, t, q.namespace, q.ticket.value);
    }
  }

  lemma StepAdmitCreate(s: State, id: nat, name: string)
    requires Inv(s) && id in s.pending && Key(s.pending[id].namespace, name) !in s.pods
    ensures Inv(Tick(WithoutPending(WithPod(s, Key(s.pending[id].namespace, name), NewRec(s, s.pending[id])), id)))
  {
    var q := s.pending[id];
    var key := Key(q.namespace, name);
    var t := Tick(WithoutPending(WithPod(s, key, NewRec(s, q)), id));
    SameStore(s, t);
    KeepsPending(s, t);
    NewPod(s, t, q);
    forall k | k in t.pods ensures PodOk(t, k.namespace, t.pods[k]) {
      if k != key {
        KeepsPod(s, t, k.namespace, s.pods[k]);
      }
    }
    WorkerFrame(s, t);
  }

  lemma StepAdmitLost(s: State, id: nat)
    requires Inv(s)
    ensures Inv(Tick(WithoutPending(s, id)))
  {
    var t := Tick(WithoutPending(s, id));
    SameStore(s, t);
    KeepsPending(s, t);
    KeepsPods(s, t);
    WorkerFrame(s, t);
  }

  // ---- every step, every run ----

  lemma InvUser(s: State, a: Step)
    requires Inv(s) && (a.CreateProfile? || a.EditProfile? || a.DeleteProfile?)
    ensures Inv(Next(s, a))
  {
    if a.key !in s.profiles {
      if a.CreateProfile? { StepCreate(s, a.key, a.newSpec); } else { StepNothing(s); }
    } else if a.CreateProfile? { StepNothing(s); }
    else if a.EditProfile? { StepReplace(s, a.key, Edited(s.profiles[a.key], a.newSpec)); }
    else if s.profiles[a.key].finalizer { StepReplace(s, a.key, Terminating(s.profiles[a.key])); }
    else { StepDrop(s, a.key); }
  }

  lemma InvElsewhere(s: State, a: Step)
    requires Inv(s) && (a.PutTemplate? || a.DropTemplate? || a.PutNamespace? || a.PutQuotas?)
    ensures Inv(Next(s, a))
  {
    StepElsewhere(s, Next(s, a));
  }

  lemma InvForeignRct(s: State, a: Step)
    requires Inv(s) && (a.CreateForeignRct? || a.DropForeignRct?)
    ensures Inv(Next(s, a))
  {
    if a.CreateForeignRct? && a.key !in s.rcts { StepForeignRct(s, a.key, Rct(None, a.request)); }
    else if a.DropForeignRct? && a.key in s.rcts && s.rcts[a.key].owner.None? { StepDropForeignRct(s, a.key); }
    else { StepNothing(s); }
  }

  lemma InvPodEdit(s: State, a: Step)
    requires Inv(s) && (a.DeletePod? || a.EditPodLabels? || a.DropForeignGate?)
    ensures Inv(Next(s, a))
  {
    if a.DeletePod? { StepDeletePod(s, a.key); }
    else if a.key !in s.pods { StepNothing(s); }
    else if a.EditPodLabels? { StepPod(s, a.key, Relabelled(s.pods[a.key], a.labels)); }
    else if a.gate != SCHEDULING_GATE { StepPod(s, a.key, WithoutGate(s.pods[a.key], a.gate)); }
    else { StepNothing(s); }
  }

  lemma InvPlace(s: State, a: Step)
    requires Inv(s) && a.Place?
    ensures Inv(Next(s, a))
  {
    if !a.patchFails && a.key in s.pods { StepPlace(s, a.key, a.quotaListFails); } else { StepNothing(s); }
  }

  lemma InvWebhook(s: State, a: Step)
    requires Inv(s) && (a.AdmitCreate? || a.AdmitLost?)
    ensures Inv(Next(s, a))
  {
    if a.AdmitLost? { StepAdmitLost(s, a.id); }
    else if a.id in s.pending && Key(s.pending[a.id].namespace, a.name) !in s.pods { StepAdmitCreate(s, a.id, a.name); }
    else { StepNothing(s); }
  }

  lemma InvAdmitRead(s: State, a: Step)
    requires Inv(s) && a.AdmitRead?
    ensures Inv(Next(s, a))
  {
    if a.id !in s.pending && Answer(s, a.ns, a.submitted, a.overrides).Some? {
      StepAdmitRead(s, a.id, a.ns, a.submitted, a.overrides);
    }
    else { StepNothing(s); }
  }

  lemma InvBegin(s: State, a: Step)
    requires Inv(s) && (a.Begin? || a.Resolve?)
    ensures Inv(Next(s, a))
  {
    if a.Begin? && s.worker.Idle? && a.key in s.profiles && !s.profiles[a.key].deleting { StepBegin(s, a.key); }
    else if a.Resolve? && s.worker.Resolving? { StepResolve(s); }
    else { StepNothing(s); }
  }

  lemma InvEnsure(s: State)
    requires Inv(s)
    ensures Inv(Next(s, Ensure))
  {
    if s.worker.Ensuring? && s.worker.done < |s.worker.spec.deviceClaims| { StepEnsure(s); } else { StepNothing(s); }
  }

  lemma InvFinish(s: State, answers: Answers)
    requires Inv(s)
    ensures Inv(Next(s, Finish(answers)))
  {
    if s.worker.Ensuring? && s.worker.done >= |s.worker.spec.deviceClaims| {
      StepFinish(s, answers);
    } else {
      StepNothing(s);
    }
  }

  lemma InvDeletion(s: State, a: Step)
    requires Inv(s) && (a.Abort? || a.ListGated? || a.RemoveFinalizer?)
    ensures Inv(Next(s, a))
  {
    if a.Abort? { StepIdle(s); }
    else if a.ListGated? && Clear(s, a.key) { StepListGated(s, a.key); }
    else if a.RemoveFinalizer? && s.worker.Removing? { StepRemoveFinalizer(s); }
    else { StepNothing(s); }
  }

  lemma InvNext(s: State, a: Step)
    requires Inv(s)
    ensures Inv(Next(s, a))
  {
    match a
    case CreateProfile(_, _) => InvUser(s, a);
    case EditProfile(_, _) => InvUser(s, a);
    case DeleteProfile(_) => InvUser(s, a);
    case CreateForeignRct(_, _) => InvForeignRct(s, a);
    case DropForeignRct(_) => InvForeignRct(s, a);
    case DeletePod(_) => InvPodEdit(s, a);
    case EditPodLabels(_, _) => InvPodEdit(s, a);
    case DropForeignGate(_, _) => InvPodEdit(s, a);
    case AdmitRead(_, _, _, _) => InvAdmitRead(s, a);
    case AdmitCreate(_, _) => InvWebhook(s, a);
    case AdmitLost(_) => InvWebhook(s, a);
    case Begin(_) => InvBegin(s, a);
    case Resolve => InvBegin(s, a);
    case Ensure => InvEnsure(s);
    case Finish(answers) => InvFinish(s, answers);
    case Abort => InvDeletion(s, a);
    case ListGated(_) => InvDeletion(s, a);
    case RemoveFinalizer => InvDeletion(s, a);
    case Place(_, _, _) => InvPlace(s, a);
    case _ => InvElsewhere(s, a);
  }

  /** Every run keeps the invariant, whatever state it starts in. */
  lemma {:induction false} RunKeepsInv(s: State, steps: seq<Step>)
    requires Inv(s)
    ensures Inv(Run(s, steps))
    decreases |steps|
  {
    if steps != [] {
      RunKeepsInv(s, steps[..|steps| - 1]);
      InvNext(Run(s, steps[..|steps| - 1]), steps[|steps| - 1]);
    }
  }

  /** The invariant holds in every reachable state. */
  lemma InvRun(steps: seq<Step>)
    ensures Inv(Run(INITIAL, steps))
  {
    RunKeepsInv(INITIAL, steps);
  }
}
