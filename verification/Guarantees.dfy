/**
 What the protocol guarantees gated pods: in runs where a Handle call and its create, and a
 deletion's list and its update, are single steps, everything; in runs where they are not, all
 but the pods that raced a deletion, which placement still lets go.
 */
module Guarantees {
  import opened Kube
  import opened Profiles
  import opened Injection
  import opened Admission
  import opened Placement
  import opened Protocol
  import opened Safety
  import opened Effects
  import opened Reconciles
  import QuotaCheck
  import Gates

  // ---- any interleaving ----

  /**
   In every reachable state a gated pod WTO admitted has its profile in the store with its
   finalizer, and every claim injected into it names a template in its namespace controlled by
   that very profile; or its profile left, its read came before the finalizer's removal and its
   create after the list that saw no gated pod.
   */
  lemma GatedPodIsServedOrRaced(steps: seq<Step>, key: Key)
    requires key in Run(INITIAL, steps).pods
    requires Gated(Run(INITIAL, steps).pods[key]) && Run(INITIAL, steps).pods[key].ticket.Some?
    ensures var s := Run(INITIAL, steps); Served(s, key.namespace, s.pods[key]) || Stranded(s, s.pods[key])
  {
    InvRun(steps);
    var s := Run(INITIAL, steps);
    assert PodOk(s, key.namespace, s.pods[key]);
  }

  /** A pod that lost its profile has lost its templates too: none is controlled by a departed profile. */
  lemma DepartedOwnsNothing(steps: seq<Step>, uid: nat)
    requires uid in Run(INITIAL, steps).ids.departed
    ensures var s := Run(INITIAL, steps); !Live(s, uid) && forall ns, template :: !Owned(s, ns, template, uid)
  {
    InvRun(steps);
    var s := Run(INITIAL, steps);
    assert forall k :: k in s.rcts && s.rcts[k].owner.Some? ==> Live(s, s.rcts[k].owner.value);
  }

  /**
   No deletion strands a pod for good: whatever the quotas say, a placement step whose patch
   succeeds lets a gated pod go when no profile of its name is there, placement untouched; and
   when a new profile has taken the name, as soon as the quotas admit that one.
   */
  lemma RacedPodIsReleased(s: State, key: Key, quotaListFails: bool)
    requires Inv(s) && key in s.pods && Gated(s.pods[key]) && s.pods[key].ticket.Some?
    ensures var name := Key(key.namespace, s.pods[key].ticket.value.name);
      var after := Next(s, Place(key, quotaListFails, false));
      && key in after.pods
      && (name !in s.profiles ==>
            && !Gated(after.pods[key])
            && after.pods[key].pod == Ungated(s.pods[key].pod) && after.pods[key].removal == ProfileMissing)
      && (name in s.profiles ==>
            (!Gated(after.pods[key]) <==>
              || quotaListFails
              || QuotaCheck.AllAdmit(QuotasOf(s, key.namespace), ViewOf(s.profiles[name]))))
  {
    assert PodOk(s, key.namespace, s.pods[key]);
    Gates.AddRemove(s.pods[key].pod.gates);
  }

  /** A Handle call that reads, a deletion that completes, and only then the create. */
  function Race(s: State, key: Key, submitted: PodObj, overrides: seq<Override>, name: string): State {
    var s1 := Next(s, AdmitRead(0, key.namespace, submitted, overrides));
    var s2 := Next(s1, DeleteProfile(key));
    var s3 := Next(s2, ListGated(key));
    var s4 := Next(s3, RemoveFinalizer);
    Next(s4, AdmitCreate(0, name))
  }

  /** The premises of the race: a protected profile without gated pods, and a pod it would admit. */
  ghost predicate RaceReady(s: State, key: Key, submitted: PodObj, overrides: seq<Override>, name: string) {
    && s.worker.Idle? && s.pending == map[]
    && key in s.profiles && s.profiles[key].finalizer && GatedPods(s, key) == {}
    && ValueAt(submitted.annotations, PROFILE_ANNOTATION) == key.name
    && Respond(submitted, Some(s.profiles[key]), overrides).Admitted?
    && Key(key.namespace, name) !in s.pods
  }

  lemma RaceAnswer(s: State, key: Key, submitted: PodObj, overrides: seq<Override>, name: string)
    requires RaceReady(s, key, submitted, overrides, name)
    ensures var q := Answer(s, key.namespace, submitted, overrides);
      && q.Some? && q.value.ticket == Some(TicketOf(s, submitted, s.profiles[key]))
      && q.value.namespace == key.namespace
      && SCHEDULING_GATE in q.value.pod.gates
  {
    Gates.AddRemove(submitted.gates);
  }

  lemma RaceRead(s: State, key: Key, submitted: PodObj, overrides: seq<Override>)
    requires s.pending == map[] && Answer(s, key.namespace, submitted, overrides).Some?
    ensures Next(s, AdmitRead(0, key.namespace, submitted, overrides))
      == Tick(WithPending(s, 0, Answer(s, key.namespace, submitted, overrides).value))
  {
  }

  /** The state a deletion without gated pods leaves. */
  function Deleted(s: State, key: Key): State
    requires key in s.profiles
  {
    var p := Terminating(s.profiles[key]);
    Tick(Departed(Tick(WithWorker(Tick(WithProfile(s, key, p)), Removing(key, p, s.clock + 1))), key, s.clock + 1))
  }

  lemma RaceDeletion(s: State, key: Key)
    requires s.worker.Idle? && key in s.profiles && s.profiles[key].finalizer && GatedPods(s, key) == {}
    ensures Next(Next(Next(s, DeleteProfile(key)), ListGated(key)), RemoveFinalizer) == Deleted(s, key)
  {
    var s2 := Tick(WithProfile(s, key, Terminating(s.profiles[key])));
    assert Next(s, DeleteProfile(key)) == s2;
    assert GatedPods(s2, key) == GatedPods(s, key);
    ListNext(s2, key);
    RemoveNext(Tick(WithWorker(s2, Removing(key, s2.profiles[key], s2.clock))));
  }

  function Late(s: State, q: Pending, pod: Key): State {
    Tick(WithoutPending(WithPod(s, pod, NewRec(s, q)), 0))
  }

  lemma RaceCreate(s: State, q: Pending, name: string)
    requires s.pending == map[0 := q] && Key(q.namespace, name) !in s.pods
    ensures Next(s, AdmitCreate(0, name)) == Late(s, q, Key(q.namespace, name))
  {
  }

  /** What the race leaves, on the state it arrives at. */
  lemma LateIsStranded(s: State, key: Key, q: Pending, pod: Key)
    requires Uids(s) && OwnersLive(s) && key in s.profiles && q.ticket.Some?
    requires q.ticket.value.uid == s.profiles[key].uid
    requires q.ticket.value.readAt < s.clock && SCHEDULING_GATE in q.pod.gates
    ensures var t := Late(Deleted(s, key), q, pod);
      && key !in t.profiles && pod in t.pods && t.pods[pod].ticket == q.ticket
      && Gated(t.pods[pod]) && Stranded(t, t.pods[pod])
      && forall ns, template :: !Owned(t, ns, template, t.pods[pod].ticket.value.uid)
  {
    var t := Late(Deleted(s, key), q, pod);
    assert t.rcts == Collected(s.rcts, s.profiles[key].uid);
    assert t.ids.departed == s.ids.departed[s.profiles[key].uid := Departure(s.clock + 1, s.clock + 2)];
  }

  /**
   The exception is real: from every such state the race leaves a gated pod whose profile is gone
   and whose injected claims name templates that profile no longer controls.
   */
  lemma RaceStrands(s: State, key: Key, submitted: PodObj, overrides: seq<Override>, name: string)
    requires Inv(s) && RaceReady(s, key, submitted, overrides, name)
    ensures var t := Race(s, key, submitted, overrides, name);
      var pod := Key(key.namespace, name);
      && key !in t.profiles && pod in t.pods && t.pods[pod].ticket == Some(TicketOf(s, submitted, s.profiles[key]))
      && Gated(t.pods[pod]) && Stranded(t, t.pods[pod])
      && forall ns, template :: !Owned(t, ns, template, t.pods[pod].ticket.value.uid)
  {
    RaceAnswer(s, key, submitted, overrides, name);
    RaceRead(s, key, submitted, overrides);
    var q := Answer(s, key.namespace, submitted, overrides).value;
    var s1 := Tick(WithPending(s, 0, q));
    InvNext(s, AdmitRead(0, key.namespace, submitted, overrides));
    assert GatedPods(s1, key) == GatedPods(s, key);
    RaceDeletion(s1, key);
    RaceCreate(Deleted(s1, key), q, name);
    LateIsStranded(s1, key, q, Key(key.namespace, name));
  }

  // ---- reads and writes as single steps ----

  datatype Action =
    | Plain(step: Step)
    | AdmitPod(ns: string, submitted: PodObj, overrides: seq<Override>, name: string)
    | HandleDeletion(key: Key)

  /** Steps that are no half of a split operation. */
  predicate Whole(a: Step) {
    !(a.AdmitRead? || a.AdmitCreate? || a.AdmitLost? || a.ListGated? || a.RemoveFinalizer?)
  }

  predicate Proper(a: Action) {
    a.Plain? ==> Whole(a.step)
  }

  function Perform(s: State, a: Action): State {
    match a
    case Plain(step) => Next(s, step)
    case AdmitPod(ns, submitted, overrides, name) =>
      Next(Next(Next(s, AdmitRead(0, ns, submitted, overrides)), AdmitCreate(0, name)), AdmitLost(0))
    case HandleDeletion(key) => Next(Next(s, ListGated(key)), RemoveFinalizer)
  }

  function Play(actions: seq<Action>): State {
    if actions == [] then INITIAL else Perform(Play(actions[..|actions| - 1]), actions[|actions| - 1])
  }

  lemma PerformIsSteps(s: State, prefix: seq<Step>, a: Action) returns (steps: seq<Step>)
    requires s == Run(INITIAL, prefix)
    ensures Perform(s, a) == Run(INITIAL, steps)
  {
    match a
    case Plain(step) =>
      steps := prefix + [step];
      RunSnoc(INITIAL, prefix, step);
    case AdmitPod(ns, submitted, overrides, name) =>
      var one := prefix + [AdmitRead(0, ns, submitted, overrides)];
      var two := one + [AdmitCreate(0, name)];
      steps := two + [AdmitLost(0)];
      RunSnoc(INITIAL, prefix, AdmitRead(0, ns, submitted, overrides));
      RunSnoc(INITIAL, one, AdmitCreate(0, name));
      RunSnoc(INITIAL, two, AdmitLost(0));
    case HandleDeletion(key) =>
      var one := prefix + [ListGated(key)];
      steps := one + [RemoveFinalizer];
      RunSnoc(INITIAL, prefix, ListGated(key));
      RunSnoc(INITIAL, one, RemoveFinalizer);
  }

  /** A run of actions is a run of steps: what holds over all interleavings holds over it. */
  lemma {:induction false} PlayIsRun(actions: seq<Action>) returns (steps: seq<Step>)
    ensures Play(actions) == Run(INITIAL, steps)
  {
    if actions == [] {
      steps := [];
    } else {
      var prefix := PlayIsRun(actions[..|actions| - 1]);
      steps := PerformIsSteps(Play(actions[..|actions| - 1]), prefix, actions[|actions| - 1]);
    }
  }

  /** In such runs the create follows its read, and the removal its list, at once. */
  ghost predicate Adjacent(s: State) {
    && s.pending == map[] && !s.worker.Removing?
    && (forall k :: k in s.pods && s.pods[k].ticket.Some? ==> s.pods[k].createdAt == s.pods[k].ticket.value.readAt + 1)
    && (forall u :: u in s.ids.departed ==> s.ids.departed[u].removedAt == s.ids.departed[u].listedAt + 1)
    && (forall k, u :: k in s.pods && s.pods[k].ticket.Some? && u in s.ids.departed ==>
          s.pods[k].ticket.value.readAt != s.ids.departed[u].listedAt)
  }

  /** No pod enters, none changes its ticket or age; nobody departs; nothing is pending anew. */
  ghost predicate KeepsHistory(s: State, t: State) {
    && t.pending == s.pending && t.ids.departed == s.ids.departed
    && (forall k :: k in t.pods ==>
          k in s.pods && t.pods[k].ticket == s.pods[k].ticket && t.pods[k].createdAt == s.pods[k].createdAt)
    && (!s.worker.Removing? ==> !t.worker.Removing?)
  }

  lemma WriteKeepsHistory(s: State, key: Key, rec: PodRec)
    requires key in s.pods && rec.ticket == s.pods[key].ticket && rec.createdAt == s.pods[key].createdAt
    ensures KeepsHistory(s, Tick(WithPod(s, key, rec)))
  {
  }

  lemma PodEditKeepsHistory(s: State, a: Step)
    requires a.EditPodLabels? || a.DropForeignGate?
    ensures KeepsHistory(s, Next(s, a))
  {
    if a.key in s.pods {
      if a.EditPodLabels? {
        WriteKeepsHistory(s, a.key, Relabelled(s.pods[a.key], a.labels));
      } else {
        WriteKeepsHistory(s, a.key, WithoutGate(s.pods[a.key], a.gate));
      }
    }
  }

  lemma PlaceKeepsHistory(s: State, a: Step)
    requires a.Place?
    ensures KeepsHistory(s, Next(s, a))
  {
    if a.key in s.pods {
      WriteKeepsHistory(s, a.key, AfterPatch(s.pods[a.key], Decide(s, a.key, a.quotaListFails)));
    }
  }

  lemma WholeKeepsHistory(s: State, a: Step)
    requires Whole(a)
    ensures KeepsHistory(s, Next(s, a))
  {
    if a.Place? { PlaceKeepsHistory(s, a); }
    else if a.EditPodLabels? || a.DropForeignGate? { PodEditKeepsHistory(s, a); }
    else if !a.DeletePod? { AwayFromPods(s, a); }
  }

  lemma ReadAdds(s: State, ns: string, submitted: PodObj, overrides: seq<Override>)
    requires s.pending == map[]
    ensures var t := Next(s, AdmitRead(0, ns, submitted, overrides));
      && t.pods == s.pods && t.ids.departed == s.ids.departed && t.worker == s.worker && t.clock == s.clock + 1
      && t.pending.Keys <= {0}
      && (0 in t.pending && t.pending[0].ticket.Some? ==> t.pending[0].ticket.value.readAt == s.clock)
  {
  }

  lemma CreateAdds(s: State, name: string)
    requires s.pending.Keys <= {0}
    ensures var t := Next(Next(s, AdmitCreate(0, name)), AdmitLost(0));
      && t.ids.departed == s.ids.departed && t.worker == s.worker && t.pending == map[]
      && (forall k :: k in t.pods ==>
            || (k in s.pods && t.pods[k] == s.pods[k])
            || (0 in s.pending && t.pods[k].ticket == s.pending[0].ticket && t.pods[k].createdAt == s.clock))
  {
  }

  lemma AdjacentAdmit(s: State, ns: string, submitted: PodObj, overrides: seq<Override>, name: string)
    requires Uids(s) && Adjacent(s)
    ensures Adjacent(Perform(s, AdmitPod(ns, submitted, overrides, name)))
  {
    ReadAdds(s, ns, submitted, overrides);
    CreateAdds(Next(s, AdmitRead(0, ns, submitted, overrides)), name);
  }

  lemma DeletionDeparts(s: State, key: Key)
    requires !s.worker.Removing?
    ensures var t := Next(Next(s, ListGated(key)), RemoveFinalizer);
      && t.pods == s.pods && t.pending == s.pending && !t.worker.Removing?
      && (!Clear(s, key) ==> t.ids.departed == s.ids.departed)
      && (Clear(s, key) ==> t.ids.departed == s.ids.departed[s.profiles[key].uid := Departure(s.clock, s.clock + 1)])
  {
    var s1 := Next(s, ListGated(key));
    if Clear(s, key) {
      ListNext(s, key);
      RemoveNext(s1);
    } else {
      assert s1 == Tick(s);
      assert Next(s1, RemoveFinalizer) == Tick(s1);
    }
  }

  lemma AdjacentDeletion(s: State, key: Key)
    requires PodsOk(s) && Adjacent(s)
    ensures Adjacent(Perform(s, HandleDeletion(key)))
  {
    DeletionDeparts(s, key);
    forall k | k in s.pods && s.pods[k].ticket.Some? ensures s.pods[k].ticket.value.readAt < s.clock {
      assert PodOk(s, k.namespace, s.pods[k]);
    }
  }

  lemma PerformInv(s: State, a: Action)
    requires Inv(s) && Adjacent(s) && Proper(a)
    ensures Inv(Perform(s, a)) && Adjacent(Perform(s, a))
  {
    match a
    case Plain(step) =>
      InvNext(s, step);
      WholeKeepsHistory(s, step);
    case AdmitPod(ns, submitted, overrides, name) =>
      InvNext(s, AdmitRead(0, ns, submitted, overrides));
      InvNext(Next(s, AdmitRead(0, ns, submitted, overrides)), AdmitCreate(0, name));
      InvNext(Next(Next(s, AdmitRead(0, ns, submitted, overrides)), AdmitCreate(0, name)), AdmitLost(0));
      AdjacentAdmit(s, ns, submitted, overrides, name);
    case HandleDeletion(key) =>
      InvNext(s, ListGated(key));
      InvNext(Next(s, ListGated(key)), RemoveFinalizer);
      AdjacentDeletion(s, key);
  }

  lemma {:induction false} PlayInv(actions: seq<Action>)
    requires forall a :: a in actions ==> Proper(a)
    ensures Inv(Play(actions)) && Adjacent(Play(actions))
  {
    if actions == [] {
      InvRun([]);
    } else {
      PlayInv(actions[..|actions| - 1]);
      assert Proper(actions[|actions| - 1]);
      PerformInv(Play(actions[..|actions| - 1]), actions[|actions| - 1]);
    }
  }

  lemma AdjacentNotStranded(s: State, key: Key)
    requires Adjacent(s) && key in s.pods && s.pods[key].ticket.Some?
    ensures !Stranded(s, s.pods[key])
  {
  }

  /**
   With the two operations atomic, in every reachable state each gated pod WTO admitted has its
   profile there with its finalizer, and every injected claim resolves to a template controlled
   by that profile, whatever other profiles' template names it collides with.
   */
  lemma GatedPodIsServed(actions: seq<Action>, key: Key)
    requires forall a :: a in actions ==> Proper(a)
    requires key in Play(actions).pods && Gated(Play(actions).pods[key]) && Play(actions).pods[key].ticket.Some?
    ensures var s := Play(actions);
      var t := s.pods[key].ticket.value;
      var profile := Key(key.namespace, t.name);
      && profile in s.profiles && s.profiles[profile].uid == t.uid && s.profiles[profile].finalizer
      && ClaimsOwned(s, key.namespace, t.injected, t.uid)
  {
    PlayInv(actions);
    var s := Play(actions);
    assert PodOk(s, key.namespace, s.pods[key]);
    AdjacentNotStranded(s, key);
  }
}
