/**
 After the verdict is stored: how long the claim templates go on carrying the requests of the
 resolved spec in the store, which is what the webhook injects by.
 */
module StoredTemplates {
  import opened Kube
  import opened Profiles
  import opened Protocol
  import opened Safety
  import opened Validity
  import opened ClaimTemplates

  ghost predicate ServedAt(s: State, key: Key, uid: nat, claim: DeviceClaim) {
    var at := Key(key.namespace, RctName(key.name, claim.name));
    at in s.rcts && s.rcts[at] == Rct(Some(uid), claim.exactly)
  }

  /** Every claim of the stored resolved spec has its template, this profile's, asking for just that. */
  ghost predicate StoredServed(s: State, key: Key) {
    key in s.profiles && s.profiles[key].status.resolved.Some? ==>
      forall c :: c in s.profiles[key].status.resolved.value.deviceClaims ==> ServedAt(s, key, s.profiles[key].uid, c)
  }

  // ---- the steps of everyone else ----

  ghost predicate ControlledKept(s: State, t: State, uid: nat) {
    forall at :: at in s.rcts && s.rcts[at].owner == Some(uid) ==> at in t.rcts && t.rcts[at] == s.rcts[at]
  }

  /** The stored spec is the same one, or there is none; what the profile controls is as it was. */
  ghost predicate KeepsStored(s: State, t: State, key: Key) {
    key in t.profiles && t.profiles[key].status.resolved.Some? ==>
      && key in s.profiles && t.profiles[key].uid == s.profiles[key].uid
      && t.profiles[key].status.resolved == s.profiles[key].status.resolved
      && ControlledKept(s, t, s.profiles[key].uid)
  }

  lemma KeptServed(s: State, t: State, key: Key)
    requires StoredServed(s, key) && KeepsStored(s, t, key)
    ensures StoredServed(t, key)
  {
    if key in t.profiles && t.profiles[key].status.resolved.Some? {
      var p := t.profiles[key];
      forall c | c in p.status.resolved.value.deviceClaims ensures ServedAt(t, key, p.uid, c) {
        assert ServedAt(s, key, s.profiles[key].uid, c);
      }
    }
  }

  lemma ProfileKept(s: State, k: Key, p: ProfileObj, key: Key)
    requires k in s.profiles && p.uid == s.profiles[k].uid && p.status.resolved == s.profiles[k].status.resolved
    ensures KeepsStored(s, WithProfile(s, k, p), key)
  {
  }

  lemma DropKept(s: State, t: State, k: Key, key: Key)
    requires Uids(s) && k in s.profiles
    requires t.profiles == s.profiles - {k} && t.rcts == Collected(s.rcts, s.profiles[k].uid)
    ensures KeepsStored(s, t, key)
  {
    if key in s.profiles && key != k {
      assert s.ids.keyOf[s.profiles[key].uid] == key && s.ids.keyOf[s.profiles[k].uid] == k;
    }
  }

  lemma UserKept(s: State, a: Step, key: Key)
    requires Inv(s) && (a.CreateProfile? || a.EditProfile? || a.DeleteProfile? || a.Begin?)
    ensures KeepsStored(s, Act(s, a), key)
  {
    if a.key in s.profiles {
      var p := s.profiles[a.key];
      if a.EditProfile? { ProfileKept(s, a.key, Edited(p, a.newSpec), key); }
      else if a.Begin? { ProfileKept(s, a.key, p.(finalizer := true), key); }
      else if a.DeleteProfile? {
        ProfileKept(s, a.key, Terminating(p), key);
        DropKept(s, Dropped(s, a.key), a.key, key);
      }
    }
  }

  lemma RefusalKept(s: State, stored: ProfileObj, key: Key)
    requires s.worker.Resolving?
    requires ResolveSpec(s.worker.read, s.env.templates, LabelsOf(s, s.worker.key.namespace), s.clock)
      == Refused(stored)
    ensures KeepsStored(s, Patched(s, s.worker.key, s.worker.read.status, stored.status), key)
  {
    RefusedIsInvalid(s.worker.read, s.env.templates, LabelsOf(s, s.worker.key.namespace), s.clock);
    if s.worker.key in s.profiles {
      var p := s.profiles[s.worker.key];
      ProfileKept(s, s.worker.key, p.(status := PatchStatus(p.status, s.worker.read.status, stored.status)), key);
    }
  }

  lemma ResolveKept(s: State, key: Key)
    requires s.worker.Resolving?
    ensures KeepsStored(s, ResolveStep(s), key)
  {
    match ResolveSpec(s.worker.read, s.env.templates, LabelsOf(s, s.worker.key.namespace), s.clock)
    case Aborted =>
    case Refused(stored) => RefusalKept(s, stored, key);
    case Resolved(mem, spec) =>
  }

  /** Ensuring another profile's template: it cannot be one this profile controls. */
  lemma OtherEnsureKept(s: State, key: Key)
    requires Inv(s) && s.worker.Ensuring? && s.worker.done < |s.worker.spec.deviceClaims| && s.worker.key != key
    ensures KeepsStored(s, EnsureStep(s), key)
  {
    assert Current(s, s.worker.key, s.worker.read);
    if key in s.profiles {
      assert s.ids.keyOf[s.profiles[key].uid] == key && s.ids.keyOf[s.worker.read.uid] == s.worker.key;
    }
  }

  lemma OtherFinishKept(s: State, answers: Answers, key: Key)
    requires s.worker.Ensuring? && s.worker.key != key
    ensures KeepsStored(s, FinishStep(s, answers), key)
  {
  }

  lemma DeletionKept(s: State, a: Step, key: Key)
    requires Inv(s) && (a.ListGated? || a.RemoveFinalizer? || a.Abort?)
    ensures KeepsStored(s, Act(s, a), key)
  {
    if a.RemoveFinalizer? {
      if s.worker.Removing? { RemovalKept(s, key); }
    } else {
      AsideKept(s, a, key);
    }
  }

  lemma AsideKept(s: State, a: Step, key: Key)
    requires a.ListGated? || a.Abort?
    ensures KeepsStored(s, Act(s, a), key)
  {
    assert Act(s, a).profiles == s.profiles && Act(s, a).rcts == s.rcts;
  }

  lemma RemovalKept(s: State, key: Key)
    requires Inv(s) && s.worker.Removing?
    ensures KeepsStored(s, RemoveFinalizerStep(s), key)
  {
    var w := s.worker;
    if w.key in s.profiles && s.profiles[w.key] == w.read {
      DropKept(s, Departed(s, w.key, w.listedAt), w.key, key);
    }
  }

  lemma RestKept(s: State, a: Step, key: Key)
    requires
      !(a.CreateProfile? || a.EditProfile? || a.DeleteProfile? || a.Begin? || a.Resolve? || a.Ensure? || a.Finish?
        || a.ListGated? || a.RemoveFinalizer? || a.Abort?)
    ensures KeepsStored(s, Act(s, a), key)
  {
    assert Act(s, a).profiles == s.profiles;
  }

  /** The worker is at work on this profile's templates, or about to store its status. */
  predicate Touches(s: State, a: Step, key: Key) {
    && s.worker.Ensuring? && s.worker.key == key
    && ((a.Ensure? && s.worker.done < |s.worker.spec.deviceClaims|)
        || (a.Finish? && s.worker.done >= |s.worker.spec.deviceClaims|))
  }

  lemma OthersKeepStored(s: State, a: Step, key: Key)
    requires Inv(s) && !Touches(s, a, key)
    ensures KeepsStored(s, Act(s, a), key)
  {
    if a.CreateProfile? || a.EditProfile? || a.DeleteProfile? || a.Begin? { UserKept(s, a, key); }
    else if a.Resolve? { if s.worker.Resolving? { ResolveKept(s, key); } }
    else if a.Ensure? {
      if s.worker.Ensuring? && s.worker.done < |s.worker.spec.deviceClaims| { OtherEnsureKept(s, key); }
    } else if a.Finish? {
      if s.worker.Ensuring? && s.worker.done >= |s.worker.spec.deviceClaims| { OtherFinishKept(s, a.answers, key); }
    } else if a.ListGated? || a.RemoveFinalizer? || a.Abort? { DeletionKept(s, a, key); }
    else { RestKept(s, a, key); }
  }

  // ---- the worker's own two ----

  /** What is being ensured asks for what every stored claim of its name asks. */
  ghost predicate Agrees(s: State, key: Key)
    requires s.worker.Ensuring? && s.worker.done < |s.worker.spec.deviceClaims|
  {
    var claim := s.worker.spec.deviceClaims[s.worker.done];
    key in s.profiles && s.profiles[key].status.resolved.Some? ==>
      forall c :: c in s.profiles[key].status.resolved.value.deviceClaims && c.name == claim.name ==>
        c.exactly == claim.exactly
  }

  lemma EnsureServedIff(s: State, key: Key)
    requires Inv(s) && StoredServed(s, key)
    requires s.worker.Ensuring? && s.worker.key == key && s.worker.done < |s.worker.spec.deviceClaims|
    ensures StoredServed(EnsureStep(s), key) <==> Agrees(s, key)
  {
    var w, t := s.worker, EnsureStep(s);
    assert Current(s, key, w.read);
    var claim := w.spec.deviceClaims[w.done];
    if s.profiles[key].status.resolved.Some? {
      forall c | c in s.profiles[key].status.resolved.value.deviceClaims
        ensures ServedAt(t, key, w.read.uid, c) <==> (c.name == claim.name ==> c.exactly == claim.exactly)
      {
        assert ServedAt(s, key, w.read.uid, c);
        if RctName(key.name, c.name) == RctName(key.name, claim.name) {
          RctNameInjective(key.name, c.name, claim.name);
        }
      }
    }
  }

  lemma FulfilsIff(s: State)
    requires Carries(s) && s.worker.Ensuring? && s.worker.done == |s.worker.spec.deviceClaims|
    ensures (forall i :: 0 <= i < |s.worker.spec.deviceClaims| ==> Fulfils(s, s.worker, i))
      <==> NoClash(s.worker.spec.deviceClaims)
  {
    var claims := s.worker.spec.deviceClaims;
    assert claims[..s.worker.done] == claims;
    LastRequestIff(claims);
    forall i | 0 <= i < |claims|
      ensures Fulfils(s, s.worker, i) <==> LastRequest(claims, claims[i].name) == claims[i].exactly
    {
      assert CarriesAt(s, s.worker, i);
    }
  }

  lemma FinishServedIff(s: State, answers: Answers)
    requires Inv(s) && Carries(s) && s.worker.Ensuring? && s.worker.done >= |s.worker.spec.deviceClaims|
    ensures StoredServed(FinishStep(s, answers), s.worker.key) <==> NoClash(s.worker.spec.deviceClaims)
  {
    var w, t := s.worker, FinishStep(s, answers);
    assert Current(s, w.key, w.read);
    FinishStores(s, answers);
    FulfilsIff(s);
    assert t.rcts == s.rcts && t.profiles[w.key].uid == w.read.uid;
    assert t.profiles[w.key].status.resolved == Some(w.spec);
    forall i | 0 <= i < |w.spec.deviceClaims|
      ensures Fulfils(s, w, i) <==> ServedAt(t, w.key, w.read.uid, w.spec.deviceClaims[i])
    {
    }
    var claims := w.spec.deviceClaims;
    assert forall c :: c in claims ==> exists i :: 0 <= i < |claims| && claims[i] == c;
  }

  // ---- every step, every run ----

  /** The step ensures nothing that differs from the stored spec, and stores no spec that differs in itself. */
  ghost predicate Harmless(s: State, a: Step, key: Key) {
    Touches(s, a, key) ==> if a.Ensure? then Agrees(s, key) else NoClash(s.worker.spec.deviceClaims)
  }

  /**
   While the templates serve the stored spec, a step ends that exactly when it ensures one of its
   names with another request, or stores a spec two of whose claims share a name and differ.
   */
  lemma StoredServedIff(s: State, a: Step, key: Key)
    requires Inv(s) && Carries(s) && StoredServed(s, key)
    ensures StoredServed(Next(s, a), key) <==> Harmless(s, a, key)
  {
    TickServed(Act(s, a), key);
    if Touches(s, a, key) { TouchedServedIff(s, a, key); } else { UntouchedServed(s, a, key); }
  }

  lemma UntouchedServed(s: State, a: Step, key: Key)
    requires Inv(s) && StoredServed(s, key) && !Touches(s, a, key)
    ensures StoredServed(Act(s, a), key)
  {
    OthersKeepStored(s, a, key);
    KeptServed(s, Act(s, a), key);
  }

  lemma TouchedServedIff(s: State, a: Step, key: Key)
    requires Inv(s) && Carries(s) && StoredServed(s, key) && Touches(s, a, key)
    ensures StoredServed(Act(s, a), key) <==> Harmless(s, a, key)
  {
    TouchActs(s, a, key);
    if a.Ensure? { EnsureServedIff(s, key); } else { FinishServedIff(s, a.answers); }
  }

  lemma TouchActs(s: State, a: Step, key: Key)
    requires Touches(s, a, key)
    ensures a.Ensure? ==> Act(s, a) == EnsureStep(s)
    ensures a.Finish? ==> Act(s, a) == FinishStep(s, a.answers)
    ensures a.Ensure? || a.Finish?
  {
  }

  lemma TickServed(t: State, key: Key)
    ensures StoredServed(Tick(t), key) <==> StoredServed(t, key)
  {
    assert forall uid, c :: ServedAt(Tick(t), key, uid, c) <==> ServedAt(t, key, uid, c);
  }

  /** So over every run of harmless steps they serve it throughout, from the empty store on. */
  lemma {:induction false} StoredServedAlong(steps: seq<Step>, key: Key)
    requires forall i :: 0 <= i < |steps| ==> Harmless(Run(INITIAL, steps[..i]), steps[i], key)
    ensures StoredServed(Run(INITIAL, steps), key)
    decreases |steps|
  {
    if steps != [] {
      var n := |steps| - 1;
      forall i | 0 <= i < n ensures Harmless(Run(INITIAL, steps[..n][..i]), steps[..n][i], key) {
        assert steps[..n][..i] == steps[..i];
      }
      StoredServedAlong(steps[..n], key);
      InvRun(steps[..n]);
      CarriesRun(steps[..n]);
      assert Harmless(Run(INITIAL, steps[..n]), steps[n], key);
      StoredServedIff(Run(INITIAL, steps[..n]), steps[n], key);
    }
  }

  /** Once they serve it, they do so for as long as the worker neither ensures nor stores for this profile. */
  lemma {:induction false} ServedUntilTouched(s: State, more: seq<Step>, key: Key)
    requires Inv(s) && Carries(s) && StoredServed(s, key)
    requires forall i :: 0 <= i < |more| ==> !Touches(Run(s, more[..i]), more[i], key)
    ensures Inv(Run(s, more)) && Carries(Run(s, more)) && StoredServed(Run(s, more), key)
    decreases |more|
  {
    if more != [] {
      var n := |more| - 1;
      forall i | 0 <= i < n ensures !Touches(Run(s, more[..n][..i]), more[..n][i], key) {
        assert more[..n][..i] == more[..i];
      }
      ServedUntilTouched(s, more[..n], key);
      assert !Touches(Run(s, more[..n]), more[n], key);
      OneMoreServed(Run(s, more[..n]), more[n], key);
    }
  }

  lemma OneMoreServed(s: State, a: Step, key: Key)
    requires Inv(s) && Carries(s) && StoredServed(s, key) && !Touches(s, a, key)
    ensures Inv(Next(s, a)) && Carries(Next(s, a)) && StoredServed(Next(s, a), key)
  {
    InvNext(s, a);
    CarriesNext(s, a);
    StoredServedIff(s, a, key);
  }
}
