/**
 What the claim templates hold when a status patch stores its verdict: the requests of the spec that
 patch stores, whatever other steps came in between.
 */
module ClaimTemplates {
  import opened Kube
  import opened Profiles
  import opened Protocol
  import opened Safety
  import opened Validity

  /** The request a name ends with when the claims are ensured in order. */
  function LastRequest(claims: seq<DeviceClaim>, name: string): Option<DeviceRequest> {
    if claims == [] then None
    else if claims[|claims| - 1].name == name then claims[|claims| - 1].exactly
    else LastRequest(claims[..|claims| - 1], name)
  }

  function TemplateOf(w: Worker, i: nat): Key
    requires w.Ensuring? && i < |w.spec.deviceClaims|
  {
    Key(w.key.namespace, RctName(w.key.name, w.spec.deviceClaims[i].name))
  }

  ghost predicate CarriesAt(s: State, w: Worker, i: nat)
    requires w.Ensuring? && i < |w.spec.deviceClaims|
  {
    var claims := w.spec.deviceClaims;
    && TemplateOf(w, i) in s.rcts
    && (w.done <= |claims| ==>
          s.rcts[TemplateOf(w, i)] == Rct(Some(w.read.uid), LastRequest(claims[..w.done], claims[i].name)))
  }

  /** The templates ensured so far are this profile's and carry its requests. */
  ghost predicate Carries(s: State) {
    s.worker.Ensuring? ==>
      forall i :: 0 <= i < s.worker.done && i < |s.worker.spec.deviceClaims| ==> CarriesAt(s, s.worker, i)
  }

  lemma RctNameInjective(profile: string, a: string, b: string)
    requires RctName(profile, a) == RctName(profile, b)
    ensures a == b
  {
    var prefix := "wto-" + profile + "-";
    assert RctName(profile, a) == prefix + a && RctName(profile, b) == prefix + b;
    assert RctName(profile, a)[|prefix|..] == a && RctName(profile, b)[|prefix|..] == b;
  }

  /** One more template ensured: its own request; the others keep theirs. */
  lemma EnsureCarries(s: State)
    requires Inv(s) && Carries(s) && s.worker.Ensuring? && s.worker.done < |s.worker.spec.deviceClaims|
    ensures Carries(EnsureStep(s))
  {
    var w, t := s.worker, EnsureStep(s);
    if t.worker.Ensuring? {
      EnsureContinues(s);
      var claims, done := w.spec.deviceClaims, w.done;
      assert claims[..done + 1][..done] == claims[..done] && claims[..done + 1][done] == claims[done];
      forall i | 0 <= i < done + 1 ensures CarriesAt(t, t.worker, i) {
        if claims[i].name != claims[done].name {
          assert CarriesAt(s, w, i);
          if TemplateOf(w, i) == TemplateOf(w, done) {
            RctNameInjective(w.key.name, claims[i].name, claims[done].name);
          }
        }
      }
    }
  }

  lemma EditsKeepTemplates(s: State, a: Step)
    requires a.CreateProfile? || a.EditProfile?
    ensures Act(s, a).rcts == s.rcts
  {
  }

  lemma BusyWorkerStays(s: State, a: Step)
    requires s.worker.Ensuring? && (a.Begin? || a.ListGated? || a.RemoveFinalizer? || a.Resolve?)
    ensures Act(s, a) == s
  {
  }

  /** No other step touches a template the profile in the worker's hands controls. */
  lemma ControlledStays(s: State, a: Step, at: Key)
    requires Inv(s) && s.worker.Ensuring? && !a.Ensure? && at in s.rcts && s.rcts[at].owner == Some(s.worker.read.uid)
    requires Act(s, a).worker.Ensuring?
    ensures at in Act(s, a).rcts && Act(s, a).rcts[at] == s.rcts[at]
  {
    if a.CreateProfile? || a.EditProfile? || a.DeleteProfile? { UsersKeepControlled(s, a, at); }
    else { RestKeepsControlled(s, a, at); }
  }

  lemma UsersKeepControlled(s: State, a: Step, at: Key)
    requires Inv(s) && s.worker.Ensuring? && at in s.rcts && s.rcts[at].owner == Some(s.worker.read.uid)
    requires a.CreateProfile? || a.EditProfile? || a.DeleteProfile?
    ensures at in Act(s, a).rcts && Act(s, a).rcts[at] == s.rcts[at]
  {
    if a.DeleteProfile? { DeleteKeepsControlled(s, a.key, at); } else { EditsKeepTemplates(s, a); }
  }

  lemma RestKeepsControlled(s: State, a: Step, at: Key)
    requires s.worker.Ensuring? && !a.Ensure? && at in s.rcts && s.rcts[at].owner.Some? && Act(s, a).worker.Ensuring?
    requires !(a.CreateProfile? || a.EditProfile? || a.DeleteProfile?)
    ensures at in Act(s, a).rcts && Act(s, a).rcts[at] == s.rcts[at]
  {
    if a.Begin? || a.ListGated? || a.RemoveFinalizer? || a.Resolve? { BusyWorkerStays(s, a); }
    else if a.Finish? { FinishIdles(s, a.answers); }
    else if !a.Abort? { OthersKeepControlled(s, a, at); }
  }

  lemma DeleteKeepsControlled(s: State, key: Key, at: Key)
    requires Inv(s) && s.worker.Ensuring? && at in s.rcts && s.rcts[at].owner == Some(s.worker.read.uid)
    ensures var t := Act(s, DeleteProfile(key)); at in t.rcts && t.rcts[at] == s.rcts[at]
  {
    assert Current(s, s.worker.key, s.worker.read);
    if key in s.profiles && !s.profiles[key].finalizer {
      assert s.profiles[key].uid != s.worker.read.uid;
      assert at in Collected(s.rcts, s.profiles[key].uid);
    }
  }

  lemma OthersKeepControlled(s: State, a: Step, at: Key)
    requires
      !(a.CreateProfile? || a.EditProfile? || a.DeleteProfile? || a.Begin? || a.Resolve? || a.Ensure? || a.Finish?
        || a.ListGated? || a.RemoveFinalizer? || a.Abort?)
    requires at in s.rcts && s.rcts[at].owner.Some?
    ensures at in Act(s, a).rcts && Act(s, a).rcts[at] == s.rcts[at]
  {
  }

  lemma OtherCarries(s: State, a: Step)
    requires Inv(s) && Carries(s) && !a.Ensure? && !(a.Resolve? && s.worker.Resolving?) && Act(s, a).worker.Ensuring?
    ensures Carries(Act(s, a))
  {
    var t := Act(s, a);
    assert Next(s, a).worker == t.worker;
    EnsuringNext(s, a);
    WorkerStays(s, a);
    forall i | 0 <= i < t.worker.done && i < |t.worker.spec.deviceClaims| ensures CarriesAt(t, t.worker, i) {
      assert CarriesAt(s, s.worker, i);
      ControlledStays(s, a, TemplateOf(s.worker, i));
    }
  }

  lemma WorkerStays(s: State, a: Step)
    requires !a.Ensure? && !(a.Resolve? && s.worker.Resolving?) && Act(s, a).worker.Ensuring?
    ensures Act(s, a).worker == s.worker
  {
    if a.Finish? { if s.worker.Ensuring? { FinishIdles(s, a.answers); } }
    else if a.CreateProfile? || a.EditProfile? || a.DeleteProfile?
      || a.Begin? || a.ListGated? || a.RemoveFinalizer? || a.Abort? {
      ProfileStepContinues(s, a);
    } else if !a.Resolve? { OtherStepContinues(s, a); }
  }

  lemma CarriesNext(s: State, a: Step)
    requires Inv(s) && Carries(s)
    ensures Carries(Next(s, a))
  {
    var t := Act(s, a);
    assert Carries(t) by {
      if t.worker.Ensuring? {
        if a.Ensure? {
          if s.worker.Ensuring? && s.worker.done < |s.worker.spec.deviceClaims| { EnsureCarries(s); }
        } else if a.Resolve? && s.worker.Resolving? {
          ResolvedFromStart(s);
        } else {
          OtherCarries(s, a);
        }
      }
    }
    TickCarries(t);
  }

  lemma TickCarries(t: State)
    requires Carries(t)
    ensures Carries(Tick(t))
  {
    if t.worker.Ensuring? {
      forall i | 0 <= i < t.worker.done && i < |t.worker.spec.deviceClaims| ensures CarriesAt(Tick(t), t.worker, i) {
        assert CarriesAt(t, t.worker, i);
      }
    }
  }

  lemma ResolvedFromStart(s: State)
    requires s.worker.Resolving? && ResolveStep(s).worker.Ensuring?
    ensures ResolveStep(s).worker.done == 0
  {
    match ResolveSpec(s.worker.read, s.env.templates, LabelsOf(s, s.worker.key.namespace), s.clock)
    case Aborted =>
    case Refused(stored) =>
    case Resolved(mem, spec) =>
  }

  lemma {:induction false} CarriesRun(steps: seq<Step>)
    ensures Carries(Run(INITIAL, steps))
    decreases |steps|
  {
    if steps != [] {
      InvRun(steps[..|steps| - 1]);
      CarriesRun(steps[..|steps| - 1]);
      CarriesNext(Run(INITIAL, steps[..|steps| - 1]), steps[|steps| - 1]);
    }
  }

  /** Claims of one name ask for the same. */
  predicate NoClash(claims: seq<DeviceClaim>) {
    forall i, j :: 0 <= i < j < |claims| && claims[i].name == claims[j].name ==> claims[i].exactly == claims[j].exactly
  }

  predicate Decides(claims: seq<DeviceClaim>, i: nat, j: nat)
    requires i < |claims| && j < |claims|
  {
    claims[j].name == claims[i].name && LastRequest(claims, claims[i].name) == claims[j].exactly
  }

  /** The last claim of the name decides. */
  lemma {:induction false} LastRequestIs(claims: seq<DeviceClaim>, i: nat)
    requires i < |claims|
    ensures exists j :: i <= j < |claims| && Decides(claims, i, j)
  {
    var n := |claims| - 1;
    if claims[n].name != claims[i].name {
      LastRequestIs(claims[..n], i);
      var j :| i <= j < n && Decides(claims[..n], i, j);
      assert Decides(claims, i, j);
    } else {
      assert Decides(claims, i, n);
    }
  }

  lemma LastRequestIff(claims: seq<DeviceClaim>)
    ensures (forall i :: 0 <= i < |claims| ==> LastRequest(claims, claims[i].name) == claims[i].exactly)
      <==> NoClash(claims)
  {
    if NoClash(claims) {
      forall i | 0 <= i < |claims| ensures LastRequest(claims, claims[i].name) == claims[i].exactly {
        LastRequestIs(claims, i);
      }
    }
  }

  /** The template of claim i is this profile's and asks for what the claim asks. */
  ghost predicate Fulfils(s: State, w: Worker, i: nat)
    requires w.Ensuring? && i < |w.spec.deviceClaims|
  {
    TemplateOf(w, i) in s.rcts && s.rcts[TemplateOf(w, i)] == Rct(Some(w.read.uid), w.spec.deviceClaims[i].exactly)
  }

  /**
   Over every run: when the status patch is due, every claim has its template, controlled by the
   profile; and each asks for what its claim asks exactly when no two claims of one name differ.
   */
  lemma TemplatesServeIff(steps: seq<Step>)
    requires var w := Run(INITIAL, steps).worker; w.Ensuring? && w.done == |w.spec.deviceClaims|
    ensures var s := Run(INITIAL, steps);
      var w := s.worker;
      && (forall i :: 0 <= i < |w.spec.deviceClaims| ==> CarriesAt(s, w, i))
      && ((forall i :: 0 <= i < |w.spec.deviceClaims| ==> Fulfils(s, w, i)) <==> NoClash(w.spec.deviceClaims))
  {
    CarriesRun(steps);
    var s := Run(INITIAL, steps);
    var w := s.worker;
    var claims := w.spec.deviceClaims;
    assert claims[..w.done] == claims;
    LastRequestIff(claims);
    forall i | 0 <= i < |claims|
      ensures CarriesAt(s, w, i) && (Fulfils(s, w, i) <==> LastRequest(claims, claims[i].name) == claims[i].exactly)
    {
      assert CarriesAt(s, w, i);
    }
  }
}
