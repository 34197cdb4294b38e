/**
 Runs from the empty store on which a status says something else than is documented, or a claim
 template asks for something else than its claim: the failing sides of the conditions proved over runs.
 */
module Gaps {
  import opened Kube
  import opened Conditions
  import opened Profiles
  import opened Protocol
  import opened Safety
  import opened Reconciles
  import opened Validity
  import opened ClaimTemplates
  import opened StoredTemplates
  import opened Stranding

  // ---- the first steps of every run here ----

  /** A profile just created and protected, and nothing else in the store. */
  function Fresh(spec: ProfileSpec): ProfileObj {
    ProfileObj(0, 1, spec, true, false, NO_STATUS)
  }

  function Started(spec: ProfileSpec): (s: State)
    ensures s.worker.Resolving?
  {
    State(2, Ids(1, map[0 := PROFILE], map[]), Env(map[], map[], map[]), map[PROFILE := Fresh(spec)],
          map[], map[], map[], Resolving(PROFILE, Fresh(spec)))
  }

  function Start(spec: ProfileSpec): seq<Step> {
    [CreateProfile(PROFILE, spec)] + [Begin(PROFILE)]
  }

  lemma StartRuns(spec: ProfileSpec)
    ensures Run(INITIAL, Start(spec)) == Started(spec)
  {
    var s1 := Next(INITIAL, CreateProfile(PROFILE, spec));
    assert s1 == Tick(Created(INITIAL, PROFILE, spec));
    OneStep(INITIAL, CreateProfile(PROFILE, spec));
    RunSnoc(INITIAL, [CreateProfile(PROFILE, spec)], Begin(PROFILE));
    BeginNext(s1, PROFILE);
  }

  // ---- two claims of one name ----

  const TWICE := [DeviceClaim("gpu", Some(DeviceRequest("gpu.example.com", 1))),
                  DeviceClaim("gpu", Some(DeviceRequest("gpu.example.com", 2)))]
  const TWICE_SPEC := ProfileSpec(None, None, [], TWICE, None)

  /** The reconcile up to where its status patch is due. */
  const CLASH := Start(TWICE_SPEC) + [Resolve] + [Ensure] + [Ensure]

  lemma ClashRuns()
    ensures Run(INITIAL, CLASH).worker == Ensuring(PROFILE, Fresh(TWICE_SPEC), Fresh(TWICE_SPEC), TWICE_SPEC, 2)
  {
    StartRuns(TWICE_SPEC);
    var s2 := Started(TWICE_SPEC);
    RunSnoc(INITIAL, Start(TWICE_SPEC), Resolve);
    ResolveNext(s2);
    var s3 := Tick(ResolveStep(s2));
    RunSnoc(INITIAL, Start(TWICE_SPEC) + [Resolve], Ensure);
    EnsureNext(s3);
    var s4 := Tick(EnsureStep(s3));
    RunSnoc(INITIAL, Start(TWICE_SPEC) + [Resolve] + [Ensure], Ensure);
    EnsureNext(s4);
  }

  /** The first claim's template asks for what the second one asks. */
  lemma FirstClaimUnserved()
    ensures var s := Run(INITIAL, CLASH);
      && s.worker.Ensuring? && s.worker.spec.deviceClaims == TWICE && s.worker.done == 2
      && !Fulfils(s, s.worker, 0) && Fulfils(s, s.worker, 1)
  {
    ClashRuns();
    TemplatesServeIff(CLASH);
    var s := Run(INITIAL, CLASH);
    assert CarriesAt(s, s.worker, 0) && CarriesAt(s, s.worker, 1);
    assert TWICE[..2] == TWICE;
    assert LastRequest(TWICE, "gpu") == TWICE[1].exactly;
  }

  // ---- a refusal left from template mode ----

  const BOUND := ProfileSpec(Some("t4"), None, [], [], None)
  const INLINE := ProfileSpec(None, Some(Requirements(map[], map[])), [], [], None)

  /** A missing template is refused, the profile made inline and reconciled, its status patch due. */
  const LEFT_OVER := Start(BOUND) + [Resolve] + [EditProfile(PROFILE, INLINE)] + [Begin(PROFILE)] + [Resolve]

  /** After the refusal. */
  lemma RefusalStored()
    ensures var s := Run(INITIAL, Start(BOUND) + [Resolve]);
      && s.worker.Idle? && PROFILE in s.profiles && !s.profiles[PROFILE].deleting
      && !NotRefused(s.profiles[PROFILE].status.conditions)
  {
    StartRuns(BOUND);
    var s2 := Started(BOUND);
    RunSnoc(INITIAL, Start(BOUND), Resolve);
    ResolveNext(s2);
    var p := Fresh(BOUND);
    var found := WithCondition(p, TEMPLATE_FOUND, False, "NotFound", 2);
    var stored := WithCondition(found, VALID, False, "TemplateNotFound", 2);
    assert ResolveStep(s2) == Patched(s2, PROFILE, p.status, stored.status);
    assert stored.status.conditions[0] == found.status.conditions[0];
    assert Refuses(stored.status.conditions[0]);
  }

  lemma LeftOverRuns()
    ensures var w := Run(INITIAL, LEFT_OVER).worker;
      && w.Ensuring? && w.key == PROFILE && w.spec == INLINE && w.done == 0
      && w.read.spec == INLINE && !NotRefused(w.read.status.conditions)
  {
    RefusalStored();
    var first := Start(BOUND) + [Resolve];
    var s3 := Run(INITIAL, first);
    RunSnoc(INITIAL, first, EditProfile(PROFILE, INLINE));
    var s4 := Tick(WithProfile(s3, PROFILE, Edited(s3.profiles[PROFILE], INLINE)));
    EditNext(s3, PROFILE, INLINE);
    RunSnoc(INITIAL, first + [EditProfile(PROFILE, INLINE)], Begin(PROFILE));
    BeginNext(s4, PROFILE);
    RunSnoc(INITIAL, first + [EditProfile(PROFILE, INLINE)] + [Begin(PROFILE)], Resolve);
    ResolveNext(Tick(Begun(s4, PROFILE)));
  }

  lemma EditNext(s: State, key: Key, spec: ProfileSpec)
    requires key in s.profiles
    ensures Next(s, EditProfile(key, spec)) == Tick(WithProfile(s, key, Edited(s.profiles[key], spec)))
  {
  }

  /** All dependencies exist, for there are none, and the patch stores that the profile is not Valid. */
  lemma LeftOverNotValid(answers: Answers)
    ensures var s := Run(INITIAL, LEFT_OVER);
      && s.worker.Ensuring? && DependenciesExist(s.worker.spec, Existing(s, PROFILE, s.worker.spec.deviceClaims))
      && !ValidAt(Run(INITIAL, LEFT_OVER + [Finish(answers)]), PROFILE)
  {
    LeftOverRuns();
    var s := Run(INITIAL, LEFT_OVER);
    StoredAsDocumentedIff(LEFT_OVER, answers);
    RunSnoc(INITIAL, LEFT_OVER, Finish(answers));
    FinishNext(s, answers);
    assert ValidAt(Tick(FinishStep(s, answers)), PROFILE) == ValidAt(FinishStep(s, answers), PROFILE);
  }

  // ---- a template rewritten under a Valid profile ----

  const MORE := DeviceClaim("gpu", Some(DeviceRequest("gpu.example.com", 2)))
  const MORE_SPEC := ProfileSpec(None, None, [], [MORE], None)

  /** An edit reconciled up to its first template, and then given up. */
  const GIVEN_UP := [EditProfile(PROFILE, MORE_SPEC)] + [Begin(PROFILE)] + [Resolve] + [Ensure] + [Abort]

  /** From any state where the profile controls the template: the status stays, the template changes. */
  lemma GivenUpRewrites(s: State)
    requires s.worker.Idle? && PROFILE in s.profiles && !s.profiles[PROFILE].deleting
    requires Owned(s, "team", RctName("small-gpu", "gpu"), s.profiles[PROFILE].uid)
    ensures var t := Run(s, GIVEN_UP);
      && PROFILE in t.profiles && t.profiles[PROFILE].status == s.profiles[PROFILE].status
      && t.profiles[PROFILE].uid == s.profiles[PROFILE].uid
      && Key("team", RctName("small-gpu", "gpu")) in t.rcts
      && t.rcts[Key("team", RctName("small-gpu", "gpu"))] == Rct(Some(s.profiles[PROFILE].uid), MORE.exactly)
  {
    OneStep(s, EditProfile(PROFILE, MORE_SPEC));
    EditNext(s, PROFILE, MORE_SPEC);
    var s1 := Tick(WithProfile(s, PROFILE, Edited(s.profiles[PROFILE], MORE_SPEC)));
    RunSnoc(s, [EditProfile(PROFILE, MORE_SPEC)], Begin(PROFILE));
    BeginNext(s1, PROFILE);
    var s2 := Tick(Begun(s1, PROFILE));
    RunSnoc(s, [EditProfile(PROFILE, MORE_SPEC)] + [Begin(PROFILE)], Resolve);
    ResolveNext(s2);
    var s3 := Tick(ResolveStep(s2));
    RunSnoc(s, [EditProfile(PROFILE, MORE_SPEC)] + [Begin(PROFILE)] + [Resolve], Ensure);
    EnsureNext(s3);
    var s4 := Tick(EnsureStep(s3));
    RunSnoc(s, [EditProfile(PROFILE, MORE_SPEC)] + [Begin(PROFILE)] + [Resolve] + [Ensure], Abort);
    AbortNext(s4);
  }

  /** The profile is Valid, its resolved spec asks for one device, and its template for two. */
  lemma ValidButRewritten()
    ensures var t := Run(INITIAL, SETUP + GIVEN_UP);
      && ValidAt(t, PROFILE) && t.profiles[PROFILE].status.resolved == Some(SPEC) && !StoredServed(t, PROFILE)
      && Key("team", RctName("small-gpu", "gpu")) in t.rcts
      && t.rcts[Key("team", RctName("small-gpu", "gpu"))].request == MORE.exactly
  {
    SetupFinishes();
    SetupValidates();
    InvRun(SETUP);
    RunConcat(INITIAL, SETUP, GIVEN_UP);
    var s := Run(INITIAL, SETUP);
    SetupOwns(s);
    GivenUpRewrites(s);
    var t := Run(s, GIVEN_UP);
    assert CLAIM in SPEC.deviceClaims;
    assert !ServedAt(t, PROFILE, t.profiles[PROFILE].uid, CLAIM);
  }

  lemma SetupOwns(s: State)
    requires Inv(s) && ValidAt(s, PROFILE) && s.profiles[PROFILE].status.resolved == Some(SPEC)
    ensures Owned(s, "team", RctName("small-gpu", "gpu"), s.profiles[PROFILE].uid)
  {
    assert CLAIM in SPEC.deviceClaims;
    assert SpecOwned(s, PROFILE, SPEC.deviceClaims, s.profiles[PROFILE].uid);
  }
}
