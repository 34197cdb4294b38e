/**
 The race between an admission and a deletion can happen: a run from the empty store whose next
 five steps leave a gated pod with claims on templates that are gone.
 */
module Stranding {
  import opened Kube
  import opened Profiles
  import opened Injection
  import opened Admission
  import opened Protocol
  import opened Safety
  import opened Guarantees
  import opened Reconciles
  import QuotaCheck

  const PROFILE := Key("team", "small-gpu")
  const CLAIM := DeviceClaim("gpu", Some(DeviceRequest("gpu.example.com", 1)))
  const SPEC := ProfileSpec(None, None, [], [CLAIM], None)
  const ANSWERS := Answers(None, {}, None)
  const SUBMITTED :=
    PodObj(map[], map[PROFILE_ANNOTATION := "small-gpu"],
           [Container("main", map[], map[], [], "")], [], [], map[], [], "")

  const SETUP := [CreateProfile(PROFILE, SPEC), Begin(PROFILE), Resolve, Ensure, Finish(ANSWERS)]

  lemma SetupRun()
    ensures Run(INITIAL, SETUP)
      == Next(Next(Next(Next(Next(INITIAL, SETUP[0]), SETUP[1]), SETUP[2]), SETUP[3]), SETUP[4])
  {
    RunSnoc(INITIAL, [], SETUP[0]);
    RunSnoc(INITIAL, SETUP[..1], SETUP[1]);
    RunSnoc(INITIAL, SETUP[..2], SETUP[2]);
    RunSnoc(INITIAL, SETUP[..3], SETUP[3]);
    RunSnoc(INITIAL, SETUP[..4], SETUP[4]);
    assert [] + [SETUP[0]] == SETUP[..1];
    assert SETUP[..1] + [SETUP[1]] == SETUP[..2];
    assert SETUP[..2] + [SETUP[2]] == SETUP[..3];
    assert SETUP[..3] + [SETUP[3]] == SETUP[..4];
    assert SETUP[..4] + [SETUP[4]] == SETUP;
  }

  const FRESH := ProfileObj(0, 1, SPEC, true, false, NO_STATUS)

  /** The store just before the status patch. */
  function Prepared(): (s: State)
    ensures s.worker.Ensuring?
  {
    State(4, Ids(1, map[0 := PROFILE], map[]), Env(map[], map[], map[]), map[PROFILE := FRESH],
          map[Key("team", RctName("small-gpu", "gpu")) := Rct(Some(0), CLAIM.exactly)], map[], map[],
          Ensuring(PROFILE, FRESH, FRESH, SPEC, 1))
  }

  lemma SetupBegins()
    ensures Next(Next(INITIAL, SETUP[0]), SETUP[1])
      == State(2, Ids(1, map[0 := PROFILE], map[]), Env(map[], map[], map[]), map[PROFILE := FRESH],
               map[], map[], map[], Resolving(PROFILE, FRESH))
  {
    var s1 := Next(INITIAL, SETUP[0]);
    assert s1 == Tick(Created(INITIAL, PROFILE, SPEC));
    assert Next(s1, SETUP[1]) == Tick(Begun(s1, PROFILE));
  }

  lemma SetupPrepares()
    ensures Next(Next(Next(Next(INITIAL, SETUP[0]), SETUP[1]), SETUP[2]), SETUP[3]) == Prepared()
  {
    SetupBegins();
    var s2 := Next(Next(INITIAL, SETUP[0]), SETUP[1]);
    var s3 := Next(s2, SETUP[2]);
    assert s3 == Tick(ResolveStep(s2));
    assert Next(s3, SETUP[3]) == Tick(EnsureStep(s3));
  }

  /** The status patch makes the profile Valid. */
  lemma SetupValidates()
    ensures var s := Tick(FinishStep(Prepared(), ANSWERS));
      && PROFILE in s.profiles && IsValid(s.profiles[PROFILE]) && s.profiles[PROFILE].finalizer
      && s.profiles[PROFILE].status.resolved == Some(SPEC) && !s.profiles[PROFILE].deleting
      && s.worker.Idle? && s.pods == map[] && s.pending == map[]
  {
    var s := Prepared();
    var existing := Existing(s, PROFILE, SPEC.deviceClaims);
    assert SPEC.deviceClaims[0].name in existing;
    UpdatedSays(FRESH, SPEC, existing, ANSWERS, s.clock);
    VerdictIff(FRESH, SPEC, existing, ANSWERS, s.clock);
  }

  /** What any such profile does to the pod. */
  lemma SubmittedIsAdmitted(s: State, p: ProfileObj)
    requires IsValid(p) && p.status.resolved == Some(SPEC)
    ensures Respond(SUBMITTED, Some(p), []).Admitted?
    ensures PodClaim("gpu", Some(RctName("small-gpu", "gpu"))) in TicketOf(s, SUBMITTED, p).injected
  {
    var claims := PodClaims("small-gpu", SPEC.deviceClaims);
    assert claims[0] == PodClaim("gpu", Some(RctName("small-gpu", "gpu")));
  }

  lemma ReadyOnceValid(s: State)
    requires s.worker.Idle? && s.pods == map[] && s.pending == map[]
    requires PROFILE in s.profiles && IsValid(s.profiles[PROFILE]) && s.profiles[PROFILE].finalizer
    requires s.profiles[PROFILE].status.resolved == Some(SPEC)
    ensures RaceReady(s, PROFILE, SUBMITTED, [], "late")
  {
    SubmittedIsAdmitted(s, s.profiles[PROFILE]);
    assert GatedPods(s, PROFILE) == {};
  }

  lemma SetupFinishes()
    ensures Run(INITIAL, SETUP) == Tick(FinishStep(Prepared(), ANSWERS))
  {
    SetupRun();
    SetupPrepares();
    FinishNext(Prepared(), ANSWERS);
  }

  /** From the empty store, five steps and then the race strand a pod, its one injected claim dangling. */
  lemma RaceHappens()
    ensures var t := Race(Run(INITIAL, SETUP), PROFILE, SUBMITTED, [], "late");
      var pod := Key("team", "late");
      && pod in t.pods && Gated(t.pods[pod]) && Stranded(t, t.pods[pod]) && PROFILE !in t.profiles
      && t.pods[pod].ticket.value.name == PROFILE.name
      && PodClaim("gpu", Some(RctName("small-gpu", "gpu"))) in t.pods[pod].ticket.value.injected
      && !Owned(t, "team", RctName("small-gpu", "gpu"), t.pods[pod].ticket.value.uid)
  {
    InvRun(SETUP);
    var s := Run(INITIAL, SETUP);
    SetupFinishes();
    SetupValidates();
    ReadyOnceValid(s);
    SubmittedIsAdmitted(s, s.profiles[PROFILE]);
    RaceStrands(s, PROFILE, SUBMITTED, [], "late");
  }

  // ---- a namesake ----

  const HUNGRY := ProfileSpec(None, Some(Requirements(map["cpu" := 1], map[])), [], [], None)
  const FULL := Quota(map["cpu" := 0], map[])

  /** A new profile of the departed one's name, in a namespace whose quota does not admit it. */
  function Renamed(t: State): State {
    Next(Next(t, PutQuotas("team", [FULL])), CreateProfile(PROFILE, HUNGRY))
  }

  lemma RaceKeepsInv(s: State, key: Key, submitted: PodObj, overrides: seq<Override>, name: string)
    requires Inv(s)
    ensures Inv(Race(s, key, submitted, overrides, name))
  {
    var s1 := Next(s, AdmitRead(0, key.namespace, submitted, overrides));
    InvNext(s, AdmitRead(0, key.namespace, submitted, overrides));
    InvNext(s1, DeleteProfile(key));
    InvNext(Next(s1, DeleteProfile(key)), ListGated(key));
    InvNext(Next(Next(s1, DeleteProfile(key)), ListGated(key)), RemoveFinalizer);
    InvNext(Next(Next(Next(s1, DeleteProfile(key)), ListGated(key)), RemoveFinalizer), AdmitCreate(0, name));
  }

  lemma FullRefusesHungry(u: State)
    requires PROFILE in u.profiles && ViewOf(u.profiles[PROFILE]) == QuotaCheck.View(HUNGRY, None)
    requires QuotasOf(u, "team") == [FULL]
    ensures !QuotaCheck.AllAdmit(QuotasOf(u, "team"), ViewOf(u.profiles[PROFILE]))
  {
    var requests := QuotaCheck.Resources(ViewOf(u.profiles[PROFILE])).value.requests;
    assert QuotaCheck.RequestsKey("cpu")[0] != "cpu"[0];
    assert !QuotaCheck.RequestFits(FULL, "cpu", requests["cpu"]);
    assert !QuotaCheck.Admits([FULL][0], ViewOf(u.profiles[PROFILE]));
  }

  lemma RenamedIs(t: State)
    requires PROFILE !in t.profiles
    ensures var u := Renamed(t);
      && u.pods == t.pods && u.ids.departed == t.ids.departed
      && PROFILE in u.profiles && ViewOf(u.profiles[PROFILE]) == QuotaCheck.View(HUNGRY, None)
      && QuotasOf(u, "team") == [FULL]
  {
  }

  /** A raced pod is not always let go by the next placement: a namesake the quota refuses holds it. */
  lemma NamesakeHoldsRacedPod()
    ensures var u := Renamed(Race(Run(INITIAL, SETUP), PROFILE, SUBMITTED, [], "late"));
      var pod := Key("team", "late");
      && pod in u.pods && Gated(u.pods[pod]) && Stranded(u, u.pods[pod])
      && pod in Next(u, Place(pod, false, false)).pods && Gated(Next(u, Place(pod, false, false)).pods[pod])
  {
    var t := Race(Run(INITIAL, SETUP), PROFILE, SUBMITTED, [], "late");
    RaceHappens();
    InvRun(SETUP);
    RaceKeepsInv(Run(INITIAL, SETUP), PROFILE, SUBMITTED, [], "late");
    HeldAfterRenaming(t, Key("team", "late"));
  }

  lemma HeldAfterRenaming(t: State, pod: Key)
    requires Inv(t) && PROFILE !in t.profiles && pod.namespace == "team" && pod in t.pods
    requires Gated(t.pods[pod]) && Stranded(t, t.pods[pod]) && t.pods[pod].ticket.value.name == PROFILE.name
    ensures var u := Renamed(t);
      && pod in u.pods && Gated(u.pods[pod]) && Stranded(u, u.pods[pod])
      && pod in Next(u, Place(pod, false, false)).pods && Gated(Next(u, Place(pod, false, false)).pods[pod])
  {
    InvNext(t, PutQuotas("team", [FULL]));
    InvNext(Next(t, PutQuotas("team", [FULL])), CreateProfile(PROFILE, HUNGRY));
    RenamedIs(t);
    FullRefusesHungry(Renamed(t));
    RacedPodIsReleased(Renamed(t), pod, false);
  }
}
