# WTO, verified: gated pods, profiles and propagation

WTO admits pods that name a WorkloadProfile, injects resources and device claims into them, and
holds them behind a scheduling gate until it has written their placement. This project models
that machinery in Dafny and proves what it guarantees.

`dafny verify dfyconfig.toml` checks everything.

## What is modelled

- **The scheduling-gate protocol** (`Protocol`): one object store with profiles, claim templates
  and their controlling profiles, templates, namespaces, quotas and pods; the profile controller's
  worker; pending admissions. A step is a read of a component or one write of it with the reads
  it rests on, so any other step may come in between. `Handle` is a read and a create,
  `handleDeletion` a list and an update,
  `Reconcile` the finalizer write, the resolve, one claim template at a time and one status patch.
  `Safety` holds the invariant, `Guarantees`, `History`, `Validity` and `Progress` what follows from
  it over whole runs. A resolve, a status update and a placement read at the
  instant of their one write. `Stranding` has the concrete runs that show where a guarantee ends.
- **The controllers in their own form** (`Controllers`, `Admission`, `Injection`, `Gates`,
  `Placement`, `QuotaCheck`, `Conditions`): methods with loops over objects in memory, each shown
  to compute the function the protocol uses. `Reconciles` closes the gap between a whole reconcile and
  the protocol's steps: it is a run of them, for every combination of failing requests, so the
  methods keep the invariant.
- **What each step writes, and nothing else** (`Frames`), field by field, and **what a whole reconcile
  comes to** (`Outcomes`), over the fields of the store it starts from.
- **What the claim templates hold** when a verdict is stored (`ClaimTemplates`) and afterwards
  (`StoredTemplates`), over every run. `Gaps` has the concrete runs on the failing sides.
- **The placement patch on the wire** (`MergePatch`, `PodPatch`): JSON merge patch as in section 2
  of RFC 7396, and a placement patch computed from a stale copy.
- **Annotation propagation** (`NestedFields`, `Propagation`) over arbitrary nested objects, and the
  **watch registry** (`Registry`) with the controller that drives it.

The history a stored pod carries in the model (what was submitted, under which profile it was
admitted, why its gate went) is read by no controller; it is what the properties speak about.

## What is assumed of the surroundings

- Reads are fresh, except in `PodPatch`, where the copy is stale.
- Pods enter through the webhook. Afterwards users change labels, other controllers remove their
  own gates, anyone deletes pods; annotations and the remaining spec fields stay.
- WTO's finalizer is the only one on a profile and nobody strips it by hand. Writing and removing it
  is guarded by the version that was read, so a write that finds the object changed does nothing.
- Claim templates a profile controls are collected with it and deleted by no one else. Users may
  create and delete templates no profile controls. Taking control fails when another profile has it.
  The request of a template in the store can be rewritten by who controls it; a server that refuses to
  change one fails that request, and the reconcile ends as on any failed request.
- The profile controller runs one worker. No object's name is empty.
- Server-side failures are steps of their own: an aborted reconcile, a patch that fails, a quota
  list that fails, a pod create that is refused.
- `NestedStringMap` and `SetNestedStringMap` read anything but a string map as absent and refuse to
  write through a value that is no map.

## Where the code and its documentation differ

The model follows the code; each difference is a lemma.

- The quota check holds the spec's own device claims against the quota, not the resolved ones, one
  claim at a time, and skips them when no resources resolve: `QuotaCheck.DeviceCheckAsDocumentedIff`
  says when that agrees with checking what is injected; `QuotaCheck.DeviceSumsIff` when one
  by one is the same as summed. It looks at one entry's requests only: `PodTotals.DefaultsCoverPodIff`
  says when that covers the pod. Each has its concrete gap beside it.
- The template-generation annotation is never written: both generations are set before the base of
  the status patch is copied (`Validity.GenerationsNeverStored`).
- A refusal left from template mode makes an inline profile never Valid
  (`Profiles.ValidAsDocumentedIff`, `Profiles.InlineKeepsRefusal`, `Gaps.LeftOverNotValid`). A claim
  template that cannot be read counts as existing, which never matters in a run
  (`Validity.StoredAsDocumentedIff`). Device classes do not count, though docs/known-issues.md:177 has
  a missing one make the profile invalid (`Profiles.ValidWithClassesIff`).
- The event for a missing profile says device claims remain intact. The templates they name were
  controlled by the profile and went with it (`Guarantees.DepartedOwnsNothing`, `Stranding.RaceHappens`).
- All device claims go to one container, and which one depends on the order of the entries
  (`Injection.TargetOrderBlindIff`).
- Two device claims of one name share a template, and the last one's request is in it
  (`ClaimTemplates.TemplatesServeIff`, `Gaps.FirstClaimUnserved`).
- A template can stop carrying what the stored spec asks for while the profile is Valid
  (`StoredTemplates.StoredServedIff`, `Gaps.ValidButRewritten`).
- A workload type whose kind leaves the cluster stays registered, and a lost status write reports an
  older kind (`Registry.SyncIff`, `Registry.LostStatusIff`).
- `DeviceClassAvailable` means that some claim's class exists, not all, and a list that fails is
  stored as False (`Profiles.DeviceClassAsDocumentedIff`, `Profiles.OneClassSaidIff`).

## Model

| member | source | states |
|---|---|---|
| `Safety.InvNext` | internal/controller/profile_controller.go:51-78 | every single step of users, webhook, profile worker and placement controller keeps the protocol invariant: finalizer before resolved spec, claim templates controlled by the profile before `Valid`, what the worker read still current, every ticket good or its profile departed after the read |
| `Safety.InvRun` | internal/controller/profile_controller.go:51-78 | the invariant holds in every state reachable from the empty store, over all interleavings |
| `Guarantees.GatedPodIsServed` | internal/webhook/pod_webhook.go:64-85 | with admission+create and deletion atomic: in every reachable state a gated admitted pod has its own profile in the store, finalizer on, and every injected claim names a template in its namespace controlled by that very profile, whatever other profiles' `wto-<profile>-<claim>` names collide |
| `History.GatedClaimsResolve` | internal/webhook/pod_webhook.go:152-159 | the same on the stored pod itself: whatever was added to its claims names templates controlled by the protected profile its annotation names |
| `Guarantees.PlayIsRun` | internal/controller/profile_controller.go:186-219 | every run with those operations atomic is a run of the split steps, so what holds over all interleavings holds over it |
| `Guarantees.PlayInv` | internal/controller/profile_controller.go:186-219 | in those runs the invariant holds and no create or finalizer removal is separated from its read |
| `Guarantees.GatedPodIsServedOrRaced` | internal/controller/profile_controller.go:195-215 | with the operations split, in every reachable state a gated admitted pod is served as above, or its profile departed, its read came before the finalizer removal and its create after the list that saw no gated pod; no third case |
| `Guarantees.DepartedOwnsNothing` | internal/controller/profile_controller.go:249-252 | in every reachable state a departed profile is not in the store and controls no claim template: what its pods were injected with is gone |
| `Guarantees.RaceStrands` | internal/controller/profile_controller.go:195-215 | from every state with a protected profile without gated pods and a pod it would admit, read, deletion, create leave a gated pod whose profile is gone and whose claims name nothing it controls |
| `Guarantees.RacedPodIsReleased` | internal/controller/placement_controller.go:48-73 | a successful placement patch lets a gated pod go, placement untouched, when its profile name is absent; when a profile has that name, exactly when the quota list failed or every quota admits that profile |
| `Stranding.RaceHappens` | internal/controller/profile_controller.go:195-215 | the race from the empty store on a concrete run: a gated pod whose one injected claim names a template that is gone |
| `Stranding.NamesakeHoldsRacedPod` | internal/controller/placement_controller.go:69-73 | the concrete case in which a raced pod is not let go by the next placement: a new profile of the same name that the quota refuses |
| `Progress.PlaceLowers` | internal/controller/placement_controller.go:48-99 | with a terminating profile that the quotas admit, or gone, each placement of one of its gated pods lowers gated pods + 1 by exactly one |
| `Progress.GatedPodsRiseOnlyByCreate` | internal/controller/profile_controller.go:221-237 | in no step of anyone but the create of an admitted pod does any profile gain a gated pod |
| `Progress.PlacingDrains` | internal/controller/placement_controller.go:97-101 | any order that places each gated pod once lets all of them go |
| `Progress.DeletionFinishes` | internal/controller/profile_controller.go:195-215 | one handleDeletion without gated pods removes the finalizer: the profile and all it controlled are gone, no pod touched |
| `Progress.DeletionCompletes` | internal/controller/profile_controller.go:195-215 | from every state of the invariant with a terminating profile, whatever the worker is doing: a run of the worker's own steps and of placements, none of them a failure, lets every gated pod go in any order and removes the profile and what it controlled; after the worker has settled, placements and deletion are as many as the measure |
| `Progress.TerminatingProfileGoes` | internal/controller/profile_controller.go:47-49 | the same from every reachable state, with no other premise than quotas that admit the profile once the worker has settled |
| `Progress.EveryRunDrains` | internal/controller/placement_controller.go:48-99 | over every run without admissions, whatever else happens in it: once each pod gated for the profile has had a successful placement while the quotas admitted the profile, or it was gone, none is gated for it |
| `History.ToldRun` | internal/controller/placement_controller.go:75-101 | over every run each stored pod's gates, selector, tolerations and claims are the function of what was submitted and of the one step that let it go |
| `History.PlacedExactlyOnce` | internal/controller/placement_controller.go:36-101 | placement exactly once over every run with any failed and repeated patches: submitted tolerations and selector while gated or when ungated for a missing profile; otherwise a step of the run, which the lemma returns, let the pod go, and it carries once, field by field, the Node placement the profile it names had resolved to at that step, or its own |
| `History.PlacementWrites` | internal/controller/placement_controller.go:36-101 | one placement of a gated pod over its profile's fields: without a profile of the name only WTO's gate goes; with one the quotas admit, or that could not be checked, its resolved placement, else its own, overrides the selector and appends all tolerations; otherwise nothing; and nothing else in the store moves |
| `History.GatesKeepOrder` | internal/controller/placement_controller.go:267-275 | over every run the other gates are the submitted ones in order less those their owners removed, and WTO's gate is there exactly while no placement let the pod go |
| `History.GateLostOnlyByPlacement` | internal/controller/placement_controller.go:36-101 | a stored pod loses WTO's gate in no step but its own placement with a successful patch, after the quota check passed (or its list failed) or with the profile missing |
| `History.LetGoByPlacement` | internal/controller/placement_controller.go:36-101 | over every run, a managed pod without WTO's gate has such a step in its past, which the lemma returns: the profile was missing at it, or the quota check passed and the placement on record is that profile's |
| `Validity.ValidOnlyByPatch` | internal/controller/profile_controller.go:307-351 | in every reachable state `Valid=True` appears in a step if and only if the step is a status patch with all claim templates ensured, queue named and verdict positive, and an earlier step of the run read off the store that the profile is inline, or that its template is there and admits the namespace |
| `Validity.WasResolved` | internal/controller/profile_controller.go:83-162 | what the worker ensures in any reachable state goes back to such a resolve of the run, which the lemma returns, and is the spec it gave |
| `Validity.ValidHasEvidence` | internal/controller/profile_controller.go:58-78 | every stored `Valid=True` in a reachable state goes back to such a patch and such a resolve before it, both returned |
| `Validity.StoredAsDocumentedIff` | internal/controller/profile_controller.go:331-346 | over every run, a completing status patch stores Valid=True just when queue and templates are there, if and only if the profile uses a template, or carried no refusal, or its queue is unnamed; read errors never matter |
| `Gaps.LeftOverNotValid` | internal/controller/profile_controller.go:93-104 | the concrete run of a refusal left from template mode: the profile is inline, all dependencies exist, and the patch stores that it is not Valid |
| `ClaimTemplates.TemplatesServeIff` | internal/controller/profile_controller.go:239-272 | over every run, when the status patch is due every claim has its template, controlled by the profile, with the last request of its name; each asks for what its own claim asks if and only if no two claims of one name differ |
| `Gaps.FirstClaimUnserved` | internal/controller/profile_controller.go:68-73 | the concrete run of two claims of one name: the patch is due and the first claim's template asks for what the second asks |
| `StoredTemplates.StoredServedIff` | internal/controller/profile_controller.go:239-272 | while each claim of the stored resolved spec has its template with its request, a step of anyone ends that if and only if it ensures one of those names with another request, or stores a spec two of whose claims share a name and differ |
| `StoredTemplates.StoredServedAlong` | internal/controller/profile_controller.go:239-272 | over every run without such a step the templates serve the stored spec throughout |
| `StoredTemplates.ServedUntilTouched` | internal/controller/profile_controller.go:239-272 | from any state in which they do, they do for as long as the worker neither ensures nor stores for this profile, whatever others do |
| `Gaps.ValidButRewritten` | internal/controller/profile_controller.go:68-78 | the concrete run of an edit given up after its first template: Valid=True, the resolved spec asks for one device and its template for two |
| `Validity.StaysInvalid` | internal/controller/profile_controller.go:340-351 | from a state in which the profile is not Valid it stays so until such a patch, over every continuation |
| `Validity.NoClaimsAfterRefusal` | internal/webhook/pod_webhook.go:77-82 | after a stored missing-template or disallowed-namespace result no Handle call injects a device claim for the profile until such a patch |
| `Validity.RefusalInvalidates` | internal/controller/profile_controller.go:94-132 | a refused resolve leaves a stored Valid that is not True |
| `Validity.GenerationsNeverStored` | internal/controller/profile_controller.go:148-152 | in every reachable state templateGeneration and resolvedGeneration are absent, so no admitted pod gets the template-generation annotation the documentation promises |
| `Validity.ListsAreMapsAlways` | internal/controller/profile_controller.go:498-520 | in every reachable state each profile's condition list has one entry per type |
| `Profiles.RefusedIsInvalid` | internal/controller/profile_controller.go:93-132 | a refusal changes conditions only and stores a Valid that is not True |
| `Profiles.ResolvedKeeps` | internal/controller/profile_controller.go:83-162 | a resolve succeeds if and only if the profile is inline or its template is there and admits the namespace; inline it gives the profile's own spec, else defaults, containers and device claims of the template, the placement of the profile and no template reference; stored verdict and resolved spec stay |
| `Profiles.RefusedSays` | internal/controller/profile_controller.go:93-132 | a resolve is refused exactly when the template is missing or the namespace does not match; which conditions that sets, to what, for what reason and generation, and that no other moves |
| `Profiles.ResolvedSays` | internal/controller/profile_controller.go:107-159 | what a successful resolve sets in memory, condition by condition, and that an inline profile is left as it is |
| `Kube.SelectorLaws` | internal/controller/profile_controller.go:116-121 | the selector operators against each other, absent labels included, and a selector as the conjunction of its requirements |
| `Profiles.VerdictIff` | internal/controller/profile_controller.go:307-338 | the verdict computed after the other conditions were rewritten is: queue named, no claim template found missing, no refusal among the conditions before |
| `Profiles.ValidIff` | internal/controller/profile_controller.go:307-338 | the stored verdict over the fields: no queue placement without a queue name, no claim template found missing, no TemplateFound or NamespaceAllowed entry that is False anywhere in the list |
| `Profiles.UpdatedConditions` | internal/controller/profile_controller.go:292-346 | every other condition after an update, its status, reason and generation, and that the remaining types are untouched |
| `Profiles.UpdatedSays` | internal/controller/profile_controller.go:274-346 | the status patched says Valid=True exactly by that verdict and carries the resolved spec |
| `Profiles.ValidAsDocumentedIff` | internal/controller/profile_controller.go:331-346 | the documented meaning of Valid (queue named, every claim template exists) is what is stored for every answer of the API server once the templates are ensured, if and only if the profile uses a template, or carries no refusal, or its queue is unnamed and it can never be Valid |
| `Profiles.DeviceClassAsDocumentedIff` | internal/controller/profile_controller.go:279-305 | when the device classes could be listed, the stored DeviceClassAvailable tells for every set of them whether all claimed classes exist, if and only if some claim names a class and all name the same |
| `Profiles.OneClassSaidIff` | internal/controller/profile_controller.go:279-305 | with one class and any honest answer it tells that if and only if the list succeeded or the class is indeed not there: a failed list is stored as False |
| `Profiles.FailedListMisleads` | internal/controller/profile_controller.go:279-305 | so for no profile with device claims does it tell that for every honest answer |
| `Profiles.ValidWithClassesIff` | internal/controller/profile_controller.go:307-346 | the verdict does not look at device classes: counting them among the dependencies it is right for every honest answer if and only if no claim names a class and no refusal is left, or the queue is unnamed |
| `Profiles.DeviceClassSaid` | internal/controller/profile_controller.go:279-305 | what the condition says after the whole update: some claimed class is in the list |
| `Profiles.HalfTheClasses` | internal/controller/profile_controller.go:282-289 | the concrete gap: two claims, one class missing, the condition stored True |
| `Profiles.InlineKeepsRefusal` | internal/controller/profile_controller.go:84-87 | reconciling an inline profile never clears a refusal left from template mode: not Valid, and the refusal still there |
| `Profiles.UpdateKeepsDistinct` | internal/controller/profile_controller.go:274-346 | the status update keeps the condition list a map |
| `Controllers.ReconcilePod` | internal/controller/placement_controller.go:28-108 | the placement reconcile over the pod held in memory does the protocol's placement step when a patch is sent and otherwise nothing, a failed read of the profile included, and keeps the invariant |
| `Controllers.ResolveProfile` | internal/controller/profile_controller.go:83-162 | the imperative resolveSpec, conditions written in place, equals the specification on every path, reads of template and namespace that fail included |
| `Controllers.AnyClassFound` | internal/controller/profile_controller.go:282-289 | the nested search returns whether some claim's device class exists: any, not all |
| `Controllers.Structural` | internal/controller/profile_controller.go:307-338 | the valid flag after the queue check, the claims loop and the scan over all conditions |
| `Controllers.UpdateStatus` | internal/controller/profile_controller.go:274-351 | the imperative updateStatus leaves the in-memory profile of the specification |
| `Controllers.FindGatedPods` | internal/controller/profile_controller.go:221-237 | the scan returns exactly the gated pods of the profile in its namespace |
| `Controllers.HandleDeletion` | internal/controller/profile_controller.go:186-219 | handleDeletion removes the finalizer, and with it the profile and what it controls, exactly when no gated pod is listed and neither request fails |
| `Controllers.EnsureResourceClaimTemplate` | internal/controller/profile_controller.go:239-272 | fails exactly when the request fails or another profile controls the name, else the template is controlled by this profile with this request; nothing else moves |
| `Controllers.ReconcileProfile` | internal/controller/profile_controller.go:37-81 | one whole Reconcile of a profile, whatever requests fail on the way: finalizer, resolve, templates in order until one fails, status patch; it keeps the invariant |
| `Frames.BeginWrites` | internal/controller/profile_controller.go:51-56 | the first step writes the finalizer and nothing else |
| `Frames.ResolveWrites` | internal/controller/profile_controller.go:94-131 | the resolve writes the conditions of a refusal and nothing else |
| `Frames.EnsureWrites` | internal/controller/profile_controller.go:239-272 | ensuring writes the one template of that profile and claim name, unless another profile controls it, and nothing else |
| `Frames.FinishWrites` | internal/controller/profile_controller.go:275-351 | the status patch writes the resolved spec, and the conditions of the update exactly when they differ from what resolving had set in memory, the base the patch is taken from |
| `Frames.RemovalWrites` | internal/controller/profile_controller.go:212-215 | the last step removes the profile and exactly what it controlled, unless the profile changed since it was read |
| `Frames.ResolveOutcome` | internal/controller/profile_controller.go:83-162 | after the resolve the worker goes on to the claims with the spec the template or the profile says, or stops, as the template and the namespace's labels have it |
| `Outcomes.ReconcileResolves` | internal/controller/profile_controller.go:37-81 | a whole reconcile whose spec resolves and whose template names are free: finalizer on, resolved spec stored, every claim's template controlled by the profile, and Valid is True exactly when a named queue is not empty and no refusal is left over |
| `Outcomes.ReconcileStopsAtTaken` | internal/controller/profile_controller.go:68-73 | when one of the templates is another profile's, the reconcile adds the finalizer at most and leaves the status |
| `Outcomes.ReconcileRefuses` | internal/controller/profile_controller.go:59-61 | when the spec does not resolve, the conditions are those of the refusal, Valid is not True, and the resolved spec and all templates stay |
| `Outcomes.ReconcileFails` | internal/controller/profile_controller.go:47-81 | a failed template read or status patch leaves the profile as it was but for the finalizer |
| `Outcomes.ReconcileDeletes` | internal/controller/profile_controller.go:186-219 | a whole reconcile of a terminating profile removes it and exactly the templates it controlled iff no pod of its namespace that names it is gated; else nothing changes |
| `Reconciles.UndisturbedIsRun` | internal/controller/profile_controller.go:37-81 | that whole Reconcile, the clock moving with each step, is a run of the worker's own steps, without an abort unless a request fails |
| `Reconciles.UndisturbedKeepsInv` | internal/controller/profile_controller.go:37-81 | so it keeps the invariant of all interleavings and leaves the worker idle |
| `Conditions.ConditionList.SetCondition` | internal/controller/profile_controller.go:498-520 | overwrite of the first entry of the type in place, else append; transition time only on a status change |
| `Conditions.ConditionList.RemoveCondition` | internal/controller/profile_controller.go:562-570 | the entries of other types, in order |
| `Conditions.ConditionList.SetConditionOnChange` | internal/controller/workloadtype_controller.go:108-139 | no write at all when the status is the same |
| `Conditions.FindSet` | internal/controller/profile_controller.go:498-520 | what readers find after a set: the new value for its type with the transition time moved only on change, every other type as before |
| `Conditions.FindRemove` | internal/controller/profile_controller.go:562-570 | readers find nothing of the removed type and every other type as before |
| `Conditions.FindFirst` | internal/webhook/pod_webhook.go:257-264 | the first entry of the type decides |
| `Conditions.OnChangeMeans` | internal/controller/workloadtype_controller.go:114-138 | nothing is written when the status is the same, else a whole new entry; other types stay |
| `Conditions.SetKeepsDistinct` | internal/controller/profile_controller.go:498-520 | setting keeps one entry per type |
| `Conditions.RemoveKeepsDistinct` | internal/controller/profile_controller.go:562-570 | removing keeps one entry per type and drops exactly that type |
| `Conditions.IsConditionTrue` | internal/webhook/pod_webhook.go:257-264 | the search that stops at the first entry of the type |
| `Admission.Handle` | internal/webhook/pod_webhook.go:35-99 | the answer for every pod and store, and the pod as patched: unmanaged, errored, denied and why, or admitted with all mutations |
| `Admission.AnswerIff` | internal/webhook/pod_webhook.go:43-82 | each answer exactly when it is given, over the fields of pod and profile: taken by Kueue or not annotated, profile unreadable, not reconciled, claims against claims, a selector entry with another value, claims without Valid=True |
| `Admission.AdmittedContainers` | internal/webhook/pod_webhook.go:84-85 | every admitted pod, with and without device claims: each container's requests and limits are the submitted ones overridden by those of the entry chosen for it, nothing else of it moved but its claim references |
| `Admission.AdmittedRest` | internal/webhook/pod_webhook.go:89-91 | the rest of every admitted pod: labels name profile and template, the generation annotation is the profile's, the overrides are recorded exactly when there are some, the gate is appended, and selector, tolerations and other fields are as submitted |
| `Admission.PathTells` | internal/webhook/pod_webhook.go:118-129 | the recorded path of an override tells its container, kind and resource |
| `Admission.DecimalReads` | internal/webhook/pod_webhook.go:282-286 | the numbers written read back |
| `Admission.QuotedJoins` | internal/webhook/pod_webhook.go:288-291 | the overrides annotation lists the override paths in order, each in quotes, with commas between |
| `Admission.CheckBlockingConflicts` | internal/webhook/pod_webhook.go:227-255 | denies on claims against claims, then on a selector key with another value, in any key order |
| `Admission.IsKueueManaged` | internal/webhook/pod_webhook.go:187-199 | queue label or Kueue gate |
| `Admission.Mutate` | internal/webhook/pod_webhook.go:84-91 | the mutations in order add up to one function of the submitted pod, with the exact override record |
| `Admission.SetTrackingAnnotations` | internal/webhook/pod_webhook.go:278-292 | the annotations set, generation always, overrides when there are any |
| `Admission.CostLabelsSay` | internal/webhook/pod_webhook.go:266-276 | the profile label is the profile, the template label is set exactly when the spec or else the resolved spec names a template, a template label the pod came with survives otherwise, and every other label always |
| `Admission.AdmittedClaims` | internal/webhook/pod_webhook.go:152-159 | an admitted pod of a profile with device claims holds exactly those, in order, without duplicates if and only if the claim names are distinct |
| `Admission.AdmittedReferences` | internal/webhook/pod_webhook.go:161-184 | when the target index is in range exactly that container gains one reference per claim, each resolving in the pod; every other container is only injected |
| `Admission.PlacementKeepsUserSelector` | internal/controller/placement_controller.go:77-87 | for an admitted pod and the same Node placement, the final selector is the conflict-free union and no entry of the user changes value |
| `Admission.StillNamesProfile` | internal/webhook/pod_webhook.go:278-292 | no tracking annotation overwrites the profile annotation placement later reads |
| `Frames.AnswerIsStored` | internal/webhook/pod_webhook.go:93-98 | what Handle answered is what is stored under the pod's name, as submitted when it is let through |
| `Injection.InjectResources` | internal/webhook/pod_webhook.go:101-133 | each container's maps are the old ones overridden by the first name match, else first index match, else defaults, all else framed; overrides are exactly the colliding (container, kind, key) triples, each once |
| `Injection.MergeInto` | internal/webhook/pod_webhook.go:118-129 | one inner loop, keys in any order: the override of the map and exactly the collisions |
| `Injection.ResolveResources` | internal/webhook/pod_webhook.go:135-150 | two sequential first-match searches, then defaults |
| `Injection.ResolveChooses` | internal/webhook/pod_webhook.go:135-150 | what the searches find is exactly the first entry of the container's name; without one the first of its index; without either the defaults |
| `Injection.CollidesMeans` | internal/webhook/pod_webhook.go:118-129 | a collision is exactly a key the container set itself and the chosen entry sets too |
| `Injection.InjectedMeans` | internal/webhook/pod_webhook.go:104-129 | each container's two maps are its own overridden by the chosen ones, its other fields unchanged |
| `Injection.TargetMeans` | internal/webhook/pod_webhook.go:161-176 | the device claims go where the first entry that points indexes, or to the first container it names, or to container 0 |
| `Injection.TargetDefault` | internal/webhook/pod_webhook.go:161-162 | and to container 0 when no entry points |
| `Injection.InjectTwice` | internal/webhook/pod_webhook.go:101-133 | a second injection changes no container |
| `Injection.OverridesUnique` | internal/webhook/pod_webhook.go:118-129 | the override record is determined up to the order of the Go maps |
| `Injection.OrderBlindIff` | internal/webhook/pod_webhook.go:135-150 | the first-match result is the same for every order of the entries and every container if and only if equal names carry equal resources and equal indexes carry equal resources |
| `Injection.InjectedPermuted` | internal/webhook/pod_webhook.go:104-109 | so the injected containers are the same under any reordering of such entries, pairwise distinct names and indexes included |
| `Injection.InjectDRAClaims` | internal/webhook/pod_webhook.go:152-185 | claims appended in order, and one reference per claim to the one target container, in place |
| `Injection.SameNamesSameTarget` | internal/webhook/pod_webhook.go:161-176 | the target, recomputed per claim, never moves while claims are being written |
| `Injection.TargetOrderBlindIff` | internal/webhook/pod_webhook.go:161-184 | for every pod and every non-empty list of claims, the containers end the same for every order of the entries, faults included, if and only if all entries that name or index a container land in the same place of that pod |
| `Injection.ClaimTargetFollowsOrder` | internal/webhook/pod_webhook.go:161-184 | the concrete gap: a pod of two containers in which the order decides which of them gets the reference |
| `Gates.AddRemove` | internal/controller/placement_controller.go:267-275 | add then remove is the identity exactly on lists that did not hold the gate |
| `Gates.OthersKeepOrder` | internal/controller/placement_controller.go:267-275 | neither operation disturbs the other gates or their order |
| `Gates.AddSchedulingGate` | internal/webhook/pod_webhook.go:216-225 | the gate is appended unless present |
| `Gates.RemoveSchedulingGate` | internal/controller/placement_controller.go:267-275 | every occurrence goes, the rest keeps its order |
| `Gates.HasSchedulingGate` | internal/controller/placement_controller.go:258-265 | whether the list holds the gate |
| `Placement.ApplyNodePlacement` | internal/controller/placement_controller.go:217-230 | selector entries overwrite in any order, tolerations are appended, nothing else moves |
| `Placement.SelectorUnion` | internal/controller/placement_controller.go:217-225 | the placed selector is the union; every user entry survives if and only if there was no conflict |
| `MergePatch.RoundTrip` | internal/controller/placement_controller.go:75-99 | applying the patch computed from a to b takes a to b (RFC 7396, section 2) |
| `MergePatch.AppliedAt` | internal/controller/placement_controller.go:75-99 | on any third object a patch leaves each key a and b agree on and sets each key still holding a's value |
| `MergePatch.UnchangedIff` | internal/controller/placement_controller.go:75-99 | the fixpoints of a patch are exactly the objects that already say what it says |
| `MergePatch.ApplyTwice` | internal/controller/placement_controller.go:75-99 | applying any patch twice is applying it once |
| `PodPatch.PodTells` | internal/controller/placement_controller.go:75-99 | the encoding patched tells every field apart: labels, annotations, selector, tolerations, gates |
| `PodPatch.PlacementPatchReplays` | internal/controller/placement_controller.go:75-99 | a placement patch computed from a stale gated copy sets the placement once and keeps concurrent label and annotation changes; delivered again it changes nothing |
| `PodPatch.StaleGatesKeptIff` | internal/controller/placement_controller.go:97-99 | the patch carries the gate list whole: met by a pod from which other controllers removed gates since the read, it writes the read list without WTO's gate, and those gates stay removed if and only if none was on the pod as read |
| `QuotaCheck.CheckQuota` | internal/controller/placement_controller.go:110-127 | ok if and only if the list failed or every quota admits the profile |
| `QuotaCheck.CheckResourceQuota` | internal/controller/placement_controller.go:129-201 | ok if and only if used + requested <= hard for every bounded request, hard and used each falling back on their own, and for every bounded inline device count, 0 read as 1; devices skipped without resources |
| `QuotaCheck.HeldIff` | internal/controller/placement_controller.go:110-201 | the verdict in both directions over quota fields: a pod is held exactly when resources resolve and some quota has less left than one of their requests asks, under the prefixed or else the bare key, or than the count of one of the spec's own device claims, 0 read as 1 |
| `QuotaCheck.VerdictMonotone` | internal/controller/placement_controller.go:129-201 | a verdict ok stays ok when any used falls or any hard rises under the same keys |
| `QuotaCheck.KeySetsMatter` | internal/controller/placement_controller.go:136-151 | the key sets are needed: dropping a used key can turn ok into held, on a concrete quota |
| `QuotaCheck.VerdictOrderBlind` | internal/controller/placement_controller.go:120-124 | independent of the order of the quota list |
| `QuotaCheck.DeviceCheckAsDocumentedIff` | internal/controller/placement_controller.go:165-198 | the whole verdict equals the documented one, which holds the injected devices, for every quota, if and only if each list of devices covers the other class by class |
| `QuotaCheck.TemplateDevicesUnchecked` | internal/controller/placement_controller.go:165-198 | the concrete gap: a template's devices are never held against a quota |
| `QuotaCheck.DeviceSumsIff` | internal/controller/placement_controller.go:165-198 | with natural counts, comparing claims one by one is the verdict on the sum of each class, for every quota, if and only if no class is named by two claims |
| `QuotaCheck.DevicesNotSummed` | internal/controller/placement_controller.go:165-198 | the concrete gap: two claims of one class pass a quota of one device that their sum does not fit |
| `PodTotals.CheckCoversPodIff` | internal/controller/placement_controller.go:203-215 | checking one entry's requests, or none when the profile resolves no resources, is the verdict on what the injected pod asks for in total, for every quota, if and only if the two are equal |
| `PodTotals.DefaultsCoverPodIff` | internal/controller/placement_controller.go:203-215 | for a profile of defaults: if and only if no container asks for a resource of its own, and the pod has one container or the defaults ask for nothing |
| `PodTotals.TwoContainersOneCpu` | internal/controller/placement_controller.go:203-215 | the concrete gap: two containers of one cpu pass a quota of one cpu |
| `NestedFields.TemplateAnnotationsPath` | internal/controller/propagation_controller.go:185-186 | splitting the template path plus `.metadata.annotations` on dots is the split template path followed by the two fields |
| `NestedFields.SplitConcat` | internal/controller/propagation_controller.go:185-186 | splitting two strings joined by the separator is splitting each |
| `NestedFields.GetPut` | internal/controller/propagation_controller.go:199 | what is written at a path is read there |
| `NestedFields.GetPutOff` | internal/controller/propagation_controller.go:199 | a write is invisible at every path neither above nor below it |
| `NestedFields.GetField` | internal/controller/propagation_controller.go:188 | a path of one field is that field of the object |
| `NestedFields.StringsIff` | internal/controller/propagation_controller.go:188 | a value reads as a string map exactly when it is the encoding of one |
| `Propagation.HoldsAfterIff` | internal/controller/propagation_controller.go:203-219 | after a propagation the path holds the name if and only if the way to it was made of maps |
| `Propagation.OtherAnnotationsKept` | internal/controller/propagation_controller.go:203-219 | every other annotation at the path is kept; a value that is no string map is replaced by the key alone |
| `Propagation.OffPath` | internal/controller/propagation_controller.go:203-219 | no subtree off the path changes |
| `Propagation.OffAllPaths` | internal/controller/propagation_controller.go:157-169 | no subtree off all configured paths changes |
| `Propagation.PropagateTwice` | internal/controller/propagation_controller.go:203-219 | one path is idempotent, also when the write failed |
| `Propagation.PrefixesNeverBothHold` | internal/controller/propagation_controller.go:206-211 | no object holds the name at a path and below it |
| `Propagation.AllHoldIff` | internal/controller/propagation_controller.go:157-169 | after one pass all paths hold if and only if none lies below another and each could be written |
| `Propagation.QuietIff` | internal/controller/propagation_controller.go:171-173 | a reconcile sends no update if and only if all paths already hold |
| `Propagation.OneUpdateIff` | internal/controller/propagation_controller.go:148-173 | with paths apart from the object's own annotations, the next reconcile is silent if and only if no path lies below another and each could be written |
| `Propagation.LoopStops` | internal/controller/propagation_controller.go:148-182 | then any number of self-triggered reconciles sends at most the first update and ends on the same object |
| `Propagation.LoopStopsIff` | internal/controller/propagation_controller.go:148-182 | the self-triggered loop sends at most one update however long it runs if and only if no path lies below another and each can be written |
| `Propagation.Unstructured.PropagateViaPodTemplatePath` | internal/controller/propagation_controller.go:184-201 | in-place write at the template's annotations, and the changed flag |
| `Propagation.Unstructured.PropagateViaAnnotationPath` | internal/controller/propagation_controller.go:203-219 | in-place write at a listed path, and the changed flag |
| `Registry.AlwaysConsistent` | internal/controller/propagation_controller.go:55-117 | over every sequence of register, failed watch, re-register, deregister: equal key sets and a started watch for exactly each current kind |
| `Registry.LatestWins` | internal/controller/propagation_controller.go:55-117 | each name holds its latest effective registration whatever other names do |
| `Registry.DecodeIff` | internal/controller/propagation_controller.go:122-127 | a `config/name` request decodes to its pair if and only if the config name has no slash |
| `Registry.PropagationReconciler.RegisterGVK` | internal/controller/propagation_controller.go:55-110 | success exactly without a watch error or with the kind unchanged; a failure leaves both maps |
| `Registry.PropagationReconciler.DeregisterGVK` | internal/controller/propagation_controller.go:112-117 | the name leaves both maps, the watch stays |
| `Registry.PropagationReconciler.Reconcile` | internal/controller/propagation_controller.go:119-182 | only the object addressed through the current registry changes, and only when an update is sent and accepted |
| `Registry.ServedHolds` | internal/controller/propagation_controller.go:119-182 | over the config's fields: an accepted reconcile of an annotated object leaves the profile's name at the pod template's annotations when configured and at every listed path, every subtree off all of these and every other object as it was |
| `Registry.ServedElse` | internal/controller/propagation_controller.go:122-152 | nothing changes for an unregistered config, native propagation, an absent object, an object without the annotation, or a refused update |
| `Registry.PropagateSpec` | internal/controller/propagation_controller.go:157-169 | the loop over all paths and the accumulated changed flag |
| `Registry.StatusSays` | internal/controller/workloadtype_controller.go:48-77 | WatchActive is True if and only if the CRD was found and the registration succeeded |
| `Registry.DeletedIsForgotten` | internal/controller/workloadtype_controller.go:29-33 | a deleted config is in neither map once it is reconciled, and other names keep what they have |
| `Registry.AlwaysBacked` | internal/controller/workloadtype_controller.go:25-87 | over every run a stored WatchActive=True names a registered config with a started watch for the reported kind |
| `Registry.SyncIff` | internal/controller/workloadtype_controller.go:48-77 | after a reconcile whose status is written, WatchActive and the reported kind agree with the registry if and only if it registered the kind or nothing was registered |
| `Registry.LostStatusIff` | internal/controller/workloadtype_controller.go:67-79 | after one whose status write is lost, they still agree if and only if it registered no new kind |
| `Registry.StaysRegistered` | internal/controller/workloadtype_controller.go:56-65 | the concrete history of a kind that leaves the cluster: WatchActive False and the name still registered |
| `Registry.ReportsOlderKind` | internal/controller/workloadtype_controller.go:67-79 | the concrete history of a lost status write: WatchActive True for the older kind while the newer is registered |
| `Registry.WorkloadTypeReconciler.Reconcile` | internal/controller/workloadtype_controller.go:25-87 | one reconcile: nothing when the config cannot be read, else registry event, both conditions, status written or lost |

## Left out

- controller-runtime, client-go and the API server beyond the store contracts above: queues, informers, caches, discovery, TLS, RBAC, leader election.
- Decoding and encoding of admission requests: `Handle` starts from a decoded pod and ends with the mutated one.
- Quantities are integers; parsing, formatting and units are not modelled.
- Label selectors are lists of requirements; a malformed one is a value of its own, and CEL is not modelled.
- Clock values, event and condition messages, logs and requeue delays; the transition time is kept, since it tells whether a status changed.
- JSON escaping in the override record, and the order of keys inside one Go map.
- nil and empty maps and lists are one value, as they are in stored JSON.
- The target kind check: its verdict is an input of the status update; it does not feed Valid.
- Drift beyond the one condition resolveSpec sets.
- The counting of satisfiable nodes and applied workloads, and taint matching: plain filters without effect on any guarantee here.
- Queue placement and queue label code, which is commented out in the source.
- Default bootstrapping, generated deep copies, type registration, command line, manifests.
- PatchStatus: a changed field is carried whole; the merge inside a changed resolved spec is not modelled, since the base is always what is stored.
- Safety.InvNext: stale cache reads of profiles are not steps of the protocol; staleness of the pod copy is treated in `PodPatch`.
- Guarantees.GatedPodIsServed: speaks of pods WTO admitted; a pod Kueue manages or without the annotation is let through as submitted and only that is stated.
- Controllers.UpdateStatus: does not write the counts of satisfiable nodes and applied workloads; no guarantee here reads them.
- QuotaCheck.DeviceSumsIff: counts are natural numbers, as the API server requires of a device request.
- QuotaCheck.DeviceCheckAsDocumentedIff: for profiles that request no resource named like a quota's device key, which no container does.
- PodPatch.StaleGatesKeptIff: says what the patched object holds; whether the API server accepts a pod update that brings a gate back is not part of this model.
- Progress.DeletionCompletes: returns a completing run for every placing order; that each gated pod is in the end placed is left to the retries of the work queue (`Progress.EveryRunDrains` says what follows once it is).
- Propagation.LoopStopsIff: assumes the object is changed by the propagation alone between rounds.
- Propagation.Unstructured.PropagateViaAnnotationPath: the nested maps are values; sharing between a map and a copy of it held elsewhere is not modelled.
- Registry.PropagationReconciler.Reconcile: lock acquisition is not modelled; each registry operation is one atomic event.
- Admission.Handle: a negative container index is an outcome of its own where the source would fault.
