/**
 The values the operator reads and writes: the slices of the Kubernetes objects and of the
 operator's own custom resources that its code looks at. Quantities are integers; Go's nil
 and empty maps and lists are one value, as they are in the stored JSON.
 */
module Kube {

  datatype Option<+T> = None | Some(value: T)

  type StringMap = map<string, string>

  /** A namespaced object name. */
  datatype Key = Key(namespace: string, name: string)

  const PROFILE_ANNOTATION := "workload-template.io/profile-name"
  const GENERATION_ANNOTATION := "workload-template.io/profile-generation"
  const TEMPLATE_GENERATION_ANNOTATION := "workload-template.io/template-generation"
  const OVERRIDES_ANNOTATION := "workload-template.io/overrides"
  const PROFILE_LABEL := "workload-template.io/profile-name"
  const TEMPLATE_LABEL := "workload-template.io/template-name"
  const SCHEDULING_GATE := "workload-template.io/scheduling-gate"
  const KUEUE_QUEUE_LABEL := "kueue.x-k8s.io/queue-name"
  const KUEUE_GATE := "kueue.x-k8s.io/admission"

  /** Reading a Go map: a missing key reads as the empty string. */
  function ValueAt(m: StringMap, key: string): string {
    if key in m then m[key] else ""
  }

  // ---- the profile and its template ----

  datatype Requirements = Requirements(requests: map<string, int>, limits: map<string, int>)

  /** One containers[] entry; name and index are pointers in the source. */
  datatype Entry = Entry(name: Option<string>, index: Option<int>, resources: Requirements)

  datatype DeviceRequest = DeviceRequest(className: string, count: int)

  datatype DeviceClaim = DeviceClaim(name: string, exactly: Option<DeviceRequest>)

  datatype Toleration = Toleration(key: string, operator: string, value: string, effect: string)

  datatype NodePlacement = NodePlacement(nodeSelector: StringMap, tolerations: seq<Toleration>)

  datatype QueuePlacement = QueuePlacement(localQueueName: string, priorityClass: Option<string>)

  datatype PlacementType = NodeType | QueueType

  datatype PlacementConfig =
    PlacementConfig(kind: PlacementType, node: Option<NodePlacement>, queue: Option<QueuePlacement>)

  datatype ProfileSpec = ProfileSpec(
    templateRef: Option<string>,
    defaults: Option<Requirements>,
    containers: seq<Entry>,
    deviceClaims: seq<DeviceClaim>,
    placement: Option<PlacementConfig>)

  /** A label selector as its list of requirements; matchLabels {k: v} is In(k, {v}). */
  datatype LabelRequirement =
    | In(key: string, values: set<string>)
    | NotIn(key: string, values: set<string>)
    | Exists(key: string)
    | DoesNotExist(key: string)
    | Malformed

  datatype Template = Template(
    generation: int,
    defaults: Option<Requirements>,
    containers: seq<Entry>,
    deviceClaims: seq<DeviceClaim>,
    namespaceSelector: Option<seq<LabelRequirement>>)

  predicate Satisfies(labels: StringMap, r: LabelRequirement) {
    match r
    case In(k, vs) => k in labels && labels[k] in vs
    case NotIn(k, vs) => k !in labels || labels[k] !in vs
    case Exists(k) => k in labels
    case DoesNotExist(k) => k !in labels
    case Malformed => false
  }

  predicate Matches(labels: StringMap, selector: seq<LabelRequirement>) {
    forall r :: r in selector ==> Satisfies(labels, r)
  }

  /**
   The operators against each other: a label is in a set when it has one of the values, the negations
   hold of an absent label, and a selector asks for all of its requirements, the empty one for nothing.
   */
  lemma SelectorLaws(labels: StringMap, k: string, v: string, vs: set<string>,
                     a: seq<LabelRequirement>, b: seq<LabelRequirement>)
    ensures Satisfies(labels, In(k, {v})) <==> k in labels && labels[k] == v
    ensures Satisfies(labels, In(k, vs)) <==> exists x :: x in vs && Satisfies(labels, In(k, {x}))
    ensures Satisfies(labels, NotIn(k, vs)) <==> !Satisfies(labels, In(k, vs))
    ensures Satisfies(labels, Exists(k)) <==> k in labels
    ensures Satisfies(labels, DoesNotExist(k)) <==> !Satisfies(labels, Exists(k))
    ensures Matches(labels, []) && (Matches(labels, a + b) <==> Matches(labels, a) && Matches(labels, b))
    ensures |a| == 1 ==> (Matches(labels, a) <==> Satisfies(labels, a[0]))
  {
    if k in labels && labels[k] in vs {
      assert Satisfies(labels, In(k, {labels[k]}));
    }
    if Matches(labels, a + b) {
      assert forall r :: r in a || r in b ==> r in a + b;
    }
  }

  /** Node placement takes effect only when the type says Node and the node part is set. */
  function NodeOf(placement: Option<PlacementConfig>): (node: Option<NodePlacement>)
    ensures node.Some? <==> placement.Some? && placement.value.kind == NodeType && placement.value.node.Some?
  {
    match placement
    case Some(PlacementConfig(NodeType, node, _)) => node
    case _ => None
  }

  // ---- quota ----

  datatype Quota = Quota(hard: map<string, int>, used: map<string, int>)

  // ---- pods ----

  /** `other` stands for every field of a container the operator never touches. */
  datatype Container = Container(
    name: string,
    requests: map<string, int>,
    limits: map<string, int>,
    claims: seq<string>,
    other: string)

  datatype PodClaim = PodClaim(name: string, template: Option<string>)

  datatype PodObj = PodObj(
    labels: StringMap,
    annotations: StringMap,
    containers: seq<Container>,
    resourceClaims: seq<PodClaim>,
    gates: seq<string>,
    nodeSelector: StringMap,
    tolerations: seq<Toleration>,
    other: string)

  /** The ResourceClaimTemplate name of a profile's device claim. */
  function RctName(profile: string, claim: string): string {
    "wto-" + profile + "-" + claim
  }
}
