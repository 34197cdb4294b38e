/** The pod held in memory by the webhook or by a reconcile: decoded, then changed field by field. */
module Pods {
  import opened Kube

  class Pod {
    var labels: StringMap
    var annotations: StringMap
    var containers: seq<Container>
    var resourceClaims: seq<PodClaim>
    var gates: seq<string>
    var nodeSelector: StringMap
    var tolerations: seq<Toleration>
    var other: string

    constructor (p: PodObj)
      ensures Value() == p
    {
      labels, annotations, containers, resourceClaims := p.labels, p.annotations, p.containers, p.resourceClaims;
      gates, nodeSelector, tolerations, other := p.gates, p.nodeSelector, p.tolerations, p.other;
    }

    function Value(): PodObj
      reads this
    {
      PodObj(labels, annotations, containers, resourceClaims, gates, nodeSelector, tolerations, other)
    }
  }
}
