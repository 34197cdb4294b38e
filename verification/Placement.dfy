/** What the placement controller writes into a gated pod before it lets it go. */
module Placement {
  import opened Kube
  import opened Pods
  import opened QuotaCheck
  import Gates

  /** The resolved placement when there is one, else the spec's own. */
  function Effective(v: View): Option<PlacementConfig> {
    if v.resolved.Some? && v.resolved.value.placement.Some? then v.resolved.value.placement else v.spec.placement
  }

  /** Selector entries overwrite, tolerations are appended. */
  function WithNode(pod: PodObj, node: Option<NodePlacement>): PodObj {
    match node
    case None => pod
    case Some(n) =>
      pod.(nodeSelector := pod.nodeSelector + n.nodeSelector, tolerations := pod.tolerations + n.tolerations)
  }

  function Ungated(pod: PodObj): PodObj {
    pod.(gates := Gates.Removed(pod.gates))
  }

  function Placed(pod: PodObj, node: Option<NodePlacement>): PodObj {
    Ungated(WithNode(pod, node))
  }

  /** The loop over the profile's selector, in any order. */
  method Overwrite<V>(own: map<string, V>, from: map<string, V>) returns (merged: map<string, V>)
    ensures merged == own + from
  {
    merged := own;
    var todo := from.Keys;
    while todo != {}
      invariant todo <= from.Keys
      invariant merged.Keys == own.Keys + (from.Keys - todo)
      invariant forall k :: k in merged ==> merged[k] == if k in from && k !in todo then from[k] else own[k]
      decreases |todo|
    {
      var k :| k in todo;
      merged := merged[k := from[k]];
      todo := todo - {k};
    }
  }

  method ApplyNodePlacement(pod: Pod, node: NodePlacement)
    modifies pod`nodeSelector, pod`tolerations
    ensures pod.nodeSelector == old(pod.nodeSelector) + node.nodeSelector
    ensures pod.tolerations == old(pod.tolerations) + node.tolerations
  {
    pod.nodeSelector := Overwrite(pod.nodeSelector, node.nodeSelector);
    pod.tolerations := pod.tolerations + node.tolerations;
  }

  // ---- the webhook's selector check against this write ----

  /** A key both set, to different values: what checkBlockingConflicts denies. */
  predicate SelectorConflict(pod: StringMap, profile: StringMap) {
    exists k :: k in profile && k in pod && pod[k] != profile[k]
  }

  /**
   With Node placement, the placed selector holds the pod's and the profile's entries and no
   other; it keeps every entry the user wrote exactly when there was no conflict to deny.
   */
  lemma SelectorUnion(pod: PodObj, node: NodePlacement)
    ensures var r := Placed(pod, Some(node)).nodeSelector;
      && r.Keys == pod.nodeSelector.Keys + node.nodeSelector.Keys
      && (forall k :: k in node.nodeSelector ==> r[k] == node.nodeSelector[k])
      && (forall k :: k in pod.nodeSelector && k !in node.nodeSelector ==> r[k] == pod.nodeSelector[k])
      && ((forall k :: k in pod.nodeSelector ==> r[k] == pod.nodeSelector[k])
        <==> !SelectorConflict(pod.nodeSelector, node.nodeSelector))
  {
    var r := Placed(pod, Some(node)).nodeSelector;
    if SelectorConflict(pod.nodeSelector, node.nodeSelector) {
      var k :| k in node.nodeSelector && k in pod.nodeSelector && pod.nodeSelector[k] != node.nodeSelector[k];
      assert r[k] != pod.nodeSelector[k];
    }
  }
}
