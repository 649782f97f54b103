/** Which DaemonSets a node is expected to run: internal/sequence/daemonset.go. */
module DaemonSets {
  import opened Options
  import opened Collections
  import opened Kube
  import opened Sequence

  const NOT_READY := "node.kubernetes.io/not-ready"
  const UNREACHABLE := "node.kubernetes.io/unreachable"
  const NETWORK_UNAVAILABLE := "node.kubernetes.io/network-unavailable"
  const UNINITIALIZED := "node.cloudprovider.kubernetes.io/uninitialized"

  const DEFAULT_TOLERATIONS: seq<Toleration> := [
    Toleration(NOT_READY, TolerateExists, "", NoExecute),
    Toleration(UNREACHABLE, TolerateExists, "", NoExecute),
    Toleration("node.kubernetes.io/disk-pressure", TolerateExists, "", NoSchedule),
    Toleration("node.kubernetes.io/memory-pressure", TolerateExists, "", NoSchedule),
    Toleration("node.kubernetes.io/pid-pressure", TolerateExists, "", NoSchedule),
    Toleration("node.kubernetes.io/unschedulable", TolerateExists, "", NoSchedule)
  ]

  predicate TransientTaintKey(key: string)
  {
    key == NOT_READY || key == UNREACHABLE || key == NETWORK_UNAVAILABLE || key == UNINITIALIZED
  }

  function DaemonTolerations(template: PodSpec): seq<Toleration>
  {
    template.tolerations + DEFAULT_TOLERATIONS
    + if template.hostNetwork then [Toleration(NETWORK_UNAVAILABLE, TolerateExists, "", NoSchedule)] else []
  }

  predicate DaemonSetShouldRunOnNode(ds: DaemonSet, node: Node)
  {
    && (ds.template.nodeName == "" || ds.template.nodeName == node.name)
    && AffinityMatches(ds.template, node)
    && TaintsTolerated(node.taints, DaemonTolerations(ds.template))
  }

  function Lasting(ownKey: string): Taint -> Option<Taint>
  {
    (t: Taint) => if t.key == ownKey || TransientTaintKey(t.key) then None else Some(t)
  }

  predicate DaemonSetExpectedOnNode(ds: DaemonSet, node: Node, ownKey: string)
  {
    DaemonSetShouldRunOnNode(ds, node.(taints := Collect(Lasting(ownKey), node.taints)))
  }

  method CheckExpectedOnNode(ds: DaemonSet, node: Node, ownKey: string) returns (expected: bool)
    ensures expected == DaemonSetExpectedOnNode(ds, node, ownKey)
  {
    var filtered: seq<Taint> := [];
    for i := 0 to |node.taints|
      invariant filtered == Collect(Lasting(ownKey), node.taints[..i])
    {
      CollectSnoc(Lasting(ownKey), node.taints, i);
      var t := node.taints[i];
      if !(t.key == ownKey || TransientTaintKey(t.key)) {
        filtered := filtered + [t];
      }
    }
    CollectWhole(Lasting(ownKey), node.taints);
    return DaemonSetShouldRunOnNode(ds, node.(taints := filtered));
  }

  function InGroup(g: PodGroup): DaemonSet -> Option<DaemonSet>
  {
    (ds: DaemonSet) => if !ds.deleting && SelectorMatches(g.selector, ds.templateLabels) then Some(ds) else None
  }

  function DaemonSetsForGroup(all: seq<DaemonSet>, g: PodGroup): seq<DaemonSet>
  {
    Collect(InGroup(g), all)
  }

  method FindDaemonSetsForGroup(all: seq<DaemonSet>, g: PodGroup) returns (out: seq<DaemonSet>)
    ensures out == DaemonSetsForGroup(all, g)
  {
    out := [];
    if !g.selector.Selector? {
      SelectsNothing(all, g);
      return;
    }
    for i := 0 to |all|
      invariant out == Collect(InGroup(g), all[..i])
    {
      CollectSnoc(InGroup(g), all, i);
      if !all[i].deleting && g.selector.matches(all[i].templateLabels) {
        out := out + [all[i]];
      }
    }
    CollectWhole(InGroup(g), all);
  }

  lemma {:induction false} SelectsNothing(all: seq<DaemonSet>, g: PodGroup)
    requires !g.selector.Selector?
    ensures DaemonSetsForGroup(all, g) == []
  {
    if all != [] {
      SelectsNothing(all[..|all| - 1], g);
    }
  }

  /** What every daemon pod tolerates. */
  predicate ToleratedByDefault(t: Taint, hostNetwork: bool)
  {
    || (t.effect == NoExecute && t.key in {"node.kubernetes.io/not-ready", "node.kubernetes.io/unreachable"})
    || (t.effect == NoSchedule && t.key in {"node.kubernetes.io/disk-pressure", "node.kubernetes.io/memory-pressure",
                                            "node.kubernetes.io/pid-pressure", "node.kubernetes.io/unschedulable"})
    || (hostNetwork && t.effect == NoSchedule && t.key == "node.kubernetes.io/network-unavailable")
  }

  lemma {:induction false} DefaultTolerationsMeaning(t: Taint)
    ensures Tolerated(DEFAULT_TOLERATIONS, t) <==> ToleratedByDefault(t, false)
  {
    var all := DEFAULT_TOLERATIONS;
    assert all[0] in all && all[1] in all && all[2] in all && all[3] in all && all[4] in all && all[5] in all;
    assert forall e :: e in all ==> e.operator == TolerateExists;
  }

  lemma {:induction false} ToleratedByEither(a: seq<Toleration>, b: seq<Toleration>, t: Taint)
    ensures Tolerated(a + b, t) <==> Tolerated(a, t) || Tolerated(b, t)
  {
    assert forall e :: e in a + b <==> e in a || e in b;
  }

  lemma {:induction false} DaemonTolerationsMeaning(template: PodSpec, t: Taint)
    ensures Tolerated(DaemonTolerations(template), t) <==> Tolerated(template.tolerations, t) || ToleratedByDefault(t, template.hostNetwork)
  {
    var own := if template.hostNetwork then [Toleration(NETWORK_UNAVAILABLE, TolerateExists, "", NoSchedule)] else [];
    ToleratedByEither(template.tolerations + DEFAULT_TOLERATIONS, own, t);
    ToleratedByEither(template.tolerations, DEFAULT_TOLERATIONS, t);
    DefaultTolerationsMeaning(t);
    if template.hostNetwork {
      assert own[0] in own;
    }
  }

  /** The expectation, without the filtering: every lasting foreign taint is tolerated. */
  lemma {:induction false} ExpectedMeaning(ds: DaemonSet, node: Node, ownKey: string)
    ensures DaemonSetExpectedOnNode(ds, node, ownKey) <==>
            && (ds.template.nodeName == "" || ds.template.nodeName == node.name)
            && AffinityMatches(ds.template, node)
            && forall t :: t in node.taints && t.key != ownKey && (t.effect == NoSchedule || t.effect == NoExecute)
                           && t.key !in {"node.kubernetes.io/not-ready", "node.kubernetes.io/unreachable",
                                         "node.kubernetes.io/network-unavailable", "node.cloudprovider.kubernetes.io/uninitialized"}
                           ==> Tolerated(ds.template.tolerations, t) || ToleratedByDefault(t, ds.template.hostNetwork)
  {
    var filtered := node.(taints := Collect(Lasting(ownKey), node.taints));
    assert AffinityMatches(ds.template, filtered) <==> AffinityMatches(ds.template, node) by {
      if ds.template.required.Some? {
        assert forall t :: t in ds.template.required.value ==> (TermMatches(t, filtered) <==> TermMatches(t, node));
      }
    }
    forall t
      ensures t in filtered.taints <==> t in node.taints && t.key != ownKey && !TransientTaintKey(t.key)
      ensures Tolerated(DaemonTolerations(ds.template), t)
              <==> Tolerated(ds.template.tolerations, t) || ToleratedByDefault(t, ds.template.hostNetwork)
    {
      CollectMember(Lasting(ownKey), node.taints, t);
      DaemonTolerationsMeaning(ds.template, t);
    }
  }

  /** Adding, removing or revaluing the sequence's own taint never changes which DaemonSets it waits for. */
  lemma {:induction false} ExpectedIgnoresOwnTaint(ds: DaemonSet, node: Node, ownKey: string, taints: seq<Taint>)
    requires forall t: Taint :: t.key != ownKey ==> (t in taints <==> t in node.taints)
    ensures DaemonSetExpectedOnNode(ds, node.(taints := taints), ownKey) == DaemonSetExpectedOnNode(ds, node, ownKey)
  {
    var other := node.(taints := taints);
    ExpectedMeaning(ds, node, ownKey);
    ExpectedMeaning(ds, other, ownKey);
    if ds.template.required.Some? {
      assert forall t :: t in ds.template.required.value ==> (TermMatches(t, other) <==> TermMatches(t, node));
    }
  }

  /** A DaemonSet that should run now is expected, so ignoring taints only ever makes a group wait longer. */
  lemma {:induction false} ShouldRunIsExpected(ds: DaemonSet, node: Node, ownKey: string)
    requires DaemonSetShouldRunOnNode(ds, node)
    ensures DaemonSetExpectedOnNode(ds, node, ownKey)
  {
    ExpectedMeaning(ds, node, ownKey);
    forall t | t in node.taints
      ensures Tolerated(DaemonTolerations(ds.template), t)
              <==> Tolerated(ds.template.tolerations, t) || ToleratedByDefault(t, ds.template.hostNetwork)
    {
      DaemonTolerationsMeaning(ds.template, t);
    }
  }
}
