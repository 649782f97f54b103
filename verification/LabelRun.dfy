/** Whole runs in NodeLabel mode: where steered pods are bound, and when that agrees with the latest sync. */
module LabelRun {
  import opened Options
  import opened Decimal
  import opened Kube
  import opened Sequence
  import opened NodePlanSpec
  import opened Steering
  import opened NodeRun

  /** The label of a node meets the requirement of group k. */
  predicate Admits(s: PodSequence, node: Node, k: nat)
    requires k >= 1
  {
    RequirementHolds(EligibilityRequirement(KeyOf(s), k), node.labels)
  }

  /** The node admits pods of group k only if its latest sync supports that. */
  ghost predicate FollowsLatest(s: PodSequence, st: State, n: string)
    requires n in st.nodes
  {
    forall k: nat :: k >= 1 && Admits(s, st.nodes[n], k) ==> n in st.computed && Supports(st.computed[n].state, k)
  }

  /** A label admits exactly the groups up to its count. */
  lemma {:induction false} CountAdmits(s: PodSequence, node: Node, count: nat)
    requires LabelOf(s, node) == None || LabelOf(s, node) == Some(Itoa(count))
    ensures forall k: nat :: k >= 1 ==> (Admits(s, node, k) <==> LabelOf(s, node).Some? && k <= count)
  {
    forall k: nat | k >= 1
      ensures Admits(s, node, k) <==> LabelOf(s, node).Some? && k <= count
    {
      if LabelOf(s, node).Some? {
        GtOnLabel(node.labels, KeyOf(s), k, count);
      }
    }
  }

  /** After a sync a node admits no more than was computed exactly when its label was written, or it had none, or
      one that admits nothing, or one whose count is no more than computed. */
  lemma {:induction false} SyncAdmitsNoMoreIff(s: PodSequence, input: PlanInput, stored: Node, count: nat, cached: Node,
                                               state: NodeState, applied: bool, retainted: bool)
    requires EligibilityMethod(s) != TaintMethod
    requires LabelOf(s, stored) == None || LabelOf(s, stored) == Some(Itoa(count))
    ensures var after := Retainted(s, input, stored, cached, state, applied, retainted);
            (forall k: nat :: k >= 1 && Admits(s, after, k) ==> Supports(state, k))
            <==> || LabelWritten(s, input, cached, state, applied) || LabelOf(s, stored) == None || count == 0
                 || (state.participating && count <= state.satisfied)
  {
    var after := Retainted(s, input, stored, cached, state, applied, retainted);
    LabelAfterSync(s, input, stored, cached, state, applied, retainted);
    if LabelWritten(s, input, cached, state, applied) {
      CountAdmits(s, after, state.satisfied);
    } else {
      CountAdmits(s, after, count);
      if LabelOf(s, stored).Some? && count > 0 {
        assert Admits(s, after, count);
      }
    }
  }

  /** In every run a node follows its latest sync exactly when it does not lag. */
  lemma {:induction false} LatestSyncIsFollowedIff(s: PodSequence, states: seq<State>, steps: seq<Step>, i: nat, n: string)
    requires Run(s, states, steps) && i < |states| && EligibilityMethod(s) != TaintMethod && n in states[i].nodes
    ensures FollowsLatest(s, states[i], n) <==> n !in states[i].lagging
  {
    RunsAreSafe(s, states, steps, i);
    FollowsIffNotLagging(s, states[i], n);
  }

  lemma {:induction false} FollowsIffNotLagging(s: PodSequence, st: State, n: string)
    requires n in st.nodes && LabelSafe(s, st, n)
    ensures FollowsLatest(s, st, n) <==> n !in st.lagging
  {
    var count := Count(st, n);
    CountAdmits(s, st.nodes[n], count);
    if n in st.lagging {
      assert Admits(s, st.nodes[n], count);
    }
  }

  /** A label that admits group k is the count of a sync that supports it. */
  lemma {:induction false} LabelSupports(s: PodSequence, st: State, n: string, k: nat)
    requires n in st.nodes && LabelSafe(s, st, n) && k >= 1 && Admits(s, st.nodes[n], k)
    ensures n in st.written && Recorded(s, n, st.written[n]) && Supports(st.written[n].state, k)
  {
    CountAdmits(s, st.nodes[n], Count(st, n));
    assert LabelOf(s, st.nodes[n]).Some? && k <= Count(st, n);
  }

  /** A steered pod that can be bound to a node meets a label that admits its group. */
  lemma {:induction false} BindMeetsLabel(s: PodSequence, st: State, uid: string, n: string)
    requires PodsSafe(s, st) && EligibilityMethod(s) != TaintMethod && EnabledOnPods(s, st, Bind(uid, n)) && uid in st.steered
    ensures var k := GroupIndexForPod(s, st.pods[uid]);
            k >= 1 && Admits(s, st.nodes[n], k)
  {
    var p, k := st.pods[uid], GroupIndexForPod(s, st.pods[uid]);
    assert VersionSafe(s, st, p);
    assert InPlace(s, p);
    DemandedRequirementHolds(p.spec.required, EligibilityRequirement(KeyOf(s), k), st.nodes[n]);
  }

  /** In every run, a steered pod of group k is only ever bound to a node whose written label stems from a sync
      that computed it participating with at least k satisfied groups; the groups before k were satisfied there
      in the snapshot of that sync. */
  lemma {:induction false} SteeredPodsBindInOrder(s: PodSequence, states: seq<State>, steps: seq<Step>, i: nat)
    requires Run(s, states, steps) && EligibilityMethod(s) != TaintMethod
    requires BindsSteered(s, states, steps, i)
    ensures var st, n, k := states[i], steps[i].node, GroupIndexForPod(s, states[i].pods[steps[i].uid]);
            k >= 1 && Admits(s, st.nodes[n], k) && n in st.written && Grounded(s, n, st.written[n], k)
  {
    RunsAreSafe(s, states, steps, i);
    var st, n, k := states[i], steps[i].node, GroupIndexForPod(s, states[i].pods[steps[i].uid]);
    BindMeetsLabel(s, st, steps[i].uid, n);
    LabelSupports(s, st, n, k);
    RecordIsGrounded(s, n, st.written[n], k);
  }

  /** Unless the node lags, the most recent sync supports the bind: it computed the node participating with at
      least k satisfied groups, and the groups before k held in its snapshot. */
  lemma {:induction false} BindsFollowLatestSync(s: PodSequence, states: seq<State>, steps: seq<Step>, i: nat)
    requires Run(s, states, steps) && EligibilityMethod(s) != TaintMethod
    requires BindsSteered(s, states, steps, i) && steps[i].node !in states[i].lagging
    ensures var st, n, k := states[i], steps[i].node, GroupIndexForPod(s, states[i].pods[steps[i].uid]);
            k >= 1 && n in st.computed && Grounded(s, n, st.computed[n], k)
  {
    RunsAreSafe(s, states, steps, i);
    var st, n, k := states[i], steps[i].node, GroupIndexForPod(s, states[i].pods[steps[i].uid]);
    BindMeetsLabel(s, st, steps[i].uid, n);
    FollowsIffNotLagging(s, st, n);
    assert NodeSafe(s, st, n);
    RecordIsGrounded(s, n, st.computed[n], k);
  }

  /** In a run no sync of which leaves its node lagging, every bind of a steered pod is supported by the most
      recent sync of its node. */
  lemma {:induction false} LagFreeRunsFollowLatest(s: PodSequence, states: seq<State>, steps: seq<Step>, i: nat)
    requires Run(s, states, steps) && EligibilityMethod(s) != TaintMethod
    requires forall j :: 0 <= j < |steps| ==> !LeavesLag(s, states[j], steps[j])
    requires BindsSteered(s, states, steps, i)
    ensures var st, n, k := states[i], steps[i].node, GroupIndexForPod(s, states[i].pods[steps[i].uid]);
            k >= 1 && n in st.computed && Grounded(s, n, st.computed[n], k)
  {
    NoLagIff(s, states, steps, i);
    BindsFollowLatestSync(s, states, steps, i);
  }
}
