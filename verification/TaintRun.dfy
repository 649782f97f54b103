/** Whole runs in Taint mode: where steered pods are bound, and when that agrees with the latest sync. */
module TaintRun {
  import opened Collections
  import opened Decimal
  import opened Kube
  import opened Sequence
  import opened NodePlanSpec
  import opened Steering
  import opened NodeRun

  /** A pod of group k, steered, that came with the given tolerations tolerates the node's own taints. */
  predicate LetsPass(s: PodSequence, node: Node, existing: seq<Toleration>, k: nat)
  {
    OwnTaintsTolerated(node.taints, KeyOf(s), WithTolerations(existing, EligibilityTolerations(KeyOf(s), k, |s.podGroups|)))
  }

  /** The sync would let group k pass: the node does not participate, or has come far enough. */
  predicate Allows(state: NodeState, k: nat)
  {
    !state.participating || state.satisfied >= k
  }

  /** Own taints up to an allowance are tolerated by a pod of group k exactly as far as that goes, once steered. */
  lemma {:induction false} PassesIff(s: PodSequence, node: Node, allowance: nat, existing: seq<Toleration>, k: nat)
    requires allowance <= |s.podGroups| && OwnTaints(s, node) == TaintsFor(s, allowance)
    requires 1 <= k < |s.podGroups| && Refuses(existing, KeyOf(s), k)
    ensures LetsPass(s, node, existing, k) <==> k <= allowance
  {
    var tols := EligibilityTolerations(KeyOf(s), k, |s.podGroups|);
    var all := WithTolerations(existing, tols);
    OwnTaintOfNode(s, node, allowance);
    if k > allowance {
      RefusesStill(existing, KeyOf(s), k, |s.podGroups|);
    } else if allowance < |s.podGroups| {
      EligibilityTolerationsMeaning(KeyOf(s), k, |s.podGroups|, allowance);
      var t :| t in tols && ToleratesTaint(t, Taint(KeyOf(s), Itoa(allowance), NoSchedule));
      WithTolerationsContains(existing, tols, t);
    }
  }

  /** A node carries at most the one own taint. */
  lemma {:induction false} OwnTaintOfNode(s: PodSequence, node: Node, allowance: nat)
    requires allowance <= |s.podGroups| && OwnTaints(s, node) == TaintsFor(s, allowance)
    ensures forall t :: t in node.taints && t.key == KeyOf(s) <==>
                        allowance < |s.podGroups| && t == Taint(KeyOf(s), Itoa(allowance), NoSchedule)
  {
    forall t: Taint
      ensures t in node.taints && t.key == KeyOf(s) <==> t in OwnTaints(s, node)
    {
      CollectMember(Own(KeyOf(s)), node.taints, t);
    }
  }

  /** In every run the sequence's own taint on a node is tolerated by a pod of group k, steered or not yet, exactly
      as far as the sync that left it allows. */
  lemma {:induction false} TaintAdmitsIff(s: PodSequence, states: seq<State>, steps: seq<Step>, i: nat, n: string,
                                          existing: seq<Toleration>, k: nat)
    requires Run(s, states, steps) && i < |states| && EligibilityMethod(s) == TaintMethod && n in states[i].nodes
    requires 1 <= k < |s.podGroups| && Refuses(existing, KeyOf(s), k)
    ensures LetsPass(s, states[i].nodes[n], existing, k) <==> n !in states[i].tainted || Allows(states[i].tainted[n].state, k)
  {
    RunsAreSafe(s, states, steps, i);
    SafeTaint(s, states[i], n);
    PassesIff(s, states[i].nodes[n], Allowance(s, states[i], n), existing, k);
  }

  lemma {:induction false} SafeTaint(s: PodSequence, st: State, n: string)
    requires NodesSafe(s, st) && EligibilityMethod(s) == TaintMethod && n in st.nodes
    ensures OwnTaints(s, st.nodes[n]) == TaintsFor(s, Allowance(s, st, n))
    ensures n in st.tainted ==> n in st.computed && Recorded(s, n, st.tainted[n])
    ensures n in st.computed ==> Recorded(s, n, st.computed[n])
    ensures n in st.lagging <==> n in st.computed && Looser(s, Allowance(s, st, n), Allowed(s, st.computed[n].state))
  {
    assert NodeSafe(s, st, n);
  }

  /** A steered pod without gates tolerates no taint below its group. */
  lemma {:induction false} SteeredRefuses(s: PodSequence, st: State, uid: string)
    requires PodsSafe(s, st) && EligibilityMethod(s) == TaintMethod && uid in st.pods && uid in st.steered
    ensures var p, k := st.pods[uid], GroupIndexForPod(s, st.pods[uid]);
            1 <= k < |s.podGroups| && Refuses(p.spec.tolerations, KeyOf(s), k)
  {
    assert VersionSafe(s, st, st.pods[uid]);
    FirstGroupIsFirst(s.podGroups, st.pods[uid], 0);
  }

  /** A steered pod that can be bound to a node is in a group the node's taint lets pass. */
  lemma {:induction false} BindMeetsTaint(s: PodSequence, st: State, uid: string, n: string)
    requires Safe(s, st) && EligibilityMethod(s) == TaintMethod && EnabledOnPods(s, st, Bind(uid, n)) && uid in st.steered
    ensures var k := GroupIndexForPod(s, st.pods[uid]);
            1 <= k < |s.podGroups| && k <= Allowance(s, st, n)
  {
    SteeredRefuses(s, st, uid);
    SafeTaint(s, st, n);
    ToleratedIsAllowed(s, st.nodes[n], Allowance(s, st, n), st.pods[uid].spec.tolerations, GroupIndexForPod(s, st.pods[uid]));
  }

  lemma {:induction false} ToleratedIsAllowed(s: PodSequence, node: Node, allowance: nat, tolerations: seq<Toleration>, k: nat)
    requires allowance <= |s.podGroups| && OwnTaints(s, node) == TaintsFor(s, allowance) && k < |s.podGroups|
    requires TaintsTolerated(node.taints, tolerations) && Refuses(tolerations, KeyOf(s), k)
    ensures k <= allowance
  {
    OwnTaintOfNode(s, node, allowance);
    if allowance < |s.podGroups| {
      var t := Taint(KeyOf(s), Itoa(allowance), NoSchedule);
      assert t in node.taints;
      assert Tolerated(tolerations, t);
    }
  }

  /** In every run, a steered pod of group k is only ever bound to a node that no sync has taken effect on since
      it joined, that the latest such sync found not to participate, or that it found with the first k groups
      satisfied. */
  lemma {:induction false} TaintedPodsBindInOrder(s: PodSequence, states: seq<State>, steps: seq<Step>, i: nat)
    requires Run(s, states, steps) && EligibilityMethod(s) == TaintMethod
    requires BindsSteered(s, states, steps, i)
    ensures var st, n, k := states[i], steps[i].node, GroupIndexForPod(s, states[i].pods[steps[i].uid]);
            n !in st.tainted || !st.tainted[n].state.participating || (k >= 1 && Grounded(s, n, st.tainted[n], k))
  {
    RunsAreSafe(s, states, steps, i);
    var st, n, k := states[i], steps[i].node, GroupIndexForPod(s, states[i].pods[steps[i].uid]);
    BindMeetsTaint(s, st, steps[i].uid, n);
    SafeTaint(s, st, n);
    if n in st.tainted && st.tainted[n].state.participating {
      RecordIsGrounded(s, n, st.tainted[n], k);
    }
  }

  /** The exception is real: the taints of a node no sync has taken effect on hold back no pod. */
  lemma {:induction false} UnsyncedNodeAdmitsAll(s: PodSequence, states: seq<State>, steps: seq<Step>, i: nat, n: string,
                                                 tolerations: seq<Toleration>)
    requires Run(s, states, steps) && EligibilityMethod(s) == TaintMethod && i < |states|
    requires n in states[i].nodes && n !in states[i].tainted
    ensures OwnTaintsTolerated(states[i].nodes[n].taints, KeyOf(s), tolerations)
  {
    RunsAreSafe(s, states, steps, i);
    SafeTaint(s, states[i], n);
    OwnTaintOfNode(s, states[i].nodes[n], Allowance(s, states[i], n));
  }

  /** After a sync a node lets pass no more than was computed exactly when its taint was written, or the taint it
      carried before, if any, lets pass no group that the sync would not. */
  lemma {:induction false} SyncLetsPassNoMoreIff(s: PodSequence, input: PlanInput, stored: Node, allowance: nat, cached: Node,
                                                 state: NodeState, applied: bool, retainted: bool, existing: seq<Toleration>)
    requires EligibilityMethod(s) == TaintMethod && Refuses(existing, KeyOf(s), |s.podGroups|)
    requires allowance <= |s.podGroups| && OwnTaints(s, stored) == TaintsFor(s, allowance)
    ensures var after := Retainted(s, input, stored, cached, state, applied, retainted);
            (forall k: nat :: 1 <= k < |s.podGroups| && LetsPass(s, after, existing, k) ==> Allows(state, k))
            <==> || TaintWritten(s, input, stored, cached, state, applied, retainted)
                 || allowance <= Allowed(s, state) || Allowed(s, state) + 1 >= |s.podGroups|
  {
    var after := Retainted(s, input, stored, cached, state, applied, retainted);
    TaintAfterSync(s, input, stored, cached, state, applied, retainted);
    PassesNoMoreIff(s, after, if TaintWritten(s, input, stored, cached, state, applied, retainted) then Allowed(s, state) else allowance,
                    state, existing);
  }

  /** In every run a node follows its latest sync, if it has seen any, exactly when it does not lag. */
  lemma {:induction false} LatestTaintIsFollowedIff(s: PodSequence, states: seq<State>, steps: seq<Step>, i: nat, n: string,
                                                    existing: seq<Toleration>)
    requires Run(s, states, steps) && i < |states| && EligibilityMethod(s) == TaintMethod && Refuses(existing, KeyOf(s), |s.podGroups|)
    requires n in states[i].nodes && n in states[i].computed
    ensures (forall k: nat :: 1 <= k < |s.podGroups| && LetsPass(s, states[i].nodes[n], existing, k) ==> Allows(states[i].computed[n].state, k))
            <==> n !in states[i].lagging
  {
    RunsAreSafe(s, states, steps, i);
    SafeTaint(s, states[i], n);
    PassesNoMoreIff(s, states[i].nodes[n], Allowance(s, states[i], n), states[i].computed[n].state, existing);
  }

  lemma {:induction false} PassesNoMoreIff(s: PodSequence, node: Node, allowance: nat, state: NodeState, existing: seq<Toleration>)
    requires allowance <= |s.podGroups| && OwnTaints(s, node) == TaintsFor(s, allowance) && Refuses(existing, KeyOf(s), |s.podGroups|)
    ensures (forall k: nat :: 1 <= k < |s.podGroups| && LetsPass(s, node, existing, k) ==> Allows(state, k))
            <==> !Looser(s, allowance, Allowed(s, state))
  {
    forall k: nat | 1 <= k < |s.podGroups|
      ensures LetsPass(s, node, existing, k) <==> k <= allowance
      ensures Allows(state, k) <==> k <= Allowed(s, state)
    {
      PassesIff(s, node, allowance, existing, k);
    }
    if Looser(s, allowance, Allowed(s, state)) {
      var k := Allowed(s, state) + 1;
      assert LetsPass(s, node, existing, k) && !Allows(state, k);
    }
  }

  /** Unless the node lags, the most recent sync supports the bind: it found the node not to participate, or with
      the first k groups satisfied. A node without any sync since it joined is not lagging and has no such sync. */
  lemma {:induction false} BindsFollowLatestTaint(s: PodSequence, states: seq<State>, steps: seq<Step>, i: nat)
    requires Run(s, states, steps) && EligibilityMethod(s) == TaintMethod
    requires BindsSteered(s, states, steps, i) && steps[i].node !in states[i].lagging
    ensures var st, n, k := states[i], steps[i].node, GroupIndexForPod(s, states[i].pods[steps[i].uid]);
            n in st.computed && st.computed[n].state.participating ==> k >= 1 && Grounded(s, n, st.computed[n], k)
  {
    RunsAreSafe(s, states, steps, i);
    var st, n, k := states[i], steps[i].node, GroupIndexForPod(s, states[i].pods[steps[i].uid]);
    BindMeetsTaint(s, st, steps[i].uid, n);
    SafeTaint(s, st, n);
    if n in st.computed && st.computed[n].state.participating {
      assert Supports(st.computed[n].state, k);
      RecordIsGrounded(s, n, st.computed[n], k);
    }
  }

  /** In a run no sync of which leaves its node lagging, this is so of every bind. */
  lemma {:induction false} LagFreeRunsFollowLatestTaint(s: PodSequence, states: seq<State>, steps: seq<Step>, i: nat)
    requires Run(s, states, steps) && EligibilityMethod(s) == TaintMethod
    requires forall j :: 0 <= j < |steps| ==> !LeavesLag(s, states[j], steps[j])
    requires BindsSteered(s, states, steps, i)
    ensures var st, n, k := states[i], steps[i].node, GroupIndexForPod(s, states[i].pods[steps[i].uid]);
            n in st.computed && st.computed[n].state.participating ==> k >= 1 && Grounded(s, n, st.computed[n], k)
  {
    NoLagIff(s, states, steps, i);
    BindsFollowLatestTaint(s, states, steps, i);
  }
}
