/** What one pass over a node-scoped sequence achieves where its copies are current and its patches are applied: which
    pods lose their gate, and on which nodes the released ones may land, in terms of the groups satisfied there. */
module PassMeaning {
  import opened Kube
  import opened Sequence
  import opened NodePlanSpec
  import opened PlanMeaning
  import opened PlanOrder
  import opened PlanActions
  import opened PodEdits
  import opened Steering
  import opened Release
  import opened Quiescence
  import opened NodeScoped

  /** The first k groups are satisfied on the node, which takes part in the sequence. */
  ghost predicate Reached(input: PlanInput, n: Node, k: nat)
    requires k <= NumGroups(input)
  {
    Participating(input, n) && forall j :: 0 <= j < k ==> GroupHolds(input, n, j)
  }

  /** The stored node after a pass with a current copy of it. */
  function SyncedNode(input: PlanInput, versions: string -> nat, n: Node, taintPatch: PatchResult): Node
  {
    NodeSynced(input, versions, n, Versioned(n, versions(n.name)), Patches(Applied, taintPatch)).0.node
  }

  /** The stored spec after a pass with a current copy of the pod. */
  function HandledSpec(input: PlanInput, p: Pod): PodSpec
  {
    SpecAfter(input, p, (p.spec, p.version), Patches(Applied, Applied))
  }

  lemma {:induction false} ReportIsReached(input: PlanInput, n: Node, k: nat)
    requires UniqueNames(input.nodes) && n in input.nodes && k <= NumGroups(input)
    ensures ReportedState(input, n).participating == Participating(input, n)
    ensures ReportedState(input, n).participating && ReportedState(input, n).satisfied >= k <==> Reached(input, n, k)
  {
    FailedMeaning(input, n);
    if Participating(input, n) {
      SatisfiedIsLongestPrefix(input, n, k);
    }
  }

  /** In NodeLabel mode the requirement of group k then holds on a node exactly if the first k groups are satisfied
      there. */
  lemma {:induction false} PassLabelsNodes(input: PlanInput, versions: string -> nat, n: Node, taintPatch: PatchResult, k: nat)
    requires UniqueNames(input.nodes) && n in input.nodes && 1 <= k <= NumGroups(input)
    requires EligibilityMethod(input.sequence) != TaintMethod
    ensures RequirementHolds(EligibilityRequirement(Key(input), k), SyncedNode(input, versions, n, taintPatch).labels) <==> Reached(input, n, k)
  {
    var st := ReportedState(input, n);
    ReportIsReached(input, n, k);
    LabelEncodesProgress(n, Key(input), EligibilityMethod(input.sequence), NumGroups(input), st, LabelInUse(input), k);
    NoPatchMeansNoChange(n.labels, Key(input), WantLabel(n.labels, Key(input), EligibilityMethod(input.sequence), st, LabelInUse(input)));
  }

  /** In Taint mode a pod of group k that tolerates nothing of the key by itself is held off by a node's own taints
      exactly if the node takes part and one of the first k groups is not satisfied there. */
  lemma {:induction false} PassTaintsNodes(input: PlanInput, versions: string -> nat, n: Node, existing: seq<Toleration>, k: nat)
    requires UniqueNames(input.nodes) && n in input.nodes && 1 <= k < NumGroups(input) && Intolerant(existing, Key(input))
    requires EligibilityMethod(input.sequence) == TaintMethod
    ensures OwnTaintsTolerated(SyncedNode(input, versions, n, Applied).taints, Key(input),
                               WithTolerations(existing, EligibilityTolerations(Key(input), k, NumGroups(input))))
            <==> !Participating(input, n) || Reached(input, n, k)
  {
    ReportIsReached(input, n, k);
    SmoothPassSyncs(input, versions, n);
    TaintSteeringIsExact(n, Key(input), NumGroups(input), ReportedState(input, n), LabelInUse(input), existing, k);
  }

  /** Some node of the pod's target name takes part, and has not satisfied all groups before the pod's own. */
  ghost predicate HeldBack(input: PlanInput, p: Pod)
  {
    && GroupIndexForPod(input.sequence, p) >= 0 && !Bypassed(p) && TargetNode(p.spec) != ""
    && exists n :: n in input.nodes && n.name == TargetNode(p.spec) && Participating(input, n)
                   && !Reached(input, n, GroupIndexForPod(input.sequence, p))
  }

  lemma {:induction false} KeptIffHeldBack(input: PlanInput, m: Member)
    requires UniqueNames(input.nodes) && m in Members(input) && HasGate(m.pod.spec, Gate(input))
    ensures Kept(input, BaseStates(input), m) <==> HeldBack(input, m.pod)
  {
    MembersMeaning(input, m);
    if Kept(input, BaseStates(input), m) {
      var n := KeptMeaning(input, m);
      KeptIffEarlierGroupOpen(input, m, n);
    }
    if HeldBack(input, m.pod) {
      var n :| n in input.nodes && n.name == m.node && Participating(input, n) && !Reached(input, n, m.group);
      KeptIffEarlierGroupOpen(input, m, n);
    }
  }

  lemma {:induction false} GateGoesWithAction(input: PlanInput, p: Pod)
    requires GateName(input.sequence) in p.spec.gates
    ensures GateName(input.sequence) in HandledSpec(input, p).gates <==> ActionFor(input, p).None?
  {
    if ActionFor(input, p).Some? {
      SmoothPassStores(input, p);
      WithoutGateMember(p.spec.gates, Gate(input), Gate(input));
    }
  }

  /** A pod the plan has to account for keeps its gate exactly if it is a member, not bypassed, pinned to a node that
      takes part, and some group before its own is not satisfied there. */
  lemma {:induction false} PassReleasesPods(input: PlanInput, p: Pod)
    requires UniqueNames(input.nodes) && p in input.pods && Accountable(input, p)
    ensures GateName(input.sequence) in HandledSpec(input, p).gates <==> HeldBack(input, p)
  {
    GateGoesWithAction(input, p);
    if AsMember(input)(p).Some? {
      var m := AsMember(input)(p).value;
      MembersMeaning(input, m);
      KeptIffHeldBack(input, m);
    }
  }

  /** No other pod is touched. */
  lemma {:induction false} PassSparesOthers(input: PlanInput, p: Pod, before: (PodSpec, nat), patches: Patches)
    requires !Accountable(input, p)
    ensures SpecAfter(input, p, before, patches) == before.0
  {
  }

  /** From a stale copy nothing lands on a pod, and unless it is gone the pass says so if it had an action for it. */
  lemma {:induction false} StalePodIsLeft(input: PlanInput, p: Pod, before: (PodSpec, nat), patches: Patches)
    requires before.1 != p.version && p in input.pods
    ensures SpecAfter(input, p, before, patches) == before.0
    ensures ActionFor(input, p).Some? && patches.first != NotFound && patches.second != NotFound ==>
              HandlingFails(ActionFor(input, p).value, before, GateName(input.sequence), patches)
  {
    if ActionFor(input, p).Some? {
      var a := ActionFor(input, p).value;
      ActionIsPlanned(input, p, a);
      ActionFailsIff(a.pod.spec, a, Gate(input), false, patches.first, patches.second);
    }
  }

  lemma {:induction false} HandledIsConstrained(input: PlanInput, p: Pod) returns (a: PodAction)
    requires p in input.pods && Accountable(input, p) && Unpinned(input, p)
    ensures a in Ungate(input) && a.pod == p && HandledSpec(input, p) == Ungated(Constrained(p.spec, a), GateName(input.sequence))
  {
    a := ActionFor(input, p).value;
    SmoothPassStores(input, p);
    ActionIsPlanned(input, p, a);
  }

  /** A pod without a target of its own, of a later group k, is released by the pass; in NodeLabel mode its affinity
      then lets it onto a synced node exactly if it did before and the first k groups are satisfied there. */
  lemma {:induction false} LabelledPassIsOrderly(input: PlanInput, versions: string -> nat, p: Pod, n: Node)
    requires UniqueNames(input.nodes) && n in input.nodes && p in input.pods && Accountable(input, p) && Unpinned(input, p)
    requires GroupIndexForPod(input.sequence, p) >= 1 && EligibilityMethod(input.sequence) != TaintMethod
    requires !Degenerate(p.spec.required) && Intolerant(p.spec.tolerations, Key(input))
    ensures GateName(input.sequence) !in HandledSpec(input, p).gates
    ensures var after := SyncedNode(input, versions, n, Applied);
            AffinityMatches(HandledSpec(input, p), after)
            <==> AffinityMatches(p.spec, after) && Reached(input, n, GroupIndexForPod(input.sequence, p))
  {
    var a := HandledIsConstrained(input, p);
    GateGoesWithAction(input, p);
    SmoothPassSyncs(input, versions, n);
    ReportIsReached(input, n, GroupIndexForPod(input.sequence, p));
    LaterGroupsAreSteered(input, a, n, ReportedState(input, n), LabelInUse(input));
    SameAffinity(Constrained(p.spec, a), HandledSpec(input, p), SyncedNode(input, versions, n, Applied));
  }

  lemma {:induction false} SameAffinity(a: PodSpec, b: PodSpec, n: Node)
    requires a.required == b.required && a.nodeSelector == b.nodeSelector
    ensures AffinityMatches(a, n) == AffinityMatches(b, n)
  {
  }

  /** In Taint mode it is the node's own taints that it then tolerates, exactly if the node takes no part or the first
      k groups are satisfied there. */
  lemma {:induction false} TaintedPassIsOrderly(input: PlanInput, versions: string -> nat, p: Pod, n: Node)
    requires UniqueNames(input.nodes) && n in input.nodes && p in input.pods && Accountable(input, p) && Unpinned(input, p)
    requires GroupIndexForPod(input.sequence, p) >= 1 && EligibilityMethod(input.sequence) == TaintMethod
    requires !Degenerate(p.spec.required) && Intolerant(p.spec.tolerations, Key(input))
    ensures GateName(input.sequence) !in HandledSpec(input, p).gates
    ensures OwnTaintsTolerated(SyncedNode(input, versions, n, Applied).taints, Key(input), HandledSpec(input, p).tolerations)
            <==> !Participating(input, n) || Reached(input, n, GroupIndexForPod(input.sequence, p))
  {
    var a := HandledIsConstrained(input, p);
    GateGoesWithAction(input, p);
    SmoothPassSyncs(input, versions, n);
    ReportIsReached(input, n, GroupIndexForPod(input.sequence, p));
    LaterGroupsAreSteered(input, a, n, ReportedState(input, n), LabelInUse(input));
  }

  /** After a switch to Taint mode a pass keeps the label of a node it shows open for each listed pod that is still
      pending on it. */
  lemma {:induction false} PassStrandsNoPendingPod(input: PlanInput, versions: string -> nat, n: Node, taintPatch: PatchResult, p: Pod, k: nat)
    requires EligibilityMethod(input.sequence) == TaintMethod && Key(input) in n.labels
    requires 1 <= k <= 999999 && p in input.pods && PendingOn(p, Key(input), k)
    ensures RequirementHolds(EligibilityRequirement(Key(input), k), SyncedNode(input, versions, n, taintPatch).labels)
  {
    var stored := Versioned(n, versions(n.name));
    TaintSwitchNeverStrands(stored, stored, input.sequence.digest, NumGroups(input), ReportedState(input, n), input.pods, taintPatch, p, k);
  }
}
