/** What the actions of a plan do to the pods they release: who is steered, who is left as created, and why. */
module PlanActions {
  import opened Options
  import opened Kube
  import opened Sequence
  import opened NodePlanSpec
  import opened PlanMeaning
  import opened PodEdits
  import opened Steering

  predicate Bypassed(p: Pod)
  {
    BYPASS_ANNOTATION in p.annotations && p.annotations[BYPASS_ANNOTATION] == "true"
  }

  /** Only members that are free to go anywhere, and not bypassed, may have to be steered. */
  predicate Unpinned(input: PlanInput, p: Pod)
  {
    && GroupIndexForPod(input.sequence, p) >= 0 && TargetNode(p.spec) == ""
    && !Bypassed(p)
  }

  /** The group an action is about is that of its pod; a stray has none. */
  lemma {:induction false} ActionIsOfMember(input: PlanInput, a: PodAction)
    requires a in Ungate(input)
    ensures a.pod in input.pods && a.group == GroupIndexForPod(input.sequence, a.pod)
    ensures a.group < 0 ==> StrayAction(input)(a.pod) == Some(a)
    ensures a.group >= 0 ==> MemberAction(input, BaseStates(input))(Member(a.pod, a.group, TargetNode(a.pod.spec))) == Some(a)
  {
    UngateMember(input, a);
    if a.pod !in input.pods || StrayAction(input)(a.pod) != Some(a) {
      var m :| m in Members(input) && MemberAction(input, BaseStates(input))(m) == Some(a);
      MembersMeaning(input, m);
      SatisfiedMember(input, BaseStates(input), m, a);
    }
  }

  /** The reasons a verdict gives, and that only unpinned members get constraints. */
  lemma {:induction false} VerdictMeaning(input: PlanInput, states: seq<NodeState>, m: Member)
    requires Verdict(input, states, m).Some?
    ensures var a := Verdict(input, states, m).value;
            && (a.reason == ReasonBypass <==> Bypassed(m.pod))
            && (a.reason == ReasonUnpinned <==> !Bypassed(m.pod) && m.node == "")
            && (a.reason in {ReasonNodeMissing, ReasonNotParticipating, ReasonSatisfied} <==> !Bypassed(m.pod) && m.node != "")
            && (a.reason != ReasonUnpinned ==> NoConstraints(a))
            && (m.group == 0 && EligibilityMethod(input.sequence) != TaintMethod ==> NoConstraints(a))
  {
  }

  predicate NoConstraints(a: PodAction)
  {
    a.addAffinity == None && a.addTolerations == []
  }

  lemma {:induction false} NoConstraintsNoChange(spec: PodSpec, a: PodAction)
    requires NoConstraints(a)
    ensures Constrained(spec, a) == spec
  {
  }

  /** Bypassed pods, pinned pods and strays are released as they are, and in NodeLabel mode so are the pods of the
      first group: no node has to come far for them. */
  lemma {:induction false} OthersKeepTheirSpec(input: PlanInput, a: PodAction)
    requires a in Ungate(input)
    requires !Unpinned(input, a.pod) || (GroupIndexForPod(input.sequence, a.pod) == 0 && EligibilityMethod(input.sequence) != TaintMethod)
    ensures Constrained(a.pod.spec, a) == a.pod.spec
  {
    ActionIsOfMember(input, a);
    if a.group >= 0 {
      VerdictMeaning(input, BaseStates(input), Member(a.pod, a.group, TargetNode(a.pod.spec)));
    }
    NoConstraintsNoChange(a.pod.spec, a);
  }

  /** In Taint mode an unpinned pod of the first group tolerates the own taints of every synced node, and its
      affinity is left alone. */
  lemma {:induction false} FirstGroupGoesAnywhere(input: PlanInput, a: PodAction, node: Node, st: NodeState, labelInUse: bool)
    requires a in Ungate(input) && Unpinned(input, a.pod) && GroupIndexForPod(input.sequence, a.pod) == 0
    requires EligibilityMethod(input.sequence) == TaintMethod
    ensures var after, spec := Synced(node, Key(input), TaintMethod, NumGroups(input), st, labelInUse), Constrained(a.pod.spec, a);
            OwnTaintsTolerated(after.taints, Key(input), spec.tolerations) && spec.required == a.pod.spec.required
  {
    ActionIsOfMember(input, a);
    FirstGroupTolerates(node, Key(input), NumGroups(input), st, labelInUse, a.pod.spec.tolerations);
  }

  /** An unpinned pod of a later group k is released so that a synced node suits it exactly if it did before and,
      in NodeLabel mode, participates with at least k satisfied groups; in Taint mode it is the own taints that say
      so, and let pass nodes that do not participate. */
  lemma {:induction false} LaterGroupsAreSteered(input: PlanInput, a: PodAction, node: Node, st: NodeState, labelInUse: bool)
    requires a in Ungate(input) && Unpinned(input, a.pod) && GroupIndexForPod(input.sequence, a.pod) >= 1
    requires !Degenerate(a.pod.spec.required) && Intolerant(a.pod.spec.tolerations, Key(input))
    ensures var k, spec, after := GroupIndexForPod(input.sequence, a.pod), Constrained(a.pod.spec, a),
                                  Synced(node, Key(input), EligibilityMethod(input.sequence), NumGroups(input), st, labelInUse);
            if EligibilityMethod(input.sequence) == TaintMethod then
              && (OwnTaintsTolerated(after.taints, Key(input), spec.tolerations) <==> !st.participating || st.satisfied >= k)
              && spec.required == a.pod.spec.required
            else
              && (AffinityMatches(spec, after) <==> AffinityMatches(a.pod.spec, after) && st.participating && st.satisfied >= k)
              && spec.tolerations == a.pod.spec.tolerations
  {
    ActionIsOfMember(input, a);
    var k, mode := GroupIndexForPod(input.sequence, a.pod), EligibilityMethod(input.sequence);
    if mode == TaintMethod {
      TaintSteeringIsExact(node, Key(input), NumGroups(input), st, labelInUse, a.pod.spec.tolerations, k);
    } else {
      LabelSteeringIsExact(node, Key(input), mode, NumGroups(input), st, labelInUse, a.pod.spec, k);
    }
  }

  /** Why a pod is released, in terms of the pod. */
  lemma {:induction false} ReasonMeaning(input: PlanInput, a: PodAction)
    requires a in Ungate(input)
    ensures a.reason == ReasonNoGroup <==> GroupIndexForPod(input.sequence, a.pod) < 0
    ensures a.reason == ReasonBypass <==> GroupIndexForPod(input.sequence, a.pod) >= 0 && Bypassed(a.pod)
    ensures a.reason == ReasonUnpinned <==> Unpinned(input, a.pod)
    ensures a.reason in {ReasonNodeMissing, ReasonNotParticipating, ReasonSatisfied} <==>
            GroupIndexForPod(input.sequence, a.pod) >= 0 && !Bypassed(a.pod) && TargetNode(a.pod.spec) != ""
  {
    ActionIsOfMember(input, a);
    if a.group >= 0 {
      VerdictMeaning(input, BaseStates(input), Member(a.pod, a.group, TargetNode(a.pod.spec)));
    }
  }

  /** And, of a pinned one, in terms of its node: there is none of that name, or it does not participate, or it has
      come far enough. */
  lemma {:induction false} NodeReasonMeaning(input: PlanInput, a: PodAction)
    requires a in Ungate(input) && UniqueNames(input.nodes)
    ensures a.reason == ReasonNodeMissing ==> forall n :: n in input.nodes ==> n.name != TargetNode(a.pod.spec)
    ensures a.reason == ReasonNotParticipating ==>
              exists n :: n in input.nodes && n.name == TargetNode(a.pod.spec) && !Participating(input, n)
    ensures a.reason == ReasonSatisfied ==>
              exists n :: n in input.nodes && n.name == TargetNode(a.pod.spec) && Participating(input, n)
                          && BaseState(input, n).satisfied >= a.group
  {
    ActionIsOfMember(input, a);
    ReasonMeaning(input, a);
    TargetIsLookedUp(input, TargetNode(a.pod.spec));
  }

  lemma {:induction false} TargetIsLookedUp(input: PlanInput, target: string)
    requires UniqueNames(input.nodes)
    ensures match Lookup(BaseStates(input), target)
            case None => forall n :: n in input.nodes ==> n.name != target
            case Some(i) => exists n :: n in input.nodes && n.name == target && BaseStates(input)[i] == BaseState(input, n)
                                        && (BaseStates(input)[i].participating <==> Participating(input, n))
  {
    if Lookup(BaseStates(input), target).Some? {
      var n := LookupIsNode(input, target);
    } else {
      forall n | n in input.nodes
        ensures n.name != target
      {
        LookupNode(input, n);
      }
    }
  }
}
