/** The planner as the controller runs it: one object filled in by loops over groups, pods, nodes and
    members, with early exits. Every method is proved against NodePlanSpec. */
module NodePlans {
  import opened Options
  import opened Collections
  import opened Kube
  import opened Sequence
  import opened DaemonSets
  import opened NodePlanSpec

  method GroupSatisfiedOnNode(g: PodGroup, node: Node, pods: seq<Pod>, daemonSets: seq<DaemonSet>, wait: int, now: int,
                              key: string)
    returns (ok: bool, remaining: int, message: Block)
    ensures message == GroupBlock(g, node, pods, daemonSets, wait, now, key)
    ensures ok == (message == Clear)
    ensures remaining == if message.Waiting? then message.remaining else 0
  {
    for i := 0 to |daemonSets|
      invariant FirstUncovered(daemonSets, node, pods, key) == FirstUncovered(daemonSets[i..], node, pods, key)
    {
      var ds := daemonSets[i];
      var expected := CheckExpectedOnNode(ds, node, key);
      if expected {
        var found := false;
        for k := 0 to |pods|
          invariant found <==> exists p :: p in pods[..k] && OwnedBy(p, ds.uid)
        {
          assert pods[..k + 1] == pods[..k] + [pods[k]];
          if OwnedBy(pods[k], ds.uid) {
            found := true;
            assert pods[k] in pods;
            break;
          }
        }
        assert found <==> exists p :: p in pods && OwnedBy(p, ds.uid) by {
          assert pods[..|pods|] == pods;
        }
        if !found {
          return false, 0, MissingDaemonPod(ds.name);
        }
      }
    }
    if |pods| == 0 {
      if GroupPolicy(g) == RequireOnNode {
        return false, 0, NoPodOnNode;
      }
      return true, 0, Clear;
    }
    var maxRemaining := 0;
    for i := 0 to |pods|
      invariant FirstUnready(pods) == FirstUnready(pods[i..])
      invariant maxRemaining == MaxRemaining(pods[..i], wait, now)
    {
      if !IsPodReady(pods[i]) {
        return false, 0, PodNotReady(pods[i].name);
      }
      assert pods[..i + 1][..i] == pods[..i];
      var rem := ReadyRemaining(pods[i], wait, now);
      if rem > maxRemaining {
        maxRemaining := rem;
      }
    }
    assert pods[..|pods|] == pods;
    if maxRemaining > 0 {
      return false, maxRemaining, Waiting(maxRemaining);
    }
    return true, 0, Clear;
  }

  lemma {:induction false} SoonestSnoc(current: int, ds: seq<int>, d: int)
    ensures Soonest(current, ds + [d]) == Sooner(Soonest(current, ds), d)
  {
    assert (ds + [d])[..|ds|] == ds;
  }

  lemma {:induction false} LookupSnoc(states: seq<NodeState>, st: NodeState, name: string)
    ensures Lookup(states + [st], name) == if st.name == name then Some(|states|) else Lookup(states, name)
  {
    assert (states + [st])[..|states|] == states;
  }

  /** Marking nodes failed changes nothing else about them. */
  lemma {:induction false} MarkFailedKeeps(input: PlanInput, states: seq<NodeState>, members: seq<Member>)
    ensures forall i :: 0 <= i < |states| ==>
              MarkFailed(input, states, members)[i].(failed := states[i].failed) == states[i]
  {
    if members != [] {
      MarkFailedKeeps(input, states, members[..|members| - 1]);
    }
  }

  /** A map from node name to the node's pods by group holds exactly the pods of the given members. */
  ghost predicate Groups(byNode: map<string, seq<seq<Pod>>>, members: seq<Member>, numGroups: nat)
  {
    && (forall n :: n in byNode ==> |byNode[n]| == numGroups)
    && (forall n, j: nat :: n in byNode && j < numGroups ==> byNode[n][j] == Collect(OnNode(n, j), members))
    && (forall n, j: nat :: n !in byNode ==> Collect(OnNode(n, j), members) == [])
  }

  ghost predicate GroupDaemonSets(input: PlanInput, dsByGroup: seq<seq<DaemonSet>>)
  {
    && |dsByGroup| == NumGroups(input)
    && forall j :: 0 <= j < |dsByGroup| ==> dsByGroup[j] == DaemonSetsForGroup(input.daemonSets, input.sequence.podGroups[j])
  }

  /** The waits and DaemonSets read once per group. */
  ghost predicate GroupData(input: PlanInput, waits: seq<int>, dsByGroup: seq<seq<DaemonSet>>)
  {
    && GroupDaemonSets(input, dsByGroup)
    && |waits| == NumGroups(input)
    && forall j :: 0 <= j < |waits| ==> waits[j] == WaitOf(input.sequence.podGroups[j])
  }

  /** A map from names to indices agrees with the last entry of each name. */
  ghost predicate Indexes(stateIdx: map<string, nat>, states: seq<NodeState>)
  {
    forall name :: Lookup(states, name) == if name in stateIdx then Some(stateIdx[name]) else None
  }

  class NodePlan {
    var nodes: seq<NodeState>
    var ungate: seq<PodAction>
    var gatedPods: nat
    var timedOut: seq<TimedOutPod>
    var missingToleration: seq<string>
    var requeueAfter: int

    constructor ()
      ensures nodes == [] && ungate == [] && gatedPods == 0 && timedOut == [] && missingToleration == [] && requeueAfter == 0
    {
      nodes, ungate, gatedPods, timedOut, missingToleration, requeueAfter := [], [], 0, [], [], 0;
    }

    /** The plan is the one the specification describes. */
    predicate Realizes(input: PlanInput)
      reads this
    {
      && nodes == FinalStates(input)
      && ungate == Ungate(input)
      && gatedPods == GatedPods(input)
      && timedOut == TimedOut(input)
      && missingToleration == MissingToleration(input)
      && requeueAfter == RequeueAfter(input)
    }

    method Requeue(d: int)
      modifies this`requeueAfter
      ensures requeueAfter == Sooner(old(requeueAfter), d)
    {
      if d <= 0 {
        return;
      }
      if requeueAfter == 0 || d < requeueAfter {
        requeueAfter := d;
      }
    }

    method ProbeTolerations(input: PlanInput, dsByGroup: seq<seq<DaemonSet>>)
      requires GroupDaemonSets(input, dsByGroup)
      requires missingToleration == []
      modifies this`missingToleration
      ensures missingToleration == MissingFrom(input, NumGroups(input))
    {
      var probe := Taint(Key(input), "0", NoSchedule);
      for j := 0 to |dsByGroup|
        invariant missingToleration == MissingFrom(input, j)
      {
        var dsList := dsByGroup[j];
        for i := 0 to |dsList|
          invariant missingToleration == MissingFrom(input, j) + Collect(Untolerating(Key(input)), dsList[..i])
        {
          CollectSnoc(Untolerating(Key(input)), dsList, i);
          if !Tolerated(dsList[i].template.tolerations, probe) {
            missingToleration := missingToleration + [dsList[i].name];
          }
        }
        CollectWhole(Untolerating(Key(input)), dsList);
      }
    }

    method CollectMembers(input: PlanInput) returns (members: seq<Member>, byNode: map<string, seq<seq<Pod>>>)
      requires ungate == []
      modifies this`ungate
      ensures members == Members(input)
      ensures Groups(byNode, members, NumGroups(input))
      ensures ungate == Collect(StrayAction(input), input.pods)
    {
      members, byNode := [], map[];
      for i := 0 to |input.pods|
        invariant members == Collect(AsMember(input), input.pods[..i])
        invariant ungate == Collect(StrayAction(input), input.pods[..i])
        invariant Groups(byNode, members, NumGroups(input))
      {
        var pod := input.pods[i];
        CollectSnoc(AsMember(input), input.pods, i);
        CollectSnoc(StrayAction(input), input.pods, i);
        if pod.namespace != TargetNamespace(input.sequence) {
          continue;
        }
        var idx := FindGroupIndex(input.sequence, pod);
        if idx < 0 {
          if HasGate(pod.spec, Gate(input)) && OptedIn(input.sequence, pod) && IsActive(pod) {
            ungate := ungate + [PodAction(pod, -1, ReasonNoGroup, None, [])];
          }
          continue;
        }
        if !IsActive(pod) {
          continue;
        }
        var node := FindTargetNode(pod.spec);
        var m := Member(pod, idx, node);
        byNode := AddToNode(byNode, members, m, NumGroups(input));
        members := members + [m];
      }
      CollectWhole(AsMember(input), input.pods);
      CollectWhole(StrayAction(input), input.pods);
    }

    static method AddToNode(byNode: map<string, seq<seq<Pod>>>, ghost members: seq<Member>, m: Member, numGroups: nat)
      returns (r: map<string, seq<seq<Pod>>>)
      requires Groups(byNode, members, numGroups) && m.group < numGroups
      ensures Groups(r, members + [m], numGroups)
    {
      r := byNode;
      if m.node != "" {
        if m.node !in r {
          r := r[m.node := seq(numGroups, _ => [])];
        }
        r := r[m.node := r[m.node][m.group := r[m.node][m.group] + [m.pod]]];
      }
      forall n: string, j: nat
        ensures Collect(OnNode(n, j), members + [m])
                == Collect(OnNode(n, j), members) + if n == m.node && n != "" && j == m.group then [m.pod] else []
      {
        assert (members + [m])[..|members|] == members;
      }
    }

    method EvaluateNode(input: PlanInput, node: Node, byNode: map<string, seq<seq<Pod>>>, dsByGroup: seq<seq<DaemonSet>>,
                        waits: seq<int>) returns (st: NodeState)
      requires Groups(byNode, Members(input), NumGroups(input))
      requires GroupData(input, waits, dsByGroup)
      modifies this`requeueAfter
      ensures st == BaseState(input, node)
      ensures requeueAfter == Sooner(old(requeueAfter), if st.message.Waiting? then st.message.remaining else 0)
    {
      st := NodeState(node.name, false, 0, Clear, false);
      if Participating(input, node) {
        st := st.(participating := true, satisfied := NumGroups(input));
        for j := 0 to NumGroups(input)
          invariant SatisfiedFrom(input, node, 0) == SatisfiedFrom(input, node, j)
          invariant requeueAfter == old(requeueAfter)
          invariant st == NodeState(node.name, true, NumGroups(input), Clear, false)
        {
          var podsHere: seq<Pod> := [];
          if node.name in byNode {
            podsHere := byNode[node.name][j];
          }
          assert podsHere == PodsOn(input, node.name, j);
          var ok, remaining, message := GroupSatisfiedOnNode(input.sequence.podGroups[j], node, podsHere, dsByGroup[j],
                                                             waits[j], input.now, Key(input));
          assert message == BlockOf(input, node, j);
          Requeue(remaining);
          if !ok {
            st := st.(satisfied := j, message := message);
            break;
          }
        }
      }
    }

    method EvaluateNodes(input: PlanInput, byNode: map<string, seq<seq<Pod>>>, dsByGroup: seq<seq<DaemonSet>>,
                         waits: seq<int>) returns (stateIdx: map<string, nat>)
      requires Groups(byNode, Members(input), NumGroups(input))
      requires GroupData(input, waits, dsByGroup)
      requires nodes == [] && requeueAfter == 0
      modifies this`nodes, this`requeueAfter
      ensures nodes == BaseStates(input)
      ensures Indexes(stateIdx, nodes)
      ensures requeueAfter == Soonest(0, Collect(NodeWait(), nodes))
    {
      var sorted := SortByName(input.nodes);
      stateIdx := map[];
      for i := 0 to |sorted|
        invariant nodes == StatesOf(input, sorted[..i])
        invariant Indexes(stateIdx, nodes)
        invariant requeueAfter == Soonest(0, Collect(NodeWait(), nodes))
      {
        var st := EvaluateNode(input, sorted[i], byNode, dsByGroup, waits);
        stateIdx, nodes := AppendState(stateIdx, nodes, st);
        assert sorted[..i + 1][..i] == sorted[..i];
      }
      assert sorted[..|sorted|] == sorted;
    }

    static method AppendState(stateIdx: map<string, nat>, nodes: seq<NodeState>, st: NodeState)
      returns (idx: map<string, nat>, all: seq<NodeState>)
      requires Indexes(stateIdx, nodes)
      ensures all == nodes + [st] && Indexes(idx, all)
      ensures Soonest(0, Collect(NodeWait(), all))
              == Sooner(Soonest(0, Collect(NodeWait(), nodes)), if st.message.Waiting? then st.message.remaining else 0)
    {
      idx := stateIdx[st.name := |nodes|];
      all := nodes + [st];
      assert all[..|nodes|] == nodes;
      if st.message.Waiting? {
        SoonestSnoc(0, Collect(NodeWait(), nodes), st.message.remaining);
      }
      forall name
        ensures Lookup(all, name) == if name in idx then Some(idx[name]) else None
      {
        LookupSnoc(nodes, st, name);
      }
    }

    /** One member: base are the states before any was marked failed. */
    method DecideMember(input: PlanInput, m: Member, stateIdx: map<string, nat>, ghost base: seq<NodeState>)
      requires |nodes| == |base| && forall i :: 0 <= i < |base| ==> nodes[i].(failed := base[i].failed) == base[i]
      requires Indexes(stateIdx, base)
      modifies this
      ensures missingToleration == old(missingToleration)
      ensures nodes == MarkOne(input, base, old(nodes), m)
      ensures ungate == old(ungate) + (match MemberAction(input, base)(m) case None => [] case Some(a) => [a])
      ensures gatedPods == old(gatedPods) + if Kept(input, base, m) then 1 else 0
      ensures timedOut == old(timedOut) + (match TimeoutEntry(input, base)(m) case None => [] case Some(t) => [t])
      ensures requeueAfter == (match DeadlineWait(input, base)(m) case None => old(requeueAfter) case Some(d) => Sooner(old(requeueAfter), d))
    {
      assert Lookup(base, m.node) == if m.node in stateIdx then Some(stateIdx[m.node]) else None;
      if !HasGate(m.pod.spec, Gate(input)) {
        return;
      }
      if IsBypassed(m.pod) {
        ungate := ungate + [PodAction(m.pod, m.group, ReasonBypass, None, [])];
        return;
      }
      if m.node == "" {
        var a := BuildUnpinnedAction(input, m);
        ungate := ungate + [a];
        return;
      }
      if m.node !in stateIdx {
        ungate := ungate + [PodAction(m.pod, m.group, ReasonNodeMissing, None, [])];
        return;
      }
      var si := stateIdx[m.node];
      assert nodes[si].(failed := base[si].failed) == base[si];
      if !nodes[si].participating {
        ungate := ungate + [PodAction(m.pod, m.group, ReasonNotParticipating, None, [])];
      } else if nodes[si].satisfied >= m.group {
        ungate := ungate + [PodAction(m.pod, m.group, ReasonSatisfied, None, [])];
      } else {
        gatedPods := gatedPods + 1;
        if input.sequence.gateTimeout.Some? && input.sequence.gateTimeout.value > 0 {
          var deadline := m.pod.created + input.sequence.gateTimeout.value;
          if !(input.now < deadline) {
            nodes := nodes[si := nodes[si].(failed := true)];
            timedOut := timedOut + [TimedOutPod(m.pod, m.node, m.group)];
          } else {
            Requeue(deadline - input.now);
          }
        }
      }
    }

    method DecideMembers(input: PlanInput, members: seq<Member>, stateIdx: map<string, nat>)
      requires Indexes(stateIdx, nodes)
      requires gatedPods == 0 && timedOut == []
      requires requeueAfter == Soonest(0, Collect(NodeWait(), nodes))
      modifies this
      ensures nodes == MarkFailed(input, old(nodes), members)
      ensures ungate == old(ungate) + Collect(MemberAction(input, old(nodes)), members)
      ensures gatedPods == |Collect(KeptPod(input, old(nodes)), members)|
      ensures timedOut == Collect(TimeoutEntry(input, old(nodes)), members)
      ensures requeueAfter == Soonest(0, Collect(NodeWait(), old(nodes)) + Collect(DeadlineWait(input, old(nodes)), members))
      ensures missingToleration == old(missingToleration)
    {
      ghost var base := nodes;
      ghost var waits := Collect(NodeWait(), base);
      assert waits + [] == waits;
      for i := 0 to |members|
        invariant nodes == MarkFailed(input, base, members[..i])
        invariant ungate == old(ungate) + Collect(MemberAction(input, base), members[..i])
        invariant gatedPods == |Collect(KeptPod(input, base), members[..i])|
        invariant timedOut == Collect(TimeoutEntry(input, base), members[..i])
        invariant requeueAfter == Soonest(0, waits + Collect(DeadlineWait(input, base), members[..i]))
        invariant missingToleration == old(missingToleration)
      {
        MarkFailedKeeps(input, base, members[..i]);
        DecideMember(input, members[i], stateIdx, base);
        StepProof(input, base, members, i);
      }
      assert members[..|members|] == members;
    }

    static lemma StepProof(input: PlanInput, base: seq<NodeState>, members: seq<Member>, i: nat)
      requires i < |members|
      ensures var m, next, done := members[i], members[..i + 1], members[..i];
              && MarkFailed(input, base, next) == MarkOne(input, base, MarkFailed(input, base, done), m)
              && Collect(MemberAction(input, base), next)
                 == Collect(MemberAction(input, base), done) + (match MemberAction(input, base)(m) case None => [] case Some(a) => [a])
              && |Collect(KeptPod(input, base), next)| == |Collect(KeptPod(input, base), done)| + (if Kept(input, base, m) then 1 else 0)
              && Collect(TimeoutEntry(input, base), next)
                 == Collect(TimeoutEntry(input, base), done) + (match TimeoutEntry(input, base)(m) case None => [] case Some(t) => [t])
              && var waits := Collect(NodeWait(), base);
                 Soonest(0, waits + Collect(DeadlineWait(input, base), next))
                 == (match DeadlineWait(input, base)(m)
                     case None => Soonest(0, waits + Collect(DeadlineWait(input, base), done))
                     case Some(d) => Sooner(Soonest(0, waits + Collect(DeadlineWait(input, base), done)), d))
    {
      var m := members[i];
      assert members[..i + 1][..i] == members[..i];
      CollectSnoc(MemberAction(input, base), members, i);
      CollectSnoc(KeptPod(input, base), members, i);
      CollectSnoc(TimeoutEntry(input, base), members, i);
      CollectSnoc(DeadlineWait(input, base), members, i);
      var waits, due := Collect(NodeWait(), base), DeadlineWait(input, base);
      if due(m).Some? {
        SoonestSnoc(0, waits + Collect(due, members[..i]), due(m).value);
        assert waits + Collect(due, members[..i + 1]) == waits + Collect(due, members[..i]) + [due(m).value];
      }
    }

    predicate Blank()
      reads this
    {
      nodes == [] && ungate == [] && gatedPods == 0 && timedOut == [] && missingToleration == [] && requeueAfter == 0
    }

    /** Everything before gated members are decided. */
    method Survey(input: PlanInput, waits: seq<int>, dsByGroup: seq<seq<DaemonSet>>)
      returns (members: seq<Member>, stateIdx: map<string, nat>)
      requires GroupData(input, waits, dsByGroup) && Blank()
      modifies this
      ensures members == Members(input) && nodes == BaseStates(input) && Indexes(stateIdx, nodes)
      ensures ungate == Collect(StrayAction(input), input.pods) && gatedPods == 0 && timedOut == []
      ensures missingToleration == MissingToleration(input) && requeueAfter == Soonest(0, Collect(NodeWait(), nodes))
    {
      if EligibilityMethod(input.sequence) == TaintMethod {
        ProbeTolerations(input, dsByGroup);
      }
      assert missingToleration == MissingToleration(input);
      var byNode;
      members, byNode := CollectMembers(input);
      stateIdx := EvaluateNodes(input, byNode, dsByGroup, waits);
    }

    method Fill(input: PlanInput, waits: seq<int>, dsByGroup: seq<seq<DaemonSet>>)
      requires GroupData(input, waits, dsByGroup) && Blank()
      modifies this
      ensures Realizes(input)
    {
      var members, stateIdx := Survey(input, waits, dsByGroup);
      DecideMembers(input, members, stateIdx);
    }

    static method BuildUnpinnedAction(input: PlanInput, m: Member) returns (a: PodAction)
      ensures a == UnpinnedAction(input, m)
    {
      a := PodAction(m.pod, m.group, ReasonUnpinned, None, []);
      if EligibilityMethod(input.sequence) == TaintMethod {
        var tols := BuildEligibilityTolerations(Key(input), m.group, NumGroups(input));
        a := a.(addTolerations := tols);
      } else if m.group >= 1 {
        a := a.(addAffinity := Some(EligibilityRequirement(Key(input), m.group)));
      }
    }
  }

  /** The wait and the DaemonSets of each group, or the first group whose text does not parse. */
  method ReadGroups(input: PlanInput) returns (waits: seq<int>, dsByGroup: seq<seq<DaemonSet>>, err: Option<PlanError>)
    ensures err == GroupError(input.sequence.podGroups, 0)
    ensures err.None? ==> GroupData(input, waits, dsByGroup)
  {
    var groups := input.sequence.podGroups;
    waits, dsByGroup := [], [];
    for i := 0 to |groups|
      invariant GroupError(groups, 0) == GroupError(groups, i)
      invariant |waits| == |dsByGroup| == i
      invariant forall j :: 0 <= j < i ==> dsByGroup[j] == DaemonSetsForGroup(input.daemonSets, groups[j])
      invariant forall j :: 0 <= j < i ==> waits[j] == WaitOf(groups[j])
    {
      if groups[i].wait.InvalidWait? {
        return waits, dsByGroup, Some(BadWait(i));
      }
      if groups[i].selector.InvalidSelector? {
        return waits, dsByGroup, Some(BadSelector(i));
      }
      waits := waits + [groups[i].wait.duration];
      var found := FindDaemonSetsForGroup(input.daemonSets, groups[i]);
      dsByGroup := dsByGroup + [found];
    }
    err := None;
  }

  /** The plan object for a snapshot, or the first part of the spec that is invalid. */
  method ComputeNodePlan(input: PlanInput) returns (plan: NodePlan?, err: Option<PlanError>)
    ensures err == SpecError(input.sequence)
    ensures err.Some? ==> plan == null
    ensures err.None? ==> plan != null && fresh(plan) && plan.Realizes(input)
  {
    if input.sequence.nodeSelector.InvalidSelector? {
      return null, Some(BadNodeSelector);
    }
    var waits, dsByGroup, groupErr := ReadGroups(input);
    if groupErr.Some? {
      return null, groupErr;
    }
    plan := new NodePlan();
    plan.Fill(input, waits, dsByGroup);
    err := None;
  }
}
