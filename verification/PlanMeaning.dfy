/** What a node plan promises: satisfied groups, ordered releases and the accounting of gated pods. */
module PlanMeaning {
  import opened Options
  import opened Collections
  import opened Kube
  import opened Sequence
  import opened DaemonSets
  import opened NodePlanSpec
  import opened NodePlans

  /** p is an active pod of group j bound or pinned to the node. */
  predicate ActiveOn(input: PlanInput, p: Pod, node: string, j: nat)
  {
    && node != "" && p.namespace == TargetNamespace(input.sequence) && GroupIndexForPod(input.sequence, p) == j
    && TargetNode(p.spec) == node && !p.deleting && p.phase != Succeeded && p.phase != Failed
  }

  /** Group j is satisfied on the node: its pods there have been ready long enough, every DaemonSet of the
      group expected there has one of them, and there is one at all if the policy asks for it. */
  ghost predicate GroupHolds(input: PlanInput, node: Node, j: nat)
    requires j < NumGroups(input)
  {
    var g := input.sequence.podGroups[j];
    && (forall p :: p in input.pods && ActiveOn(input, p, node.name, j)
                    ==> ReadyFor(p, if g.wait.Wait? then g.wait.duration else 0, input.now))
    && (forall ds :: ds in input.daemonSets && !ds.deleting && g.selector.Selector? && g.selector.matches(ds.templateLabels)
                     && DaemonSetExpectedOnNode(ds, node, Key(input))
                     ==> exists p, o :: p in input.pods && ActiveOn(input, p, node.name, j) && o in p.owners && o.controller && o.uid == ds.uid)
    && (g.policy == RequireOnNode ==> exists p :: p in input.pods && ActiveOn(input, p, node.name, j))
  }

  lemma {:induction false} MembersMeaning(input: PlanInput, m: Member)
    ensures m in Members(input) <==> m.pod in input.pods && AsMember(input)(m.pod) == Some(m)
  {
    CollectMember(AsMember(input), input.pods, m);
  }

  lemma {:induction false} PodsOnMeaning(input: PlanInput, node: string, j: nat, p: Pod)
    ensures p in PodsOn(input, node, j) <==> p in input.pods && ActiveOn(input, p, node, j)
  {
    CollectMember(OnNode(node, j), Members(input), p);
    if p in input.pods && ActiveOn(input, p, node, j) {
      var m := Member(p, j, node);
      MembersMeaning(input, m);
      assert OnNode(node, j)(m) == Some(p);
    }
    if m :| m in Members(input) && OnNode(node, j)(m) == Some(p) {
      MembersMeaning(input, m);
    }
  }

  lemma {:induction false} FirstUncoveredMeaning(daemonSets: seq<DaemonSet>, node: Node, pods: seq<Pod>, key: string)
    ensures FirstUncovered(daemonSets, node, pods, key).None? <==> forall ds :: ds in daemonSets ==> Covered(ds, node, pods, key)
  {
    if daemonSets != [] {
      FirstUncoveredMeaning(daemonSets[1..], node, pods, key);
      assert daemonSets == [daemonSets[0]] + daemonSets[1..];
    }
  }

  lemma {:induction false} FirstUnreadyMeaning(pods: seq<Pod>)
    ensures FirstUnready(pods).None? <==> forall p :: p in pods ==> IsPodReady(p)
  {
    if pods != [] {
      FirstUnreadyMeaning(pods[1..]);
      assert pods == [pods[0]] + pods[1..];
    }
  }

  /** The first invalid part of a sequence: its node selector, or else a wait or a selector, group by group and the
      wait first. */
  lemma {:induction false} SpecErrorMeaning(s: PodSequence)
    ensures SpecError(s) == Some(BadNodeSelector) <==> s.nodeSelector.InvalidSelector?
    ensures SpecError(s) == None <==>
            !s.nodeSelector.InvalidSelector? && forall g :: g in s.podGroups ==> !g.wait.InvalidWait? && !g.selector.InvalidSelector?
    ensures forall j: nat :: (SpecError(s) == Some(BadWait(j)) || SpecError(s) == Some(BadSelector(j))) ==>
              && j < |s.podGroups| && (SpecError(s) == Some(BadWait(j)) <==> s.podGroups[j].wait.InvalidWait?)
              && (SpecError(s) == Some(BadSelector(j)) ==> s.podGroups[j].selector.InvalidSelector?)
              && forall i :: 0 <= i < j ==> !s.podGroups[i].wait.InvalidWait? && !s.podGroups[i].selector.InvalidSelector?
  {
    GroupErrorMeaning(s.podGroups, 0);
  }

  lemma {:induction false} GroupErrorMeaning(groups: seq<PodGroup>, from: nat)
    requires from <= |groups|
    ensures var e := GroupError(groups, from);
            && e != Some(BadNodeSelector)
            && (e == None <==> forall i :: from <= i < |groups| ==> !groups[i].wait.InvalidWait? && !groups[i].selector.InvalidSelector?)
            && forall j: nat :: (e == Some(BadWait(j)) || e == Some(BadSelector(j))) ==>
                 && from <= j < |groups| && (e == Some(BadWait(j)) <==> groups[j].wait.InvalidWait?)
                 && (e == Some(BadSelector(j)) ==> groups[j].selector.InvalidSelector?)
                 && forall i :: from <= i < j ==> !groups[i].wait.InvalidWait? && !groups[i].selector.InvalidSelector?
    decreases |groups| - from
  {
    if from < |groups| {
      GroupErrorMeaning(groups, from + 1);
    }
  }

  /** What a block says: an expected DaemonSet of the group without a pod there; with all of them there, no pod at
      all; or else a pod that is not ready; and only then the longest remaining wait. */
  lemma {:induction false} BlockReports(g: PodGroup, node: Node, pods: seq<Pod>, sets: seq<DaemonSet>, wait: int, now: int, key: string)
    ensures match GroupBlock(g, node, pods, sets, wait, now, key)
            case Clear => true
            case MissingDaemonPod(name) => exists ds :: ds in sets && ds.name == name && !Covered(ds, node, pods, key)
            case NoPodOnNode => (forall ds :: ds in sets ==> Covered(ds, node, pods, key)) && pods == [] && g.policy == RequireOnNode
            case PodNotReady(name) =>
              && (forall ds :: ds in sets ==> Covered(ds, node, pods, key))
              && exists p :: p in pods && p.name == name && !ReadyFor(p, 0, now)
            case Waiting(remaining) =>
              && (forall ds :: ds in sets ==> Covered(ds, node, pods, key)) && (forall p :: p in pods ==> ReadyFor(p, 0, now))
              && remaining > 0 && (forall p :: p in pods ==> ReadyFor(p, wait, now + remaining))
              && exists p :: p in pods && forall t :: now <= t < now + remaining ==> !ReadyFor(p, wait, t)
  {
    FirstUncoveredMeaning(sets, node, pods, key);
    FirstUnreadyMeaning(pods);
    FirstOf(sets, node, pods, key);
    MaxRemainingBound(pods, wait, now);
    forall p, t
      ensures ReadyFor(p, wait, t) <==> IsPodReady(p) && ReadyRemaining(p, wait, t) == 0
      ensures IsPodReady(p) <==> ReadyFor(p, 0, t)
    {
      ReadyForMeaning(p, wait, t);
    }
    if FirstUnready(pods).None? && MaxRemaining(pods, wait, now) > 0 {
      var remaining := MaxRemaining(pods, wait, now);
      var p :| p in pods && ReadyRemaining(p, wait, now) == remaining;
      assert forall t :: now <= t < now + remaining ==> !ReadyFor(p, wait, t);
    }
  }

  lemma {:induction false} FirstOf(sets: seq<DaemonSet>, node: Node, pods: seq<Pod>, key: string)
    ensures FirstUncovered(sets, node, pods, key).Some? ==>
              FirstUncovered(sets, node, pods, key).value in sets && !Covered(FirstUncovered(sets, node, pods, key).value, node, pods, key)
    ensures FirstUnready(pods).Some? ==> FirstUnready(pods).value in pods && !IsPodReady(FirstUnready(pods).value)
  {
    if sets != [] {
      FirstOf(sets[1..], node, pods, key);
    } else if pods != [] {
      FirstOf(sets, node, pods[1..], key);
    }
  }

  lemma {:induction false} GroupBlockMeaning(g: PodGroup, node: Node, pods: seq<Pod>, sets: seq<DaemonSet>,
                                             wait: int, now: int, key: string)
    ensures GroupBlock(g, node, pods, sets, wait, now, key) == Clear <==>
            && (forall p :: p in pods ==> ReadyFor(p, wait, now))
            && (forall ds :: ds in sets ==> Covered(ds, node, pods, key))
            && (GroupPolicy(g) == RequireOnNode ==> exists p :: p in pods)
  {
    FirstUncoveredMeaning(sets, node, pods, key);
    FirstUnreadyMeaning(pods);
    MaxRemainingMeaning(pods, wait, now);
    forall p | p in pods
      ensures ReadyFor(p, wait, now) <==> IsPodReady(p) && ReadyRemaining(p, wait, now) == 0
    {
      ReadyForMeaning(p, wait, now);
    }
    if pods != [] {
      assert pods[0] in pods;
    }
  }

  lemma {:induction false} BlockMeaning(input: PlanInput, node: Node, j: nat)
    requires j < NumGroups(input)
    ensures BlockOf(input, node, j) == Clear <==> GroupHolds(input, node, j)
  {
    var g := input.sequence.podGroups[j];
    var pods := PodsOn(input, node.name, j);
    var sets := DaemonSetsForGroup(input.daemonSets, g);
    GroupBlockMeaning(g, node, pods, sets, WaitOf(g), input.now, Key(input));
    forall p ensures p in pods <==> p in input.pods && ActiveOn(input, p, node.name, j) {
      PodsOnMeaning(input, node.name, j, p);
    }
    forall ds ensures ds in sets <==> ds in input.daemonSets && !ds.deleting && SelectorMatches(g.selector, ds.templateLabels) {
      CollectMember(InGroup(g), input.daemonSets, ds);
    }
  }

  /** How many groups from the j-th on are not blocked before the first that is. */
  function ClearUntil(blocks: seq<Block>, j: nat): nat
    requires j <= |blocks|
    decreases |blocks| - j
  {
    if j == |blocks| || blocks[j] != Clear then j else ClearUntil(blocks, j + 1)
  }

  lemma {:induction false} BlocksGiveCount(x: PlanInput, n: Node, blocks: seq<Block>, j: nat)
    requires j <= NumGroups(x) == |blocks|
    requires forall i :: 0 <= i < |blocks| ==> blocks[i] == BlockOf(x, n, i)
    ensures SatisfiedFrom(x, n, j) == ClearUntil(blocks, j)
    decreases NumGroups(x) - j
  {
    if j < NumGroups(x) {
      BlocksGiveCount(x, n, blocks, j + 1);
      assert blocks[j] == BlockOf(x, n, j);
    }
  }

  lemma {:induction false} ClearUntilMeaning(blocks: seq<Block>, j: nat)
    requires j <= |blocks|
    ensures var r := ClearUntil(blocks, j);
            && j <= r <= |blocks| && (forall i :: j <= i < r ==> blocks[i] == Clear)
            && (r < |blocks| ==> blocks[r] != Clear)
    decreases |blocks| - j
  {
    if j < |blocks| && blocks[j] == Clear {
      ClearUntilMeaning(blocks, j + 1);
    }
  }

  function Blocks(input: PlanInput, node: Node): (r: seq<Block>)
    ensures |r| == NumGroups(input)
    ensures forall i :: 0 <= i < |r| ==> r[i] == BlockOf(input, node, i)
  {
    seq(NumGroups(input), i requires 0 <= i < NumGroups(input) => BlockOf(input, node, i))
  }

  lemma {:induction false} SatisfiedFromMeaning(input: PlanInput, node: Node)
    ensures forall i :: 0 <= i < SatisfiedFrom(input, node, 0) ==> GroupHolds(input, node, i)
    ensures SatisfiedFrom(input, node, 0) < NumGroups(input) ==> !GroupHolds(input, node, SatisfiedFrom(input, node, 0))
  {
    var blocks := Blocks(input, node);
    BlocksGiveCount(input, node, blocks, 0);
    ClearUntilMeaning(blocks, 0);
    forall i | 0 <= i < NumGroups(input)
      ensures blocks[i] == Clear <==> GroupHolds(input, node, i)
    {
      BlockMeaning(input, node, i);
    }
  }

  /** The satisfied count of a participating node is the length of the longest prefix of satisfied groups. */
  lemma {:induction false} SatisfiedIsLongestPrefix(input: PlanInput, node: Node, k: nat)
    requires Participating(input, node) && k <= NumGroups(input)
    ensures BaseState(input, node).satisfied >= k <==> forall j :: 0 <= j < k ==> GroupHolds(input, node, j)
  {
    SatisfiedFromMeaning(input, node);
  }

  // ---- states by name ----

  ghost predicate UniqueNames(nodes: seq<Node>)
  {
    forall i, j :: 0 <= i < j < |nodes| ==> nodes[i].name != nodes[j].name
  }

  lemma {:induction false} InsertKeeps(n: Node, sorted: seq<Node>)
    ensures multiset(InsertByName(n, sorted)) == multiset(sorted) + multiset{n}
  {
    if sorted == [] || NameLe(n.name, sorted[0].name) {
    } else {
      InsertKeeps(n, sorted[1..]);
      assert sorted == [sorted[0]] + sorted[1..];
    }
  }

  lemma {:induction false} SortKeeps(nodes: seq<Node>)
    ensures multiset(SortByName(nodes)) == multiset(nodes)
  {
    if nodes != [] {
      SortKeeps(nodes[1..]);
      InsertKeeps(nodes[0], SortByName(nodes[1..]));
      assert nodes == [nodes[0]] + nodes[1..];
    }
  }

  lemma {:induction false} SortedMember(nodes: seq<Node>, n: Node)
    ensures n in SortByName(nodes) <==> n in nodes
  {
    SortKeeps(nodes);
    assert n in multiset(nodes) <==> n in nodes;
    assert n in multiset(SortByName(nodes)) <==> n in SortByName(nodes);
  }

  lemma {:induction false} LookupMeaning(states: seq<NodeState>, name: string)
    ensures Lookup(states, name).None? <==> forall i :: 0 <= i < |states| ==> states[i].name != name
    ensures Lookup(states, name).Some? ==> forall i :: Lookup(states, name).value < i < |states| ==> states[i].name != name
  {
    if states != [] && states[|states| - 1].name != name {
      LookupMeaning(states[..|states| - 1], name);
    }
  }

  /** A name that resolves, resolves to the state of a node of the input with that name. */
  lemma {:induction false} LookupIsNode(input: PlanInput, name: string) returns (node: Node)
    requires Lookup(BaseStates(input), name).Some?
    ensures node in input.nodes && node.name == name
    ensures BaseStates(input)[Lookup(BaseStates(input), name).value] == BaseState(input, node)
  {
    var i := Lookup(BaseStates(input), name).value;
    node := SortByName(input.nodes)[i];
    StatesOfAt(input, SortByName(input.nodes), i);
    SortedMember(input.nodes, node);
  }

  lemma {:induction false} NamesDetermine(nodes: seq<Node>, a: Node, b: Node)
    requires UniqueNames(nodes) && a in nodes && b in nodes && a.name == b.name
    ensures a == b
  {
  }

  lemma {:induction false} LookupNode(input: PlanInput, node: Node)
    requires UniqueNames(input.nodes) && node in input.nodes
    ensures Lookup(BaseStates(input), node.name).Some?
    ensures BaseStates(input)[Lookup(BaseStates(input), node.name).value] == BaseState(input, node)
  {
    SortedMember(input.nodes, node);
    LookupMeaning(BaseStates(input), node.name);
    var i :| 0 <= i < |input.nodes| && SortByName(input.nodes)[i] == node;
    StatesOfAt(input, SortByName(input.nodes), i);
    var other := LookupIsNode(input, node.name);
    NamesDetermine(input.nodes, other, node);
  }

  // ---- ordered releases ----

  lemma {:induction false} UngateMember(input: PlanInput, a: PodAction)
    ensures a in Ungate(input) <==>
            || (a.pod in input.pods && StrayAction(input)(a.pod) == Some(a))
            || exists m :: m in Members(input) && MemberAction(input, BaseStates(input))(m) == Some(a)
  {
    CollectMember(StrayAction(input), input.pods, a);
    CollectMember(MemberAction(input, BaseStates(input)), Members(input), a);
  }

  /** A release as satisfied comes from a member pinned to a node far enough along. */
  lemma {:induction false} SatisfiedMember(input: PlanInput, states: seq<NodeState>, m: Member, a: PodAction)
    requires MemberAction(input, states)(m) == Some(a)
    ensures a.pod == m.pod && a.group == m.group
    ensures a.reason == ReasonSatisfied ==>
              && m.node != "" && Lookup(states, m.node).Some?
              && states[Lookup(states, m.node).value].participating && states[Lookup(states, m.node).value].satisfied >= m.group
  {
  }

  /** A pod released as satisfied on its node has every earlier group satisfied there. */
  lemma {:induction false} SatisfiedReleaseIsOrdered(input: PlanInput, a: PodAction) returns (node: Node)
    requires a in Ungate(input) && a.reason == ReasonSatisfied
    ensures node in input.nodes && node.name == TargetNode(a.pod.spec) && Participating(input, node)
    ensures 0 <= a.group < NumGroups(input) && a.group == GroupIndexForPod(input.sequence, a.pod)
    ensures forall j :: 0 <= j < a.group ==> GroupHolds(input, node, j)
  {
    UngateMember(input, a);
    var m :| m in Members(input) && MemberAction(input, BaseStates(input))(m) == Some(a);
    SatisfiedMember(input, BaseStates(input), m, a);
    MembersMeaning(input, m);
    node := LookupIsNode(input, m.node);
    SatisfiedIsLongestPrefix(input, node, m.group);
  }

  /** A gated member pinned to a participating node stays gated exactly while an earlier group is not
      satisfied there. */
  lemma {:induction false} KeptIffEarlierGroupOpen(input: PlanInput, m: Member, node: Node)
    requires UniqueNames(input.nodes) && node in input.nodes && Participating(input, node)
    requires m in Members(input) && m.node == node.name && m.node != "" && GateName(input.sequence) in m.pod.spec.gates
    requires !(BYPASS_ANNOTATION in m.pod.annotations && m.pod.annotations[BYPASS_ANNOTATION] == "true")
    ensures Kept(input, BaseStates(input), m) <==> exists j :: 0 <= j < m.group && j < NumGroups(input) && !GroupHolds(input, node, j)
  {
    MembersMeaning(input, m);
    LookupNode(input, node);
    SatisfiedIsLongestPrefix(input, node, m.group);
  }

  /** A pod of the very group its node waits on is never kept gated. */
  lemma {:induction false} WaitedGroupIsReleased(input: PlanInput, m: Member, node: Node)
    requires UniqueNames(input.nodes) && node in input.nodes
    requires m in Members(input) && m.node == node.name && m.group <= BaseState(input, node).satisfied
    ensures !Kept(input, BaseStates(input), m)
  {
    if m.node != "" {
      LookupNode(input, node);
    }
  }

  /** Who is kept: only gated, active members of a later group pinned to a participating node. */
  lemma {:induction false} KeptMeaning(input: PlanInput, m: Member) returns (node: Node)
    requires m in Members(input) && Kept(input, BaseStates(input), m)
    ensures HasGate(m.pod.spec, Gate(input)) && m.pod in input.pods && IsActive(m.pod) && !IsBypassed(m.pod)
    ensures node in input.nodes && node.name == m.node == TargetNode(m.pod.spec) && Participating(input, node)
    ensures BaseState(input, node).satisfied < m.group < NumGroups(input)
    ensures Lookup(BaseStates(input), m.node).Some?
    ensures BaseStates(input)[Lookup(BaseStates(input), m.node).value] == BaseState(input, node)
  {
    MembersMeaning(input, m);
    node := LookupIsNode(input, m.node);
  }

  // ---- accounting ----

  /** The pods the plan has to account for. */
  predicate Accountable(input: PlanInput, p: Pod)
  {
    && p.namespace == TargetNamespace(input.sequence) && GateName(input.sequence) in p.spec.gates
    && !p.deleting && p.phase != Succeeded && p.phase != Failed
    && (GroupIndexForPod(input.sequence, p) >= 0
        || (if SEQUENCE_LABEL in p.labels then p.labels[SEQUENCE_LABEL] == input.sequence.name else input.sequence.name == ""))
  }

  function AsAccountable(input: PlanInput): Pod -> Option<Pod>
  {
    (p: Pod) => if Accountable(input, p) then Some(p) else None
  }

  function PodsOf(actions: seq<PodAction>): (r: seq<Pod>)
    ensures |r| == |actions|
  {
    seq(|actions|, i requires 0 <= i < |actions| => actions[i].pod)
  }

  /** One pod to account for is released as a stray, released as a member or kept, and only one of these. */
  lemma {:induction false} OneFate(input: PlanInput, states: seq<NodeState>, p: Pod)
    ensures StrayAction(input)(p).Some? ==> StrayAction(input)(p).value.pod == p && AsMember(input)(p).None?
    ensures AsMember(input)(p).None? ==> (StrayAction(input)(p).Some? <==> Accountable(input, p))
    ensures AsMember(input)(p).Some? ==>
              var m := AsMember(input)(p).value;
              && m.pod == p
              && (Accountable(input, p) <==> MemberAction(input, states)(m).Some? || Kept(input, states, m))
              && !(MemberAction(input, states)(m).Some? && Kept(input, states, m))
              && (MemberAction(input, states)(m).Some? ==> MemberAction(input, states)(m).value.pod == p)
  {
  }

  lemma {:induction false} PodsOfCollect<T>(f: T -> Option<PodAction>, g: T -> Option<Pod>, s: seq<T>)
    requires forall x :: x in s ==> g(x) == match f(x) case None => None case Some(a) => Some(a.pod)
    ensures PodsOf(Collect(f, s)) == Collect(g, s)
  {
    if s != [] {
      PodsOfCollect(f, g, s[..|s| - 1]);
    }
  }

  function StrayPod(input: PlanInput): Pod -> Option<Pod>
  {
    (p: Pod) => if StrayAction(input)(p).Some? then Some(p) else None
  }

  function ReleasedPod(input: PlanInput, states: seq<NodeState>): Member -> Option<Pod>
  {
    (m: Member) => if MemberAction(input, states)(m).Some? then Some(m.pod) else None
  }

  lemma {:induction false} AccountingOfPrefix(input: PlanInput, states: seq<NodeState>, pods: seq<Pod>)
    ensures var members := Collect(AsMember(input), pods);
            multiset(Collect(AsAccountable(input), pods))
            == multiset(Collect(StrayPod(input), pods))
             + multiset(Collect(ReleasedPod(input, states), members))
             + multiset(Collect(KeptPod(input, states), members))
  {
    if pods != [] {
      var p, rest := pods[|pods| - 1], pods[..|pods| - 1];
      AccountingOfPrefix(input, states, rest);
      OneFate(input, states, p);
      if AsMember(input)(p).Some? {
        var members, m := Collect(AsMember(input), rest), AsMember(input)(p).value;
        assert (members + [m])[..|members|] == members;
      }
    }
  }

  lemma {:induction false} SplitSize<T>(a: seq<T>, b: seq<T>, c: seq<T>, whole: seq<T>)
    requires multiset(a) + multiset(b) + multiset(c) == multiset(whole)
    ensures multiset(a + b) + multiset(c) == multiset(whole) && |a| + |b| + |c| == |whole|
  {
    assert |multiset(a + b) + multiset(c)| == |a + b| + |c|;
  }

  lemma {:induction false} ReleasedMembers(input: PlanInput, states: seq<NodeState>)
    ensures PodsOf(Collect(MemberAction(input, states), Members(input))) == Collect(ReleasedPod(input, states), Members(input))
  {
    PodsOfCollect(MemberAction(input, states), ReleasedPod(input, states), Members(input));
  }

  lemma {:induction false} PodsOfBoth(a: seq<PodAction>, b: seq<PodAction>)
    ensures PodsOf(a + b) == PodsOf(a) + PodsOf(b)
  {
  }

  lemma {:induction false} ReleasedPods(input: PlanInput)
    ensures PodsOf(Ungate(input)) == Collect(StrayPod(input), input.pods) + Collect(ReleasedPod(input, BaseStates(input)), Members(input))
  {
    PodsOfCollect(StrayAction(input), StrayPod(input), input.pods);
    ReleasedMembers(input, BaseStates(input));
    PodsOfBoth(Collect(StrayAction(input), input.pods), Collect(MemberAction(input, BaseStates(input)), Members(input)));
  }

  /** No gated pod is lost or counted twice: the released pods and the kept pods together are exactly the
      pods to account for, with multiplicity, and their numbers add up. */
  lemma {:induction false} GatedPodsConserved(input: PlanInput)
    ensures multiset(PodsOf(Ungate(input))) + multiset(KeptPods(input)) == multiset(Collect(AsAccountable(input), input.pods))
    ensures |Ungate(input)| + GatedPods(input) == |Collect(AsAccountable(input), input.pods)|
  {
    ReleasedPods(input);
    AccountingOfPrefix(input, BaseStates(input), input.pods);
    SplitSize(Collect(StrayPod(input), input.pods), Collect(ReleasedPod(input, BaseStates(input)), Members(input)),
              KeptPods(input), Collect(AsAccountable(input), input.pods));
  }

  function TimedOutPods(ts: seq<TimedOutPod>): (r: seq<Pod>)
    ensures |r| == |ts|
  {
    seq(|ts|, i requires 0 <= i < |ts| => ts[i].pod)
  }

  /** Exactly the kept pods whose timeout, if one is set, has passed since they were created are timed out. */
  lemma {:induction false} TimedOutMeaning(input: PlanInput, t: TimedOutPod)
    ensures t in TimedOut(input) <==>
            && Member(t.pod, t.group, t.node) in Members(input) && Kept(input, BaseStates(input), Member(t.pod, t.group, t.node))
            && TimeIsUp(input, t.pod)
  {
    CollectMember(TimeoutEntry(input, BaseStates(input)), Members(input), t);
    if Member(t.pod, t.group, t.node) in Members(input) && Kept(input, BaseStates(input), Member(t.pod, t.group, t.node)) && TimeIsUp(input, t.pod) {
      assert TimeoutEntry(input, BaseStates(input))(Member(t.pod, t.group, t.node)) == Some(t);
    }
  }

  predicate TimeIsUp(input: PlanInput, p: Pod)
  {
    match input.sequence.gateTimeout
    case None => false
    case Some(timeout) => timeout > 0 && p.created + timeout <= input.now
  }

  lemma {:induction false} TimedOutAmongKept(input: PlanInput, states: seq<NodeState>, members: seq<Member>)
    ensures multiset(TimedOutPods(Collect(TimeoutEntry(input, states), members))) <= multiset(Collect(KeptPod(input, states), members))
  {
    if members != [] {
      var m, rest := members[|members| - 1], members[..|members| - 1];
      TimedOutAmongKept(input, states, rest);
      if TimeoutEntry(input, states)(m).Some? {
        var t := TimeoutEntry(input, states)(m).value;
        var before := Collect(TimeoutEntry(input, states), rest);
        assert TimedOutPods(before + [t]) == TimedOutPods(before) + [t.pod];
      }
    }
  }

  /** Timed-out pods are among the pods counted as gated; a timeout releases nothing. */
  lemma {:induction false} TimedOutStayGated(input: PlanInput)
    ensures multiset(TimedOutPods(TimedOut(input))) <= multiset(KeptPods(input))
    ensures |TimedOut(input)| <= GatedPods(input)
  {
    TimedOutAmongKept(input, BaseStates(input), Members(input));
    assert |multiset(TimedOutPods(TimedOut(input)))| == |TimedOut(input)|;
    assert |multiset(KeptPods(input))| == GatedPods(input);
    SubmultisetSize(multiset(TimedOutPods(TimedOut(input))), multiset(KeptPods(input)));
  }

  lemma {:induction false} SubmultisetSize<T>(a: multiset<T>, b: multiset<T>)
    requires a <= b
    ensures |a| <= |b|
  {
    assert b == a + (b - a);
  }

  // ---- failed nodes ----

  lemma {:induction false} MarkFailedMeaning(input: PlanInput, states: seq<NodeState>, members: seq<Member>, i: nat)
    requires i < |states|
    ensures MarkFailed(input, states, members)[i].failed <==>
            states[i].failed || exists m :: m in members && Kept(input, states, m) && Expired(input, m.pod) && Lookup(states, m.node) == Some(i)
  {
    if members != [] {
      MarkFailedMeaning(input, states, members[..|members| - 1], i);
      assert members == members[..|members| - 1] + [members[|members| - 1]];
    }
  }

  /** A failed node participates and is not fully satisfied. */
  lemma {:induction false} FailedIsBlocked(input: PlanInput, i: nat)
    requires i < |FinalStates(input)|
    ensures FinalStates(input)[i].(failed := false) == BaseStates(input)[i]
    ensures FinalStates(input)[i].failed ==> FinalStates(input)[i].participating && FinalStates(input)[i].satisfied < NumGroups(input)
  {
    MarkFailedKeeps(input, BaseStates(input), Members(input));
    MarkFailedMeaning(input, BaseStates(input), Members(input), i);
    StatesOfAt(input, SortByName(input.nodes), i);
    if FinalStates(input)[i].failed {
      var m :| m in Members(input) && Kept(input, BaseStates(input), m) && Lookup(BaseStates(input), m.node) == Some(i);
      var node := KeptMeaning(input, m);
    }
  }
}
