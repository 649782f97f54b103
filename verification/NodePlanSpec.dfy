/** What a node plan is, as functions of its input: internal/controller/nodeplan.go. */
module NodePlanSpec {
  import opened Options
  import opened Collections
  import opened Kube
  import opened Sequence
  import opened DaemonSets

  datatype PlanInput = PlanInput(sequence: PodSequence, nodes: seq<Node>, pods: seq<Pod>, daemonSets: seq<DaemonSet>, now: int)

  /** Why a group is not satisfied on a node: the content of the message, with the remaining wait. */
  datatype Block = Clear | MissingDaemonPod(daemonSet: string) | NoPodOnNode | PodNotReady(pod: string) | Waiting(remaining: int)

  datatype NodeState = NodeState(name: string, participating: bool, satisfied: nat, message: Block, failed: bool)

  datatype Reason = ReasonSatisfied | ReasonBypass | ReasonUnpinned | ReasonNotParticipating | ReasonNodeMissing | ReasonNoGroup

  datatype PodAction = PodAction(pod: Pod, group: int, reason: Reason, addAffinity: Option<Requirement>,
                                 addTolerations: seq<Toleration>)

  datatype TimedOutPod = TimedOutPod(pod: Pod, node: string, group: nat)

  datatype PlanError = BadNodeSelector | BadWait(group: nat) | BadSelector(group: nat)

  datatype Member = Member(pod: Pod, group: nat, node: string)

  function Key(input: PlanInput): string
  {
    EligibilityKey(input.sequence.digest)
  }

  function Gate(input: PlanInput): string
  {
    GateName(input.sequence)
  }

  function NumGroups(input: PlanInput): nat
  {
    |input.sequence.podGroups|
  }

  // ---- errors ----

  function GroupError(groups: seq<PodGroup>, from: nat): Option<PlanError>
    requires from <= |groups|
    decreases |groups| - from
  {
    if from == |groups| then None
    else if groups[from].wait.InvalidWait? then Some(BadWait(from))
    else if groups[from].selector.InvalidSelector? then Some(BadSelector(from))
    else GroupError(groups, from + 1)
  }

  function SpecError(s: PodSequence): Option<PlanError>
  {
    if s.nodeSelector.InvalidSelector? then Some(BadNodeSelector) else GroupError(s.podGroups, 0)
  }

  // ---- one group on one node ----

  predicate Covered(ds: DaemonSet, node: Node, pods: seq<Pod>, key: string)
  {
    DaemonSetExpectedOnNode(ds, node, key) ==> exists p :: p in pods && OwnedBy(p, ds.uid)
  }

  function FirstUncovered(daemonSets: seq<DaemonSet>, node: Node, pods: seq<Pod>, key: string): Option<DaemonSet>
  {
    if daemonSets == [] then None
    else if !Covered(daemonSets[0], node, pods, key) then Some(daemonSets[0])
    else FirstUncovered(daemonSets[1..], node, pods, key)
  }

  function FirstUnready(pods: seq<Pod>): Option<Pod>
  {
    if pods == [] then None
    else if !IsPodReady(pods[0]) then Some(pods[0])
    else FirstUnready(pods[1..])
  }

  function GroupBlock(g: PodGroup, node: Node, pods: seq<Pod>, daemonSets: seq<DaemonSet>, wait: int, now: int,
                      key: string): Block
  {
    match FirstUncovered(daemonSets, node, pods, key)
    case Some(ds) => MissingDaemonPod(ds.name)
    case None =>
      if pods == [] then
        if GroupPolicy(g) == RequireOnNode then NoPodOnNode else Clear
      else
        match FirstUnready(pods)
        case Some(p) => PodNotReady(p.name)
        case None =>
          var remaining := MaxRemaining(pods, wait, now);
          if remaining > 0 then Waiting(remaining) else Clear
  }

  // ---- membership ----

  predicate InTarget(input: PlanInput, p: Pod)
  {
    p.namespace == TargetNamespace(input.sequence)
  }

  function AsMember(input: PlanInput): Pod -> Option<Member>
  {
    (p: Pod) =>
      if InTarget(input, p) && GroupIndexForPod(input.sequence, p) >= 0 && IsActive(p)
      then Some(Member(p, GroupIndexForPod(input.sequence, p), TargetNode(p.spec)))
      else None
  }

  function Members(input: PlanInput): seq<Member>
  {
    Collect(AsMember(input), input.pods)
  }

  /** A gated pod that opted in but belongs to no group is released. */
  function StrayAction(input: PlanInput): Pod -> Option<PodAction>
  {
    (p: Pod) =>
      if InTarget(input, p) && GroupIndexForPod(input.sequence, p) < 0 && HasGate(p.spec, Gate(input)) && OptedIn(input.sequence, p) && IsActive(p)
      then Some(PodAction(p, -1, ReasonNoGroup, None, []))
      else None
  }

  function OnNode(node: string, j: nat): Member -> Option<Pod>
  {
    (m: Member) => if m.node == node && m.node != "" && m.group == j then Some(m.pod) else None
  }

  function PodsOn(input: PlanInput, node: string, j: nat): seq<Pod>
  {
    Collect(OnNode(node, j), Members(input))
  }

  // ---- nodes ----

  predicate Participating(input: PlanInput, node: Node)
  {
    !node.deleting && (input.sequence.nodeSelector.NoSelector? || SelectorMatches(input.sequence.nodeSelector, node.labels))
  }

  function WaitOf(g: PodGroup): int
  {
    if g.wait.Wait? then g.wait.duration else 0
  }

  function BlockOf(input: PlanInput, node: Node, j: nat): Block
    requires j < NumGroups(input)
  {
    var g := input.sequence.podGroups[j];
    GroupBlock(g, node, PodsOn(input, node.name, j), DaemonSetsForGroup(input.daemonSets, g), WaitOf(g), input.now, Key(input))
  }

  function SatisfiedFrom(input: PlanInput, node: Node, j: nat): (r: nat)
    requires j <= NumGroups(input)
    ensures j <= r <= NumGroups(input)
    decreases NumGroups(input) - j
  {
    if j == NumGroups(input) then j
    else if BlockOf(input, node, j) != Clear then j
    else SatisfiedFrom(input, node, j + 1)
  }

  /** The state of a node before pods that waited too long mark it failed. */
  function BaseState(input: PlanInput, node: Node): NodeState
  {
    if Participating(input, node) then
      var s := SatisfiedFrom(input, node, 0);
      NodeState(node.name, true, s, if s < NumGroups(input) then BlockOf(input, node, s) else Clear, false)
    else NodeState(node.name, false, 0, Clear, false)
  }

  function InsertByName(n: Node, sorted: seq<Node>): seq<Node>
  {
    if sorted == [] || NameLe(n.name, sorted[0].name) then [n] + sorted
    else [sorted[0]] + InsertByName(n, sorted[1..])
  }

  function SortByName(nodes: seq<Node>): (r: seq<Node>)
    ensures |r| == |nodes|
  {
    if nodes == [] then []
    else
      var r := InsertByName(nodes[0], SortByName(nodes[1..]));
      InsertByNameLength(nodes[0], SortByName(nodes[1..]));
      r
  }

  lemma {:induction false} InsertByNameLength(n: Node, sorted: seq<Node>)
    ensures |InsertByName(n, sorted)| == |sorted| + 1
  {
    if sorted != [] {
      InsertByNameLength(n, sorted[1..]);
    }
  }

  function StatesOf(input: PlanInput, nodes: seq<Node>): (r: seq<NodeState>)
    ensures |r| == |nodes|
  {
    if nodes == [] then [] else StatesOf(input, nodes[..|nodes| - 1]) + [BaseState(input, nodes[|nodes| - 1])]
  }

  lemma {:induction false} StatesOfAt(input: PlanInput, nodes: seq<Node>, i: nat)
    requires i < |nodes|
    ensures StatesOf(input, nodes)[i] == BaseState(input, nodes[i])
  {
    if i < |nodes| - 1 {
      StatesOfAt(input, nodes[..|nodes| - 1], i);
    }
  }

  function BaseStates(input: PlanInput): seq<NodeState>
  {
    StatesOf(input, SortByName(input.nodes))
  }

  /** The index a node name resolves to: the last entry of that name. */
  function Lookup(states: seq<NodeState>, name: string): (r: Option<nat>)
    ensures r.Some? ==> r.value < |states| && states[r.value].name == name
  {
    if states == [] then None
    else if states[|states| - 1].name == name then Some(|states| - 1)
    else Lookup(states[..|states| - 1], name)
  }

  // ---- gated members ----

  function UnpinnedAction(input: PlanInput, m: Member): PodAction
  {
    if EligibilityMethod(input.sequence) == TaintMethod then
      PodAction(m.pod, m.group, ReasonUnpinned, None, EligibilityTolerations(Key(input), m.group, NumGroups(input)))
    else
      PodAction(m.pod, m.group, ReasonUnpinned,
                if m.group >= 1 then Some(EligibilityRequirement(Key(input), m.group)) else None, [])
  }

  /** What happens to a gated member; None keeps it gated. */
  function Verdict(input: PlanInput, states: seq<NodeState>, m: Member): Option<PodAction>
  {
    if IsBypassed(m.pod) then Some(PodAction(m.pod, m.group, ReasonBypass, None, []))
    else if m.node == "" then Some(UnpinnedAction(input, m))
    else
      match Lookup(states, m.node)
      case None => Some(PodAction(m.pod, m.group, ReasonNodeMissing, None, []))
      case Some(i) =>
        if !states[i].participating then Some(PodAction(m.pod, m.group, ReasonNotParticipating, None, []))
        else if states[i].satisfied >= m.group then Some(PodAction(m.pod, m.group, ReasonSatisfied, None, []))
        else None
  }

  function MemberAction(input: PlanInput, states: seq<NodeState>): Member -> Option<PodAction>
  {
    (m: Member) => if HasGate(m.pod.spec, Gate(input)) then Verdict(input, states, m) else None
  }

  predicate Kept(input: PlanInput, states: seq<NodeState>, m: Member)
  {
    HasGate(m.pod.spec, Gate(input)) && Verdict(input, states, m).None?
  }

  function KeptPod(input: PlanInput, states: seq<NodeState>): Member -> Option<Pod>
  {
    (m: Member) => if Kept(input, states, m) then Some(m.pod) else None
  }

  predicate HasTimeout(input: PlanInput)
  {
    input.sequence.gateTimeout.Some? && input.sequence.gateTimeout.value > 0
  }

  function Deadline(input: PlanInput, p: Pod): int
    requires HasTimeout(input)
  {
    p.created + input.sequence.gateTimeout.value
  }

  predicate Expired(input: PlanInput, p: Pod)
  {
    HasTimeout(input) && input.now >= Deadline(input, p)
  }

  function TimeoutEntry(input: PlanInput, states: seq<NodeState>): Member -> Option<TimedOutPod>
  {
    (m: Member) => if Kept(input, states, m) && Expired(input, m.pod) then Some(TimedOutPod(m.pod, m.node, m.group)) else None
  }

  function DeadlineWait(input: PlanInput, states: seq<NodeState>): Member -> Option<int>
  {
    (m: Member) =>
      if Kept(input, states, m) && HasTimeout(input) && !Expired(input, m.pod)
      then Some(Deadline(input, m.pod) - input.now) else None
  }

  /** Mark in marked the node of a kept pod that expired, as resolved in states. */
  function MarkOne(input: PlanInput, states: seq<NodeState>, marked: seq<NodeState>, m: Member): (r: seq<NodeState>)
    requires |marked| == |states|
    ensures |r| == |states|
  {
    if Kept(input, states, m) && Expired(input, m.pod) then
      match Lookup(states, m.node)
      case None => marked
      case Some(i) => marked[i := marked[i].(failed := true)]
    else marked
  }

  function MarkFailed(input: PlanInput, states: seq<NodeState>, members: seq<Member>): (r: seq<NodeState>)
    ensures |r| == |states|
  {
    if members == [] then states
    else MarkOne(input, states, MarkFailed(input, states, members[..|members| - 1]), members[|members| - 1])
  }

  // ---- the plan ----

  function FinalStates(input: PlanInput): seq<NodeState>
  {
    MarkFailed(input, BaseStates(input), Members(input))
  }

  function Ungate(input: PlanInput): seq<PodAction>
  {
    Collect(StrayAction(input), input.pods) + Collect(MemberAction(input, BaseStates(input)), Members(input))
  }

  function KeptPods(input: PlanInput): seq<Pod>
  {
    Collect(KeptPod(input, BaseStates(input)), Members(input))
  }

  function GatedPods(input: PlanInput): nat
  {
    |KeptPods(input)|
  }

  function TimedOut(input: PlanInput): seq<TimedOutPod>
  {
    Collect(TimeoutEntry(input, BaseStates(input)), Members(input))
  }

  function NodeWait(): NodeState -> Option<int>
  {
    (st: NodeState) => if st.message.Waiting? then Some(st.message.remaining) else None
  }

  /** Every moment the plan asks to be looked at again. */
  function WakeUps(input: PlanInput): seq<int>
  {
    Collect(NodeWait(), BaseStates(input)) + Collect(DeadlineWait(input, BaseStates(input)), Members(input))
  }

  function Sooner(current: int, d: int): int
  {
    if d <= 0 then current
    else if current == 0 || d < current then d
    else current
  }

  function Soonest(current: int, ds: seq<int>): int
  {
    if ds == [] then current else Sooner(Soonest(current, ds[..|ds| - 1]), ds[|ds| - 1])
  }

  function RequeueAfter(input: PlanInput): int
  {
    Soonest(0, WakeUps(input))
  }

  function Untolerating(key: string): DaemonSet -> Option<string>
  {
    (ds: DaemonSet) => if Tolerated(ds.template.tolerations, Taint(key, "0", NoSchedule)) then None else Some(ds.name)
  }

  function MissingFrom(input: PlanInput, j: nat): seq<string>
    requires j <= NumGroups(input)
  {
    if j == 0 then []
    else MissingFrom(input, j - 1)
         + Collect(Untolerating(Key(input)), DaemonSetsForGroup(input.daemonSets, input.sequence.podGroups[j - 1]))
  }

  function MissingToleration(input: PlanInput): seq<string>
  {
    if EligibilityMethod(input.sequence) == TaintMethod then MissingFrom(input, NumGroups(input)) else []
  }
}
