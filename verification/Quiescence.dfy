/** One pass and done: the controller's own writes never feed back into its plan. */
module Quiescence {
  import opened Options
  import opened Collections
  import opened Kube
  import opened Sequence
  import opened DaemonSets
  import opened NodePlanSpec
  import opened PlanMeaning
  import opened PlanOrder
  import opened PodEdits
  import opened Steering

  // ---- what one pass writes ----

  /** The action of the plan for a pod, if any. */
  function ActionFor(input: PlanInput, p: Pod): Option<PodAction>
  {
    match AsMember(input)(p)
    case Some(m) => MemberAction(input, BaseStates(input))(m)
    case None => StrayAction(input)(p)
  }

  /** The pod after its two patches. */
  function PodAfter(input: PlanInput, p: Pod): Pod
  {
    match ActionFor(input, p)
    case None => p
    case Some(a) =>
      p.(spec := Ungated(Constrained(p.spec, a), Gate(input)),
         version := p.version + if Constrained(p.spec, a) != p.spec then 2 else 1)
  }

  /** The node after its sync. */
  function NodeAfter(input: PlanInput, labelInUse: bool, n: Node): Node
  {
    Synced(n, Key(input), EligibilityMethod(input.sequence), NumGroups(input), ReportedState(input, n), labelInUse)
  }

  function NodesAfter(input: PlanInput, labelInUse: bool, nodes: seq<Node>): (r: seq<Node>)
    ensures |r| == |nodes|
  {
    if nodes == [] then [] else [NodeAfter(input, labelInUse, nodes[0])] + NodesAfter(input, labelInUse, nodes[1..])
  }

  function PodsAfter(input: PlanInput): (r: seq<Pod>)
    ensures |r| == |input.pods|
    ensures forall i :: 0 <= i < |r| ==> r[i] == PodAfter(input, input.pods[i])
  {
    seq(|input.pods|, i requires 0 <= i < |input.pods| => PodAfter(input, input.pods[i]))
  }

  predicate LabelInUse(input: PlanInput)
  {
    Referenced(input.pods, Key(input))
  }

  /** The cluster after every patch of one plan is applied, nothing else having moved. */
  function AfterPass(input: PlanInput): PlanInput
  {
    input.(nodes := NodesAfter(input, LabelInUse(input), input.nodes), pods := PodsAfter(input))
  }

  // ---- who reads the key ----

  /** Neither the node selector nor any DaemonSet template reads the sequence's own label. */
  ghost predicate KeyIsPrivate(input: PlanInput)
  {
    && (input.sequence.nodeSelector.Selector? ==>
          forall a, b :: SameElsewhere(a, b, Key(input)) ==>
            input.sequence.nodeSelector.matches(a) == input.sequence.nodeSelector.matches(b))
    && (forall ds :: ds in input.daemonSets ==> !MentionsKey(ds.template, Key(input)))
  }

  lemma {:induction false} SyncTouchesOwnKeyOnly(input: PlanInput, inUse: bool, n: Node)
    ensures var after := NodeAfter(input, inUse, n);
            && after.name == n.name && after.deleting == n.deleting
            && SameElsewhere(n.labels, after.labels, Key(input))
            && (forall t: Taint :: t.key != Key(input) ==> (t in after.taints <==> t in n.taints))
  {
    var key, mode, st := Key(input), EligibilityMethod(input.sequence), ReportedState(input, n);
    SetKeyTouchesOwnKeyOnly(n, key, WantLabel(n.labels, key, mode, st, inUse), WantTaint(key, mode, NumGroups(input), st));
  }

  lemma {:induction false} ExpectationSurvivesSync(input: PlanInput, inUse: bool, n: Node, ds: DaemonSet)
    requires KeyIsPrivate(input) && ds in input.daemonSets
    ensures DaemonSetExpectedOnNode(ds, NodeAfter(input, inUse, n), Key(input)) == DaemonSetExpectedOnNode(ds, n, Key(input))
  {
    var after := NodeAfter(input, inUse, n);
    SyncTouchesOwnKeyOnly(input, inUse, n);
    ExpectedMeaning(ds, n, Key(input));
    ExpectedMeaning(ds, after, Key(input));
    AffinityIgnoresLabel(ds.template, Key(input), n, after);
  }

  lemma {:induction false} ParticipationSurvivesSync(input: PlanInput, inUse: bool, n: Node)
    requires KeyIsPrivate(input)
    ensures Participating(AfterPass(input), NodeAfter(input, inUse, n)) == Participating(input, n)
  {
    SyncTouchesOwnKeyOnly(input, inUse, n);
  }

  // ---- pods keep everything the plan reads ----

  /** Patches of the controller change the spec and the version of a pod only. */
  predicate SameButSpec(p: Pod, q: Pod)
  {
    q == p.(spec := q.spec, version := q.version)
  }

  lemma {:induction false} TargetReadsTwoFields(a: PodSpec, b: PodSpec)
    requires a.nodeName == b.nodeName && a.required == b.required
    ensures TargetNode(a) == TargetNode(b)
  {
  }

  lemma {:induction false} HandledKeepsTarget(spec: PodSpec, a: PodAction, gate: string)
    ensures TargetNode(Ungated(Constrained(spec, a), gate)) == TargetNode(spec) && !HasGate(Ungated(Constrained(spec, a), gate), gate)
  {
    WithoutGateMember(spec.gates, gate, gate);
    TargetReadsTwoFields(Ungated(Constrained(spec, a), gate), Constrained(spec, a));
    if a.addAffinity.Some? {
      AffinityEditKeepsTarget(spec, a.addAffinity.value);
      TargetReadsTwoFields(Constrained(spec, a), spec.(required := WithRequirement(spec.required, a.addAffinity.value)));
    } else {
      TargetReadsTwoFields(Constrained(spec, a), spec);
    }
  }

  /** The pod after the pass: same target node, same group, and no gate if it was released. */
  lemma {:induction false} PodAfterShape(input: PlanInput, p: Pod)
    ensures var q := PodAfter(input, p);
            && SameButSpec(p, q)
            && GroupIndexForPod(input.sequence, q) == GroupIndexForPod(input.sequence, p)
            && TargetNode(q.spec) == TargetNode(p.spec)
            && (ActionFor(input, p).Some? ==> !HasGate(q.spec, Gate(input)))
            && (ActionFor(input, p).None? ==> q == p)
  {
    var q := PodAfter(input, p);
    SameFirstGroup(input.sequence.podGroups, p, q, 0);
    if ActionFor(input, p).Some? {
      HandledKeepsTarget(p.spec, ActionFor(input, p).value, Gate(input));
    }
  }

  // ---- node states are unchanged ----

  lemma {:induction false} PodsOnAfter(input: PlanInput, node: string, j: nat)
    ensures var a, b := PodsOn(input, node, j), PodsOn(AfterPass(input), node, j);
            |a| == |b| && forall i :: 0 <= i < |a| ==> SameButSpec(a[i], b[i])
  {
    var after := AfterPass(input);
    PodsOnCollect(input, node, j);
    PodsOnCollect(after, node, j);
    var f, g := GroupPod(input, node, j), GroupPod(after, node, j);
    forall i | 0 <= i < |input.pods|
      ensures f(input.pods[i]).Some? == g(after.pods[i]).Some?
      ensures f(input.pods[i]).Some? ==> SameButSpec(f(input.pods[i]).value, g(after.pods[i]).value)
    {
      PodAfterShape(input, input.pods[i]);
    }
    CollectRelated(f, g, (p, q) => SameButSpec(p, q), input.pods, after.pods);
  }

  lemma {:induction false} PodsOnCollect(input: PlanInput, node: string, j: nat)
    ensures PodsOn(input, node, j) == Collect(GroupPod(input, node, j), input.pods)
  {
    CollectCompose(AsMember(input), OnNode(node, j), GroupPod(input, node, j), input.pods);
  }

  predicate Alike(a: seq<Pod>, b: seq<Pod>)
  {
    |a| == |b| && forall i :: 0 <= i < |a| ==> SameButSpec(a[i], b[i])
  }

  lemma {:induction false} FirstUnreadyAlike(a: seq<Pod>, b: seq<Pod>)
    requires Alike(a, b)
    ensures FirstUnready(a).Some? == FirstUnready(b).Some?
    ensures FirstUnready(a).Some? ==> FirstUnready(a).value.name == FirstUnready(b).value.name
  {
    if a != [] {
      assert SameButSpec(a[0], b[0]);
      FirstUnreadyAlike(a[1..], b[1..]);
    }
  }

  lemma {:induction false} MaxRemainingAlike(a: seq<Pod>, b: seq<Pod>, wait: int, now: int)
    requires Alike(a, b)
    ensures MaxRemaining(a, wait, now) == MaxRemaining(b, wait, now)
  {
    if a != [] {
      assert SameButSpec(a[|a| - 1], b[|b| - 1]);
      MaxRemainingAlike(a[..|a| - 1], b[..|b| - 1], wait, now);
    }
  }

  lemma {:induction false} CoveredAlike(ds: DaemonSet, n: Node, m: Node, a: seq<Pod>, b: seq<Pod>, key: string)
    requires Alike(a, b) && DaemonSetExpectedOnNode(ds, n, key) == DaemonSetExpectedOnNode(ds, m, key)
    ensures Covered(ds, n, a, key) == Covered(ds, m, b, key)
  {
    if p :| p in a && OwnedBy(p, ds.uid) {
      var i :| 0 <= i < |a| && a[i] == p;
      assert SameButSpec(a[i], b[i]) && OwnedBy(b[i], ds.uid) && b[i] in b;
    }
    if p :| p in b && OwnedBy(p, ds.uid) {
      var i :| 0 <= i < |b| && b[i] == p;
      assert SameButSpec(a[i], b[i]) && OwnedBy(a[i], ds.uid) && a[i] in a;
    }
  }

  lemma {:induction false} FirstUncoveredAlike(sets: seq<DaemonSet>, n: Node, m: Node, a: seq<Pod>, b: seq<Pod>, key: string)
    requires Alike(a, b)
    requires forall ds :: ds in sets ==> DaemonSetExpectedOnNode(ds, n, key) == DaemonSetExpectedOnNode(ds, m, key)
    ensures FirstUncovered(sets, n, a, key) == FirstUncovered(sets, m, b, key)
  {
    if sets != [] {
      CoveredAlike(sets[0], n, m, a, b, key);
      FirstUncoveredAlike(sets[1..], n, m, a, b, key);
    }
  }

  lemma {:induction false} GroupBlockAlike(g: PodGroup, sets: seq<DaemonSet>, n: Node, m: Node, a: seq<Pod>,
                                           b: seq<Pod>, wait: int, now: int, key: string)
    requires Alike(a, b)
    requires forall ds :: ds in sets ==> DaemonSetExpectedOnNode(ds, n, key) == DaemonSetExpectedOnNode(ds, m, key)
    ensures GroupBlock(g, n, a, sets, wait, now, key) == GroupBlock(g, m, b, sets, wait, now, key)
  {
    FirstUncoveredAlike(sets, n, m, a, b, key);
    FirstUnreadyAlike(a, b);
    MaxRemainingAlike(a, b, wait, now);
  }

  lemma {:induction false} BlockAfter(input: PlanInput, inUse: bool, n: Node, j: nat)
    requires KeyIsPrivate(input) && j < NumGroups(input)
    ensures BlockOf(AfterPass(input), NodeAfter(input, inUse, n), j) == BlockOf(input, n, j)
  {
    var g, after := input.sequence.podGroups[j], NodeAfter(input, inUse, n);
    var sets := DaemonSetsForGroup(input.daemonSets, g);
    SyncTouchesOwnKeyOnly(input, inUse, n);
    PodsOnAfter(input, n.name, j);
    forall ds | ds in sets
      ensures DaemonSetExpectedOnNode(ds, n, Key(input)) == DaemonSetExpectedOnNode(ds, after, Key(input))
    {
      CollectMember(InGroup(g), input.daemonSets, ds);
      ExpectationSurvivesSync(input, inUse, n, ds);
    }
    GroupBlockAlike(g, sets, n, after, PodsOn(input, n.name, j), PodsOn(AfterPass(input), n.name, j), WaitOf(g), input.now, Key(input));
  }

  lemma {:induction false} SameBlocksSameCount(x: PlanInput, y: PlanInput, n: Node, m: Node)
    requires NumGroups(x) == NumGroups(y)
    requires forall i :: 0 <= i < NumGroups(x) ==> BlockOf(x, n, i) == BlockOf(y, m, i)
    ensures SatisfiedFrom(x, n, 0) == SatisfiedFrom(y, m, 0)
  {
    var blocks := seq(NumGroups(x), i requires 0 <= i < NumGroups(x) => BlockOf(x, n, i));
    BlocksGiveCount(x, n, blocks, 0);
    BlocksGiveCount(y, m, blocks, 0);
  }

  lemma {:induction false} SameBlocksSameState(x: PlanInput, y: PlanInput, n: Node, m: Node)
    requires NumGroups(x) == NumGroups(y) && n.name == m.name && Participating(x, n) == Participating(y, m)
    requires forall i :: 0 <= i < NumGroups(x) ==> BlockOf(x, n, i) == BlockOf(y, m, i)
    ensures BaseState(x, n) == BaseState(y, m)
  {
    SameBlocksSameCount(x, y, n, m);
  }

  lemma {:induction false} StateAfter(input: PlanInput, inUse: bool, n: Node)
    requires KeyIsPrivate(input)
    ensures BaseState(AfterPass(input), NodeAfter(input, inUse, n)) == BaseState(input, n)
  {
    var x, y, m := AfterPass(input), input, NodeAfter(input, inUse, n);
    SyncTouchesOwnKeyOnly(input, inUse, n);
    ParticipationSurvivesSync(input, inUse, n);
    forall i | 0 <= i < NumGroups(input)
      ensures BlockOf(x, m, i) == BlockOf(y, n, i)
    {
      BlockAfter(input, inUse, n, i);
    }
    SameBlocksSameState(x, y, m, n);
  }

  lemma {:induction false} InsertAfter(input: PlanInput, inUse: bool, n: Node, sorted: seq<Node>)
    ensures InsertByName(NodeAfter(input, inUse, n), NodesAfter(input, inUse, sorted)) == NodesAfter(input, inUse, InsertByName(n, sorted))
  {
    SyncTouchesOwnKeyOnly(input, inUse, n);
    if sorted != [] {
      SyncTouchesOwnKeyOnly(input, inUse, sorted[0]);
      if NameLe(n.name, sorted[0].name) {
        assert ([n] + sorted)[1..] == sorted;
      } else {
        InsertAfter(input, inUse, n, sorted[1..]);
        assert ([sorted[0]] + InsertByName(n, sorted[1..]))[1..] == InsertByName(n, sorted[1..]);
      }
    }
  }

  lemma {:induction false} SortAfter(input: PlanInput, inUse: bool, nodes: seq<Node>)
    ensures SortByName(NodesAfter(input, inUse, nodes)) == NodesAfter(input, inUse, SortByName(nodes))
  {
    if nodes != [] {
      SortAfter(input, inUse, nodes[1..]);
      InsertAfter(input, inUse, nodes[0], SortByName(nodes[1..]));
    }
  }

  lemma {:induction false} NodesAfterAt(input: PlanInput, inUse: bool, nodes: seq<Node>, i: nat)
    requires i < |nodes|
    ensures NodesAfter(input, inUse, nodes)[i] == NodeAfter(input, inUse, nodes[i])
  {
    if i > 0 {
      NodesAfterAt(input, inUse, nodes[1..], i - 1);
    }
  }

  lemma {:induction false} BaseStatesAfter(input: PlanInput)
    requires KeyIsPrivate(input)
    ensures BaseStates(AfterPass(input)) == BaseStates(input)
  {
    var inUse, sorted := LabelInUse(input), SortByName(input.nodes);
    SortAfter(input, inUse, input.nodes);
    forall i | 0 <= i < |sorted|
      ensures BaseStates(AfterPass(input))[i] == BaseStates(input)[i]
    {
      StatesOfAt(input, sorted, i);
      StatesOfAt(AfterPass(input), NodesAfter(input, inUse, sorted), i);
      NodesAfterAt(input, inUse, sorted, i);
      StateAfter(input, inUse, sorted[i]);
    }
  }

  // ---- decisions ----

  function KeptByPod(input: PlanInput, states: seq<NodeState>): Pod -> Option<Pod>
  {
    (p: Pod) => match AsMember(input)(p) case None => None case Some(m) => KeptPod(input, states)(m)
  }

  function LateByPod(input: PlanInput, states: seq<NodeState>): Pod -> Option<TimedOutPod>
  {
    (p: Pod) => match AsMember(input)(p) case None => None case Some(m) => TimeoutEntry(input, states)(m)
  }

  function ActionByPod(input: PlanInput, states: seq<NodeState>): Pod -> Option<PodAction>
  {
    (p: Pod) => match AsMember(input)(p) case None => None case Some(m) => MemberAction(input, states)(m)
  }

  lemma {:induction false} MemberAfter(input: PlanInput, p: Pod)
    ensures var q := PodAfter(input, p);
            && AsMember(AfterPass(input))(q) == (match AsMember(input)(p)
                                                 case None => None
                                                 case Some(m) => Some(Member(q, m.group, m.node)))
            && (StrayAction(AfterPass(input))(q).Some? ==> q == p && StrayAction(input)(p).Some? && AsMember(input)(p).None?)
  {
    PodAfterShape(input, p);
  }

  /** A member without the gate is neither released nor kept. */
  lemma {:induction false} NoGateNoDecision(input: PlanInput, states: seq<NodeState>, m: Member)
    requires !HasGate(m.pod.spec, Gate(input))
    ensures MemberAction(input, states)(m) == None && KeptPod(input, states)(m) == None && TimeoutEntry(input, states)(m) == None
  {
  }

  lemma {:induction false} ReleasedIsNotKept(input: PlanInput, states: seq<NodeState>, m: Member)
    requires MemberAction(input, states)(m).Some?
    ensures KeptPod(input, states)(m) == None && TimeoutEntry(input, states)(m) == None
  {
  }

  /** Asked again about a pod it handled, the plan has nothing left to do. */
  lemma {:induction false} SecondLook(input: PlanInput, p: Pod)
    ensures var after, states, q := AfterPass(input), BaseStates(input), PodAfter(input, p);
            && ActionByPod(after, states)(q) == None && StrayAction(after)(q) == None
            && KeptByPod(after, states)(q) == KeptByPod(input, states)(p)
            && LateByPod(after, states)(q) == LateByPod(input, states)(p)
  {
    PodAfterShape(input, p);
    MemberAfter(input, p);
    var after, states, q := AfterPass(input), BaseStates(input), PodAfter(input, p);
    if AsMember(input)(p).Some? {
      var m := AsMember(input)(p).value;
      if ActionFor(input, p).Some? {
        NoGateNoDecision(after, states, Member(q, m.group, m.node));
        ReleasedIsNotKept(input, states, m);
      } else {
        assert m.pod == p == q;
        SameDecisions(after, input, states, states, m);
      }
    }
  }

  lemma {:induction false} NothingLeft(input: PlanInput)
    requires KeyIsPrivate(input)
    ensures Ungate(AfterPass(input)) == []
  {
    var after, states := AfterPass(input), BaseStates(input);
    BaseStatesAfter(input);
    forall q | q in after.pods
      ensures ActionByPod(after, states)(q) == None && StrayAction(after)(q) == None
    {
      var i :| 0 <= i < |after.pods| && after.pods[i] == q;
      SecondLook(input, input.pods[i]);
    }
    CollectCompose(AsMember(after), MemberAction(after, states), ActionByPod(after, states), after.pods);
    CollectsNothing(ActionByPod(after, states), after.pods);
    CollectsNothing(StrayAction(after), after.pods);
  }

  lemma {:induction false} KeptAgain(input: PlanInput)
    requires KeyIsPrivate(input)
    ensures KeptPods(AfterPass(input)) == KeptPods(input) && TimedOut(AfterPass(input)) == TimedOut(input)
  {
    var after, states := AfterPass(input), BaseStates(input);
    BaseStatesAfter(input);
    forall i | 0 <= i < |input.pods|
      ensures KeptByPod(input, states)(input.pods[i]) == KeptByPod(after, states)(after.pods[i])
      ensures LateByPod(input, states)(input.pods[i]) == LateByPod(after, states)(after.pods[i])
    {
      SecondLook(input, input.pods[i]);
    }
    CollectCompose(AsMember(input), KeptPod(input, states), KeptByPod(input, states), input.pods);
    CollectCompose(AsMember(after), KeptPod(after, states), KeptByPod(after, states), after.pods);
    CollectAligned(KeptByPod(input, states), KeptByPod(after, states), input.pods, after.pods);
    CollectCompose(AsMember(input), TimeoutEntry(input, states), LateByPod(input, states), input.pods);
    CollectCompose(AsMember(after), TimeoutEntry(after, states), LateByPod(after, states), after.pods);
    CollectAligned(LateByPod(input, states), LateByPod(after, states), input.pods, after.pods);
  }

  lemma {:induction false} FailedIffTimedOut(input: PlanInput, states: seq<NodeState>, members: seq<Member>, i: nat)
    requires i < |states|
    ensures MarkFailed(input, states, members)[i].failed <==>
            states[i].failed || exists e :: e in Collect(TimeoutEntry(input, states), members) && Lookup(states, e.node) == Some(i)
  {
    MarkFailedMeaning(input, states, members, i);
    var f := TimeoutEntry(input, states);
    if m :| m in members && Kept(input, states, m) && Expired(input, m.pod) && Lookup(states, m.node) == Some(i) {
      CollectMember(f, members, TimedOutPod(m.pod, m.node, m.group));
      assert f(m) == Some(TimedOutPod(m.pod, m.node, m.group));
    }
    if e: TimedOutPod :| e in Collect(f, members) && Lookup(states, e.node) == Some(i) {
      CollectMember(f, members, e);
    }
  }

  lemma {:induction false} FinalStatesAfter(input: PlanInput)
    requires KeyIsPrivate(input)
    ensures FinalStates(AfterPass(input)) == FinalStates(input)
  {
    var after := AfterPass(input);
    BaseStatesAfter(input);
    KeptAgain(input);
    forall i | 0 <= i < |BaseStates(input)|
      ensures FinalStates(after)[i] == FinalStates(input)[i]
    {
      FailedIffTimedOut(input, BaseStates(input), Members(input), i);
      FailedIffTimedOut(after, BaseStates(input), Members(after), i);
      FailedIsBlocked(input, i);
      FailedIsBlocked(after, i);
      assert FinalStates(after)[i].(failed := false) == FinalStates(input)[i].(failed := false);
    }
  }

  // ---- no further node patch ----

  /** In Taint mode no action edits the affinity, so a pod goes on requiring what it required. */
  lemma {:induction false} RequiresStill(input: PlanInput, p: Pod, key: string)
    requires EligibilityMethod(input.sequence) == TaintMethod
    ensures PendingRequires(PodAfter(input, p), key) == PendingRequires(p, key)
  {
    ActionLeavesAffinity(input, p);
    assert PodAfter(input, p).spec.required == p.spec.required;
  }

  lemma {:induction false} ActionLeavesAffinity(input: PlanInput, p: Pod)
    requires EligibilityMethod(input.sequence) == TaintMethod
    ensures ActionFor(input, p).Some? ==> ActionFor(input, p).value.addAffinity == None
  {
  }

  lemma {:induction false} ReferencedAfter(input: PlanInput)
    requires EligibilityMethod(input.sequence) == TaintMethod
    ensures LabelInUse(AfterPass(input)) == LabelInUse(input)
  {
    var key, before, after := Key(input), input.pods, PodsAfter(input);
    forall i | 0 <= i < |before|
      ensures PendingRequires(after[i], key) == PendingRequires(before[i], key)
    {
      RequiresStill(input, before[i], key);
    }
    ReferencedAlike(before, after, key);
  }

  lemma {:induction false} ReferencedAlike(a: seq<Pod>, b: seq<Pod>, key: string)
    requires |a| == |b| && forall i :: 0 <= i < |a| ==> PendingRequires(b[i], key) == PendingRequires(a[i], key)
    ensures Referenced(a, key) == Referenced(b, key)
  {
    if p :| p in a && PendingRequires(p, key) {
      var i :| 0 <= i < |a| && a[i] == p;
      assert b[i] in b;
    }
    if q :| q in b && PendingRequires(q, key) {
      var i :| 0 <= i < |b| && b[i] == q;
      assert a[i] in a;
    }
  }

  lemma {:induction false} ReportedAfter(input: PlanInput, n: Node)
    requires KeyIsPrivate(input) && UniqueNames(input.nodes) && n in input.nodes
    ensures ReportedState(AfterPass(input), NodeAfter(input, LabelInUse(input), n)) == ReportedState(input, n)
  {
    SyncTouchesOwnKeyOnly(input, LabelInUse(input), n);
    BaseStatesAfter(input);
    FinalStatesAfter(input);
    LookupNode(input, n);
  }

  lemma {:induction false} SyncAgain(input: PlanInput, n: Node)
    requires KeyIsPrivate(input) && UniqueNames(input.nodes) && n in input.nodes
    ensures var once, after := NodeAfter(input, LabelInUse(input), n), AfterPass(input);
            NodeAfter(after, LabelInUse(after), once) == once
  {
    var key, mode := Key(input), EligibilityMethod(input.sequence);
    var after, once, st := AfterPass(input), NodeAfter(input, LabelInUse(input), n), ReportedState(input, n);
    ReportedAfter(input, n);
    if mode == TaintMethod {
      ReferencedAfter(input);
    }
    var value, taint := WantLabel(n.labels, key, mode, st, LabelInUse(input)), WantTaint(key, mode, NumGroups(input), st);
    assert once == SetKey(n, key, value, taint);
    assert WantLabel(once.labels, key, mode, st, LabelInUse(after)) == value;
    SetKeyIsIdempotent(n, key, value, taint);
  }

  /** Recomputing the plan at the same time after one fully applied pass finds the same node states, the same
      gated and timed-out pods, no pod to release, and no node to patch. */
  lemma {:induction false} OnePassIsEnough(input: PlanInput)
    requires KeyIsPrivate(input) && UniqueNames(input.nodes)
    ensures var after := AfterPass(input);
            && FinalStates(after) == FinalStates(input)
            && Ungate(after) == []
            && KeptPods(after) == KeptPods(input) && TimedOut(after) == TimedOut(input)
            && (forall n :: n in input.nodes ==>
                  NodeAfter(after, LabelInUse(after), NodeAfter(input, LabelInUse(input), n)) == NodeAfter(input, LabelInUse(input), n))
  {
    FinalStatesAfter(input);
    NothingLeft(input);
    KeptAgain(input);
    forall n | n in input.nodes
      ensures NodeAfter(AfterPass(input), LabelInUse(AfterPass(input)), NodeAfter(input, LabelInUse(input), n)) == NodeAfter(input, LabelInUse(input), n)
    {
      SyncAgain(input, n);
    }
  }
}
