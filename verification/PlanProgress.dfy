/** Progress of a node-scoped sequence: as long as released pods become ready, every round moves every
    blocked node on, so a bounded number of rounds satisfies all of them. */
module PlanProgress {
  import opened Options
  import opened Kube
  import opened Sequence
  import opened DaemonSets
  import opened NodePlanSpec
  import opened PlanMeaning
  import opened Quiescence

  /** None of the pods belongs to two groups. */
  ghost predicate NonOverlapping(s: PodSequence, pods: seq<Pod>)
  {
    forall p, i, j :: p in pods && 0 <= i < j < |s.podGroups| && PodMatchesGroup(p, s.podGroups[i]) ==> !PodMatchesGroup(p, s.podGroups[j])
  }

  /** The pod is the same member on the same node; only its gate, readiness and the like may differ. */
  predicate SameMember(s: PodSequence, p: Pod, q: Pod)
  {
    && q.namespace == p.namespace && GroupIndexForPod(s, q) == GroupIndexForPod(s, p)
    && TargetNode(q.spec) == TargetNode(p.spec) && IsActive(q) == IsActive(p)
  }

  /** Released pods have become ready and have waited long enough. */
  predicate ReadyIfReleased(input: PlanInput, q: Pod)
  {
    AsMember(input)(q).Some? && TargetNode(q.spec) != "" && !HasGate(q.spec, Gate(input)) ==>
      ReadyFor(q, WaitOf(input.sequence.podGroups[GroupIndexForPod(input.sequence, q)]), input.now)
  }

  predicate AwaitedOn(input: PlanInput, ds: DaemonSet, node: Node, j: nat)
    requires j < NumGroups(input)
  {
    && !ds.deleting && SelectorMatches(input.sequence.podGroups[j].selector, ds.templateLabels)
    && DaemonSetExpectedOnNode(ds, node, Key(input))
  }

  /** Each DaemonSet a group waits for has created its pod on the node, with labels the group selects. */
  ghost predicate DaemonPodsExist(input: PlanInput, node: Node)
  {
    forall ds, j :: ds in input.daemonSets && 0 <= j < NumGroups(input) && AwaitedOn(input, ds, node, j) ==>
      exists p :: p in input.pods && InTarget(input, p) && IsActive(p) && TargetNode(p.spec) == node.name
               && OwnedBy(p, ds.uid) && PodMatchesGroup(p, input.sequence.podGroups[j])
  }

  ghost predicate RequiredPodsExist(input: PlanInput, node: Node)
  {
    forall j :: 0 <= j < NumGroups(input) && GroupPolicy(input.sequence.podGroups[j]) == RequireOnNode ==>
      exists p :: p in input.pods && ActiveOn(input, p, node.name, j)
  }

  /** One reconcile on a and what the cluster makes of it until the next one, on b: no nodes or pods are added,
      the pods the plan releases lose their gate, released pods become ready, and participating nodes have the pods
      a group expects there. */
  ghost predicate Round(a: PlanInput, b: PlanInput)
  {
    && b.sequence == a.sequence && |b.nodes| == |a.nodes| && |b.pods| == |a.pods|
    && UniqueNames(a.nodes) && UniqueNames(b.nodes)
    && (forall i :: 0 <= i < |a.nodes| ==>
          b.nodes[i].name == a.nodes[i].name && b.nodes[i].name != "" && Participating(b, b.nodes[i]) == Participating(a, a.nodes[i]))
    && (forall i :: 0 <= i < |a.pods| ==>
          && SameMember(a.sequence, a.pods[i], b.pods[i])
          && (HasGate(b.pods[i].spec, Gate(a)) ==> HasGate(a.pods[i].spec, Gate(a)) && ActionFor(a, a.pods[i]) == None)
          && ReadyIfReleased(b, b.pods[i]))
    && (forall n :: n in b.nodes && Participating(b, n) ==> DaemonPodsExist(b, n) && RequiredPodsExist(b, n))
  }

  lemma {:induction false} GroupIsUnique(s: PodSequence, pods: seq<Pod>, p: Pod, j: nat)
    requires p in pods && NonOverlapping(s, pods) && j < |s.podGroups| && PodMatchesGroup(p, s.podGroups[j]) && p.namespace == TargetNamespace(s)
    ensures GroupIndexForPod(s, p) == j
  {
    FirstGroupIsFirst(s.podGroups, p, 0);
  }

  /** Pods of the groups up to the one a node waits on hold no gate after the round, so they are ready. */
  lemma {:induction false} ReleasedPodsReady(a: PlanInput, b: PlanInput, i: nat, j: nat, q: Pod)
    requires Round(a, b) && i < |a.nodes| && Participating(a, a.nodes[i])
    requires j <= BaseState(a, a.nodes[i]).satisfied && j < NumGroups(a)
    requires q in b.pods && ActiveOn(b, q, b.nodes[i].name, j)
    ensures ReadyFor(q, WaitOf(b.sequence.podGroups[j]), b.now)
  {
    var k :| 0 <= k < |b.pods| && b.pods[k] == q;
    var p := a.pods[k];
    if HasGate(q.spec, Gate(a)) {
      var m := Member(p, j, a.nodes[i].name);
      assert AsMember(a)(p) == Some(m);
      MembersMeaning(a, m);
      WaitedGroupIsReleased(a, m, a.nodes[i]);
      assert false;
    }
  }

  lemma {:induction false} GroupHoldsAfterRound(a: PlanInput, b: PlanInput, i: nat, j: nat)
    requires Round(a, b) && NonOverlapping(b.sequence, b.pods) && i < |a.nodes| && Participating(a, a.nodes[i])
    requires j <= BaseState(a, a.nodes[i]).satisfied && j < NumGroups(a)
    ensures GroupHolds(b, b.nodes[i], j)
  {
    var node, g := b.nodes[i], b.sequence.podGroups[j];
    forall q | q in b.pods && ActiveOn(b, q, node.name, j)
      ensures ReadyFor(q, WaitOf(g), b.now)
    {
      ReleasedPodsReady(a, b, i, j, q);
    }
    assert DaemonPodsExist(b, node) && RequiredPodsExist(b, node);
    forall ds | ds in b.daemonSets && AwaitedOn(b, ds, node, j)
      ensures exists p :: p in b.pods && ActiveOn(b, p, node.name, j) && OwnedBy(p, ds.uid)
    {
      var p :| p in b.pods && InTarget(b, p) && IsActive(p) && TargetNode(p.spec) == node.name && OwnedBy(p, ds.uid) && PodMatchesGroup(p, g);
      GroupIsUnique(b.sequence, b.pods, p, j);
    }
  }

  /** A round satisfies at least the group a node was waiting on. */
  lemma {:induction false} RoundAdvances(a: PlanInput, b: PlanInput, i: nat)
    requires Round(a, b) && NonOverlapping(b.sequence, b.pods) && i < |a.nodes| && Participating(a, a.nodes[i])
    ensures var s := BaseState(a, a.nodes[i]).satisfied;
            BaseState(b, b.nodes[i]).satisfied >= if s < NumGroups(a) then s + 1 else s
  {
    var s := BaseState(a, a.nodes[i]).satisfied;
    var k := if s < NumGroups(a) then s + 1 else s;
    forall j | 0 <= j < k
      ensures GroupHolds(b, b.nodes[i], j)
    {
      GroupHoldsAfterRound(a, b, i, j);
    }
    SatisfiedIsLongestPrefix(b, b.nodes[i], k);
  }

  // ---- the measure ----

  function Missing(input: PlanInput, n: Node): nat
  {
    if Participating(input, n) then NumGroups(input) - BaseState(input, n).satisfied else 0
  }

  /** The groups still open on the first i nodes. */
  function Deficit(input: PlanInput, i: nat): nat
    requires i <= |input.nodes|
  {
    if i == 0 then 0 else Deficit(input, i - 1) + Missing(input, input.nodes[i - 1])
  }

  /** The blocked ones among the first i nodes. */
  function Blocked(input: PlanInput, i: nat): nat
    requires i <= |input.nodes|
  {
    if i == 0 then 0 else Blocked(input, i - 1) + if Missing(input, input.nodes[i - 1]) > 0 then 1 else 0
  }

  /** Every round closes at least one group on every blocked node. */
  lemma {:induction false} DeficitFalls(a: PlanInput, b: PlanInput, i: nat)
    requires Round(a, b) && NonOverlapping(b.sequence, b.pods) && i <= |a.nodes|
    ensures Deficit(b, i) + Blocked(a, i) <= Deficit(a, i)
  {
    if i > 0 {
      DeficitFalls(a, b, i - 1);
      if Participating(a, a.nodes[i - 1]) {
        RoundAdvances(a, b, i - 1);
      }
    }
  }

  lemma {:induction false} RoundKeepsShape(a: PlanInput, b: PlanInput, i: nat)
    requires Round(a, b) && i < |a.nodes| && Participating(a, a.nodes[i])
    ensures b.sequence == a.sequence && |b.nodes| == |a.nodes| && Participating(b, b.nodes[i])
  {
  }

  /** After r rounds every participating node has at least r satisfied groups, and after as many rounds as there
      are groups all of them. */
  lemma {:induction false} RoundsSatisfy(trace: seq<PlanInput>, r: nat, i: nat)
    requires r < |trace| && forall x :: 0 <= x < |trace| - 1 ==> Round(trace[x], trace[x + 1])
    requires forall x :: 0 < x < |trace| ==> NonOverlapping(trace[x].sequence, trace[x].pods)
    requires i < |trace[0].nodes| && Participating(trace[0], trace[0].nodes[i])
    ensures trace[r].sequence == trace[0].sequence && |trace[r].nodes| == |trace[0].nodes|
    ensures Participating(trace[r], trace[r].nodes[i])
    ensures BaseState(trace[r], trace[r].nodes[i]).satisfied >= if r < NumGroups(trace[0]) then r else NumGroups(trace[0])
  {
    if r > 0 {
      RoundsSatisfy(trace, r - 1, i);
      assert Round(trace[r - 1], trace[r]);
      RoundKeepsShape(trace[r - 1], trace[r], i);
      RoundAdvances(trace[r - 1], trace[r], i);
    }
  }
}
