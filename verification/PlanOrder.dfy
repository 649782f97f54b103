/** Nodes do not influence one another, and the order of the listed objects influences nothing. */
module PlanOrder {
  import opened Options
  import opened Collections
  import opened Kube
  import opened Sequence
  import opened DaemonSets
  import opened NodePlanSpec
  import opened NodePlans
  import opened PlanMeaning

  // ---- isolation ----

  function PinnedTo(node: string): Pod -> Option<Pod>
  {
    (p: Pod) => if TargetNode(p.spec) == node then Some(p) else None
  }

  /** The pods bound or pinned to a node, in listing order. */
  function Pinned(input: PlanInput, node: string): seq<Pod>
  {
    Collect(PinnedTo(node), input.pods)
  }

  /** Same sequence, DaemonSets and clock. */
  ghost predicate SameSetting(a: PlanInput, b: PlanInput)
  {
    a.sequence == b.sequence && a.daemonSets == b.daemonSets && a.now == b.now
  }

  /** Everything else may differ: other nodes, and pods of other nodes. */
  ghost predicate AgreeOn(a: PlanInput, b: PlanInput, node: Node)
  {
    && SamePinned(a, b, node.name)
    && node in a.nodes && node in b.nodes && UniqueNames(a.nodes) && UniqueNames(b.nodes)
  }

  function GroupPod(input: PlanInput, node: string, j: nat): Pod -> Option<Pod>
  {
    (p: Pod) => if ActiveOn(input, p, node, j) then Some(p) else None
  }

  lemma {:induction false} PodsOnAreAmongPinned(input: PlanInput, node: string, j: nat)
    ensures PodsOn(input, node, j) == Collect(GroupPod(input, node, j), Pinned(input, node))
  {
    CollectCompose(AsMember(input), OnNode(node, j), GroupPod(input, node, j), input.pods);
    CollectCompose(PinnedTo(node), GroupPod(input, node, j), GroupPod(input, node, j), input.pods);
  }

  ghost predicate SamePinned(a: PlanInput, b: PlanInput, node: string)
  {
    SameSetting(a, b) && Pinned(a, node) == Pinned(b, node)
  }

  lemma {:induction false} BlockIsolation(a: PlanInput, b: PlanInput, node: Node, j: nat)
    requires SamePinned(a, b, node.name) && j < NumGroups(a)
    ensures BlockOf(a, node, j) == BlockOf(b, node, j)
  {
    PodsOnAreAmongPinned(a, node.name, j);
    PodsOnAreAmongPinned(b, node.name, j);
    CollectAgree(GroupPod(a, node.name, j), GroupPod(b, node.name, j), Pinned(a, node.name));
  }

  lemma {:induction false} SatisfiedIsolation(a: PlanInput, b: PlanInput, node: Node, j: nat)
    requires SamePinned(a, b, node.name) && j <= NumGroups(a)
    ensures SatisfiedFrom(a, node, j) == SatisfiedFrom(b, node, j)
    decreases NumGroups(a) - j
  {
    if j < NumGroups(a) {
      BlockIsolation(a, b, node, j);
      SatisfiedIsolation(a, b, node, j + 1);
    }
  }

  lemma {:induction false} StateIsolation(a: PlanInput, b: PlanInput, node: Node)
    requires SamePinned(a, b, node.name)
    ensures BaseState(a, node) == BaseState(b, node)
  {
    SatisfiedIsolation(a, b, node, 0);
    if SatisfiedFrom(a, node, 0) < NumGroups(a) {
      BlockIsolation(a, b, node, SatisfiedFrom(a, node, 0));
    }
  }

  /** Every pod pinned to the node gets the same decision. */
  lemma {:induction false} DecisionIsolation(a: PlanInput, b: PlanInput, node: Node, m: Member)
    requires AgreeOn(a, b, node) && m.node == node.name && m.node != ""
    ensures MemberAction(a, BaseStates(a))(m) == MemberAction(b, BaseStates(b))(m)
    ensures TimeoutEntry(a, BaseStates(a))(m) == TimeoutEntry(b, BaseStates(b))(m)
  {
    StateIsolation(a, b, node);
    LookupNode(a, node);
    LookupNode(b, node);
  }

  /** The final state the plan reports for a node of the input. */
  function ReportedState(input: PlanInput, node: Node): NodeState
  {
    match Lookup(BaseStates(input), node.name)
    case None => BaseState(input, node)
    case Some(i) => FinalStates(input)[i]
  }

  /** A node is failed exactly when one of its own pods was kept past the timeout. */
  lemma {:induction false} FailedMeaning(input: PlanInput, node: Node)
    requires UniqueNames(input.nodes) && node in input.nodes
    ensures ReportedState(input, node) == BaseState(input, node).(failed := ReportedState(input, node).failed)
    ensures ReportedState(input, node).failed <==>
            exists m :: m in Members(input) && m.node == node.name && Kept(input, BaseStates(input), m) && TimeIsUp(input, m.pod)
  {
    LookupNode(input, node);
    var i := Lookup(BaseStates(input), node.name).value;
    FailedIsBlocked(input, i);
    MarkFailedMeaning(input, BaseStates(input), Members(input), i);
  }

  lemma {:induction false} MemberTransfers(a: PlanInput, b: PlanInput, node: Node, m: Member)
    requires AgreeOn(a, b, node) && m in Members(a) && m.node == node.name && m.node != ""
    ensures m in Members(b)
  {
    MembersMeaning(a, m);
    CollectMember(PinnedTo(node.name), a.pods, m.pod);
    CollectMember(PinnedTo(node.name), b.pods, m.pod);
    MembersMeaning(b, m);
  }

  lemma {:induction false} KeptTransfers(a: PlanInput, b: PlanInput, node: Node, m: Member)
    requires AgreeOn(a, b, node) && m.node == node.name && m.node != "" && Kept(a, BaseStates(a), m)
    ensures Kept(b, BaseStates(b), m)
  {
    DecisionIsolation(a, b, node, m);
  }

  lemma {:induction false} FailedTransfers(a: PlanInput, b: PlanInput, node: Node)
    requires AgreeOn(a, b, node) && ReportedState(a, node).failed
    ensures ReportedState(b, node).failed
  {
    FailedMeaning(a, node);
    FailedMeaning(b, node);
    var m :| m in Members(a) && m.node == node.name && Kept(a, BaseStates(a), m) && TimeIsUp(a, m.pod);
    var _ := KeptMeaning(a, m);
    MemberTransfers(a, b, node, m);
    KeptTransfers(a, b, node, m);
  }

  /** Whatever the rest of the cluster looks like, two inputs that agree on a node and on the pods pinned to it
      give the node the same report and those pods the same actions. */
  lemma {:induction false} NodeIsolation(a: PlanInput, b: PlanInput, node: Node)
    requires AgreeOn(a, b, node)
    ensures ReportedState(a, node) == ReportedState(b, node)
    ensures forall m: Member :: m.node == node.name && m.node != "" ==>
              MemberAction(a, BaseStates(a))(m) == MemberAction(b, BaseStates(b))(m)
  {
    StateIsolation(a, b, node);
    FailedMeaning(a, node);
    FailedMeaning(b, node);
    if ReportedState(a, node).failed {
      FailedTransfers(a, b, node);
    } else if ReportedState(b, node).failed {
      FailedTransfers(b, a, node);
    }
    forall m: Member | m.node == node.name && m.node != ""
      ensures MemberAction(a, BaseStates(a))(m) == MemberAction(b, BaseStates(b))(m)
    {
      DecisionIsolation(a, b, node, m);
    }
  }

  // ---- order independence ----

  ghost predicate Reordered(a: PlanInput, b: PlanInput)
  {
    && a.sequence == b.sequence && a.now == b.now && UniqueNames(a.nodes)
    && multiset(a.nodes) == multiset(b.nodes) && multiset(a.pods) == multiset(b.pods)
    && multiset(a.daemonSets) == multiset(b.daemonSets)
  }

  lemma {:induction false} SameElements<T>(a: seq<T>, b: seq<T>, x: T)
    requires multiset(a) == multiset(b)
    ensures x in a <==> x in b
  {
    assert x in a <==> x in multiset(a);
    assert x in b <==> x in multiset(b);
  }

  ghost predicate SortedByName(nodes: seq<Node>)
  {
    forall i, j :: 0 <= i < j < |nodes| ==> NameLe(nodes[i].name, nodes[j].name)
  }

  lemma {:induction false} InsertSorts(n: Node, sorted: seq<Node>)
    requires SortedByName(sorted)
    ensures SortedByName(InsertByName(n, sorted))
  {
    if sorted == [] {
    } else if NameLe(n.name, sorted[0].name) {
      forall j | 0 <= j < |sorted| ensures NameLe(n.name, sorted[j].name) {
        if j > 0 {
          NameLeTransitive(n.name, sorted[0].name, sorted[j].name);
        }
      }
    } else {
      NameLeTotal(n.name, sorted[0].name);
      InsertSorts(n, sorted[1..]);
      var r := InsertByName(n, sorted[1..]);
      InsertKeeps(n, sorted[1..]);
      forall j | 0 <= j < |r| ensures NameLe(sorted[0].name, r[j].name) {
        assert r[j] in multiset(r);
        assert r[j] in multiset(sorted[1..]) || r[j] == n;
        assert r[j] in sorted[1..] || r[j] == n;
      }
    }
  }

  lemma {:induction false} SortSorts(nodes: seq<Node>)
    ensures SortedByName(SortByName(nodes))
  {
    if nodes != [] {
      SortSorts(nodes[1..]);
      InsertSorts(nodes[0], SortByName(nodes[1..]));
    }
  }

  /** The plan reports each node once, in name order: whether it participates, and if not nothing else. */
  lemma {:induction false} NodesAreReported(input: PlanInput) returns (nodes: seq<Node>)
    ensures multiset(nodes) == multiset(input.nodes) && SortedByName(nodes) && |FinalStates(input)| == |nodes|
    ensures forall i :: 0 <= i < |nodes| ==>
              && FinalStates(input)[i].name == nodes[i].name
              && (FinalStates(input)[i].participating <==>
                    !nodes[i].deleting && match input.sequence.nodeSelector
                                          case NoSelector => true
                                          case InvalidSelector => false
                                          case Selector(matches) => matches(nodes[i].labels))
              && (!FinalStates(input)[i].participating ==>
                    FinalStates(input)[i].satisfied == 0 && !FinalStates(input)[i].failed && FinalStates(input)[i].message == Clear)
              && (FinalStates(input)[i].satisfied == NumGroups(input) ==> FinalStates(input)[i].message == Clear)
              && (FinalStates(input)[i].participating && FinalStates(input)[i].satisfied < NumGroups(input) ==>
                    FinalStates(input)[i].message == BlockOf(input, nodes[i], FinalStates(input)[i].satisfied))
  {
    nodes := SortByName(input.nodes);
    SortKeeps(input.nodes);
    SortSorts(input.nodes);
    forall i | 0 <= i < |nodes|
      ensures FinalStates(input)[i].(failed := false) == BaseState(input, nodes[i])
      ensures FinalStates(input)[i].failed ==> FinalStates(input)[i].participating
    {
      FailedIsBlocked(input, i);
      StatesOfAt(input, nodes, i);
    }
  }

  lemma {:induction false} SortedHeadIsLeast(a: seq<Node>, x: Node)
    requires SortedByName(a) && x in a
    ensures NameLe(a[0].name, x.name)
  {
    NameLeTotal(x.name, x.name);
  }

  lemma {:induction false} SortedHeadsEqual(a: seq<Node>, b: seq<Node>, all: seq<Node>)
    requires SortedByName(a) && SortedByName(b) && multiset(a) == multiset(b) && a != [] && b != []
    requires UniqueNames(all) && forall x :: x in a ==> x in all
    ensures a[0] == b[0]
  {
    SameElements(a, b, a[0]);
    SameElements(a, b, b[0]);
    SortedHeadIsLeast(a, b[0]);
    SortedHeadIsLeast(b, a[0]);
    NameLeTotal(a[0].name, b[0].name);
    NamesDetermine(all, a[0], b[0]);
  }

  lemma {:induction false} SameTails<T>(a: seq<T>, b: seq<T>)
    requires multiset(a) == multiset(b) && a != [] && b != [] && a[0] == b[0]
    ensures multiset(a[1..]) == multiset(b[1..])
  {
    assert a == [a[0]] + a[1..] && b == [b[0]] + b[1..];
    assert multiset(a[1..]) == multiset(a) - multiset{a[0]};
    assert multiset(b[1..]) == multiset(b) - multiset{b[0]};
  }

  lemma {:induction false} SameSize<T>(a: seq<T>, b: seq<T>)
    requires multiset(a) == multiset(b)
    ensures |a| == |b|
  {
    assert |multiset(a)| == |a| && |multiset(b)| == |b|;
  }

  /** Sorted lists of the same nodes with distinct names are equal. */
  lemma {:induction false} SortedIsUnique(a: seq<Node>, b: seq<Node>, all: seq<Node>)
    requires SortedByName(a) && SortedByName(b) && multiset(a) == multiset(b)
    requires UniqueNames(all) && forall x :: x in a ==> x in all
    ensures a == b
  {
    SameSize(a, b);
    if a != [] {
      SortedHeadsEqual(a, b, all);
      SameTails(a, b);
      SortedIsUnique(a[1..], b[1..], all);
      assert a == [a[0]] + a[1..] && b == [b[0]] + b[1..];
    }
  }

  lemma {:induction false} SameSorted(a: PlanInput, b: PlanInput)
    requires Reordered(a, b)
    ensures SortByName(a.nodes) == SortByName(b.nodes)
  {
    SortKeeps(a.nodes);
    SortKeeps(b.nodes);
    SortSorts(a.nodes);
    SortSorts(b.nodes);
    forall x | x in SortByName(a.nodes) ensures x in a.nodes {
      SortedMember(a.nodes, x);
    }
    SortedIsUnique(SortByName(a.nodes), SortByName(b.nodes), a.nodes);
  }

  lemma {:induction false} MaxRemainingBySet(a: seq<Pod>, b: seq<Pod>, wait: int, now: int)
    requires forall p :: p in a <==> p in b
    ensures MaxRemaining(a, wait, now) == MaxRemaining(b, wait, now)
  {
    MaxRemainingBound(a, wait, now);
    MaxRemainingBound(b, wait, now);
  }

  function Remaining(b: Block): int
  {
    if b.Waiting? then b.remaining else 0
  }

  /** Reordering changes at most which obstacle is reported first. */
  lemma {:induction false} BlockReordered(a: PlanInput, b: PlanInput, node: Node, j: nat)
    requires Reordered(a, b) && j < NumGroups(a)
    ensures BlockOf(a, node, j) == Clear <==> BlockOf(b, node, j) == Clear
    ensures BlockOf(a, node, j).Waiting? <==> BlockOf(b, node, j).Waiting?
    ensures Remaining(BlockOf(a, node, j)) == Remaining(BlockOf(b, node, j))
  {
    var g := a.sequence.podGroups[j];
    var pa, pb := PodsOn(a, node.name, j), PodsOn(b, node.name, j);
    var da, db := DaemonSetsForGroup(a.daemonSets, g), DaemonSetsForGroup(b.daemonSets, g);
    forall p ensures p in pa <==> p in pb {
      PodsOnMeaning(a, node.name, j, p);
      PodsOnMeaning(b, node.name, j, p);
      SameElements(a.pods, b.pods, p);
    }
    forall ds ensures ds in da <==> ds in db {
      CollectMember(InGroup(g), a.daemonSets, ds);
      CollectMember(InGroup(g), b.daemonSets, ds);
      SameElements(a.daemonSets, b.daemonSets, ds);
    }
    FirstUncoveredMeaning(da, node, pa, Key(a));
    FirstUncoveredMeaning(db, node, pb, Key(a));
    FirstUnreadyMeaning(pa);
    FirstUnreadyMeaning(pb);
    MaxRemainingBySet(pa, pb, WaitOf(g), a.now);
    assert pa == [] <==> pb == [] by {
      if pa != [] {
        assert pa[0] in pa;
      }
      if pb != [] {
        assert pb[0] in pb;
      }
    }
  }

  lemma {:induction false} SatisfiedReordered(a: PlanInput, b: PlanInput, node: Node, j: nat)
    requires Reordered(a, b) && j <= NumGroups(a)
    ensures SatisfiedFrom(a, node, j) == SatisfiedFrom(b, node, j)
    decreases NumGroups(a) - j
  {
    if j < NumGroups(a) {
      BlockReordered(a, b, node, j);
      SatisfiedReordered(a, b, node, j + 1);
    }
  }

  /** Two lists of states agree but for the reported obstacles. */
  ghost predicate SameStates(a: seq<NodeState>, b: seq<NodeState>)
  {
    && |a| == |b|
    && forall i :: 0 <= i < |a| ==>
         a[i].name == b[i].name && a[i].participating == b[i].participating && a[i].satisfied == b[i].satisfied
         && a[i].failed == b[i].failed && NodeWait()(a[i]) == NodeWait()(b[i])
  }

  lemma {:induction false} BaseStatesReordered(a: PlanInput, b: PlanInput)
    requires Reordered(a, b)
    ensures SameStates(BaseStates(a), BaseStates(b))
  {
    SameSorted(a, b);
    var nodes := SortByName(a.nodes);
    forall i | 0 <= i < |nodes|
      ensures BaseStates(a)[i] == BaseState(a, nodes[i]) && BaseStates(b)[i] == BaseState(b, nodes[i])
      ensures NodeWait()(BaseState(a, nodes[i])) == NodeWait()(BaseState(b, nodes[i]))
      ensures BaseState(a, nodes[i]).satisfied == BaseState(b, nodes[i]).satisfied
    {
      StatesOfAt(a, nodes, i);
      StatesOfAt(b, nodes, i);
      SatisfiedReordered(a, b, nodes[i], 0);
      var s := SatisfiedFrom(a, nodes[i], 0);
      if s < NumGroups(a) {
        BlockReordered(a, b, nodes[i], s);
      }
    }
  }

  lemma {:induction false} SameLookup(a: seq<NodeState>, b: seq<NodeState>, name: string)
    requires |a| == |b| && forall i :: 0 <= i < |a| ==> a[i].name == b[i].name
    ensures Lookup(a, name) == Lookup(b, name)
  {
    if a != [] {
      SameLookup(a[..|a| - 1], b[..|b| - 1], name);
    }
  }

  /** Decisions only read names, participation and satisfied counts, and the clock only for deadlines. */
  lemma {:induction false} SameDecisions(a: PlanInput, b: PlanInput, sa: seq<NodeState>, sb: seq<NodeState>, m: Member)
    requires a.sequence == b.sequence && |sa| == |sb|
    requires forall i :: 0 <= i < |sa| ==>
               sa[i].name == sb[i].name && sa[i].participating == sb[i].participating && sa[i].satisfied == sb[i].satisfied
    ensures Verdict(a, sa, m) == Verdict(b, sb, m)
    ensures MemberAction(a, sa)(m) == MemberAction(b, sb)(m)
    ensures KeptPod(a, sa)(m) == KeptPod(b, sb)(m)
    ensures Kept(a, sa, m) == Kept(b, sb, m)
    ensures a.now == b.now ==> TimeoutEntry(a, sa)(m) == TimeoutEntry(b, sb)(m) && DeadlineWait(a, sa)(m) == DeadlineWait(b, sb)(m)
  {
    SameLookup(sa, sb, m.node);
  }

  lemma {:induction false} MembersReordered(a: PlanInput, b: PlanInput)
    requires Reordered(a, b)
    ensures multiset(Members(a)) == multiset(Members(b))
  {
    CollectPermutes(AsMember(a), a.pods, b.pods);
    CollectAgree(AsMember(a), AsMember(b), b.pods);
  }

  lemma {:induction false} CollectReordered<T, U>(f: T -> Option<U>, g: T -> Option<U>, s: seq<T>, t: seq<T>)
    requires multiset(s) == multiset(t) && forall x :: x in t ==> f(x) == g(x)
    ensures multiset(Collect(f, s)) == multiset(Collect(g, t))
  {
    CollectPermutes(f, s, t);
    CollectAgree(f, g, t);
  }

  lemma {:induction false} SoonestMeaning(ds: seq<int>)
    ensures Soonest(0, ds) == 0 <==> forall d :: d in ds ==> d <= 0
    ensures Soonest(0, ds) != 0 ==> Soonest(0, ds) > 0 && Soonest(0, ds) in ds && forall d :: d in ds && d > 0 ==> Soonest(0, ds) <= d
  {
    if ds != [] {
      var rest, last := ds[..|ds| - 1], ds[|ds| - 1];
      SoonestMeaning(rest);
      assert ds == rest + [last];
      assert last in ds;
      if Soonest(0, rest) != 0 {
        assert Soonest(0, rest) in ds;
      }
    }
  }

  lemma {:induction false} SoonestReordered(a: seq<int>, b: seq<int>)
    requires multiset(a) == multiset(b)
    ensures Soonest(0, a) == Soonest(0, b)
  {
    SoonestMeaning(a);
    SoonestMeaning(b);
    forall d: int ensures d in a <==> d in b {
      SameElements(a, b, d);
    }
  }

  /** Permuting the listed nodes, pods and DaemonSets changes neither the sorted node results, nor which
      pods are released, kept or timed out, nor when to look again. */
  lemma {:induction false} OrderIndependence(a: PlanInput, b: PlanInput)
    requires Reordered(a, b)
    ensures multiset(Ungate(a)) == multiset(Ungate(b))
    ensures GatedPods(a) == GatedPods(b)
    ensures multiset(TimedOut(a)) == multiset(TimedOut(b))
    ensures RequeueAfter(a) == RequeueAfter(b)
    ensures SameStates(FinalStates(a), FinalStates(b))
  {
    BaseStatesReordered(a, b);
    MembersReordered(a, b);
    var sa, sb := BaseStates(a), BaseStates(b);
    forall m: Member
      ensures MemberAction(a, sa)(m) == MemberAction(b, sb)(m) && KeptPod(a, sa)(m) == KeptPod(b, sb)(m)
      ensures TimeoutEntry(a, sa)(m) == TimeoutEntry(b, sb)(m) && DeadlineWait(a, sa)(m) == DeadlineWait(b, sb)(m)
    {
      SameDecisions(a, b, sa, sb, m);
    }
    CollectReordered(StrayAction(a), StrayAction(b), a.pods, b.pods);
    CollectReordered(MemberAction(a, sa), MemberAction(b, sb), Members(a), Members(b));
    CollectReordered(KeptPod(a, sa), KeptPod(b, sb), Members(a), Members(b));
    assert |multiset(KeptPods(a))| == |multiset(KeptPods(b))|;
    CollectReordered(TimeoutEntry(a, sa), TimeoutEntry(b, sb), Members(a), Members(b));
    RequeueReordered(a, b);
    FinalStatesReordered(a, b);
  }

  lemma {:induction false} NodeWaitsReordered(a: seq<NodeState>, b: seq<NodeState>)
    requires SameStates(a, b)
    ensures Collect(NodeWait(), a) == Collect(NodeWait(), b)
  {
    if a != [] {
      NodeWaitsReordered(a[..|a| - 1], b[..|b| - 1]);
    }
  }

  lemma {:induction false} RequeueReordered(a: PlanInput, b: PlanInput)
    requires Reordered(a, b)
    ensures RequeueAfter(a) == RequeueAfter(b)
  {
    BaseStatesReordered(a, b);
    MembersReordered(a, b);
    var sa, sb := BaseStates(a), BaseStates(b);
    NodeWaitsReordered(sa, sb);
    forall m: Member ensures DeadlineWait(a, sa)(m) == DeadlineWait(b, sb)(m) {
      SameDecisions(a, b, sa, sb, m);
    }
    CollectReordered(DeadlineWait(a, sa), DeadlineWait(b, sb), Members(a), Members(b));
    SoonestReordered(WakeUps(a), WakeUps(b));
  }

  lemma {:induction false} FailedReordered(a: PlanInput, b: PlanInput, i: nat)
    requires Reordered(a, b) && SameStates(BaseStates(a), BaseStates(b)) && i < |BaseStates(a)|
    ensures FinalStates(a)[i].failed ==> FinalStates(b)[i].failed
  {
    var sa, sb := BaseStates(a), BaseStates(b);
    MarkFailedMeaning(a, sa, Members(a), i);
    MarkFailedMeaning(b, sb, Members(b), i);
    StatesOfAt(a, SortByName(a.nodes), i);
    if FinalStates(a)[i].failed {
      var m :| m in Members(a) && Kept(a, sa, m) && Expired(a, m.pod) && Lookup(sa, m.node) == Some(i);
      MembersReordered(a, b);
      SameElements(Members(a), Members(b), m);
      SameDecisions(a, b, sa, sb, m);
      SameLookup(sa, sb, m.node);
    }
  }

  lemma {:induction false} FinalStatesReordered(a: PlanInput, b: PlanInput)
    requires Reordered(a, b)
    ensures SameStates(FinalStates(a), FinalStates(b))
  {
    BaseStatesReordered(a, b);
    var sa, sb := BaseStates(a), BaseStates(b);
    MarkFailedKeeps(a, sa, Members(a));
    MarkFailedKeeps(b, sb, Members(b));
    forall i | 0 <= i < |sa|
      ensures FinalStates(a)[i].failed == FinalStates(b)[i].failed
      ensures NodeWait()(FinalStates(a)[i]) == NodeWait()(FinalStates(b)[i])
      ensures FinalStates(a)[i].name == FinalStates(b)[i].name && FinalStates(a)[i].participating == FinalStates(b)[i].participating
      ensures FinalStates(a)[i].satisfied == FinalStates(b)[i].satisfied
    {
      assert FinalStates(a)[i].(failed := sa[i].failed) == sa[i] && FinalStates(b)[i].(failed := sb[i].failed) == sb[i];
      FailedReordered(a, b, i);
      ReorderedBack(a, b);
      FailedReordered(b, a, i);
    }
  }

  lemma {:induction false} ReorderedBack(a: PlanInput, b: PlanInput)
    requires Reordered(a, b)
    ensures Reordered(b, a) && SameStates(BaseStates(b), BaseStates(a))
  {
    BaseStatesReordered(a, b);
    forall i, j | 0 <= i < j < |b.nodes|
      ensures b.nodes[i].name != b.nodes[j].name
    {
      if b.nodes[i].name == b.nodes[j].name {
        SameElements(a.nodes, b.nodes, b.nodes[i]);
        SameElements(a.nodes, b.nodes, b.nodes[j]);
        NamesDetermine(a.nodes, b.nodes[i], b.nodes[j]);
        OnceEach(a.nodes, b.nodes[i]);
        TwiceIn(b.nodes, i, j);
      }
    }
  }
}
