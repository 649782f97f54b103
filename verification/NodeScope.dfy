/** One reconcile of a node-scoped sequence: reconcileNodeScoped of
    internal/controller/podsequence_controller.go. */
module NodeScoped {
  import opened Options
  import opened Collections
  import opened Kube
  import opened Sequence
  import opened NodePlanSpec
  import opened NodePlans
  import opened PlanMeaning
  import opened PlanOrder
  import opened PlanTime
  import opened PodEdits
  import opened Steering
  import opened Quiescence
  import opened Status

  /** The outcomes of the two patches on one object: label then taint, or constraints then gate. */
  datatype Patches = Patches(first: PatchResult, second: PatchResult)

  /** The stored nodes by name, and the stored pods' specs and versions by uid. */
  class ApiServer {
    var nodes: map<string, Versioned>
    var pods: map<string, (PodSpec, nat)>

    constructor (nodes: map<string, Versioned>, pods: map<string, (PodSpec, nat)>)
      ensures this.nodes == nodes && this.pods == pods
    {
      this.nodes, this.pods := nodes, pods;
    }
  }

  ghost predicate DistinctStates(states: seq<NodeState>)
  {
    forall i, j :: 0 <= i < j < |states| ==> states[i].name != states[j].name
  }

  /** What a sync is made with: the key, the method, the number of groups, and whether the label is in use. */
  datatype Setting = Setting(key: string, mode: Method, numGroups: nat, labelInUse: bool)

  /** The stored node after its sync, and whether that failed. */
  function Synchronised(c: Setting, cached: Versioned, stored: Versioned, st: NodeState, p: Patches): (Versioned, bool)
  {
    SyncOutcome(cached, stored, c.key, c.mode, c.numGroups, st, c.labelInUse, p.first, p.second)
  }

  /** Every state has a cached node and a stored one. */
  ghost predicate StatesCached(states: seq<NodeState>, cached: map<string, Versioned>, nodes: map<string, Versioned>)
  {
    forall i :: 0 <= i < |states| ==>
      states[i].name in cached && states[i].name in nodes && CopyOf(cached[states[i].name], nodes[states[i].name])
  }

  ghost predicate SomeSyncFails(states: seq<NodeState>, k: nat, c: Setting, cached: map<string, Versioned>, nodes: map<string, Versioned>,
                                patches: string -> Patches)
  {
    exists i :: 0 <= i < k && i < |states| && states[i].name in cached && states[i].name in nodes
                && Synchronised(c, cached[states[i].name], nodes[states[i].name], states[i], patches(states[i].name)).1
  }

  /** Syncs one node. */
  method SyncOne(server: ApiServer, cached: map<string, Versioned>, st: NodeState, c: Setting, patches: string -> Patches)
    returns (err: bool)
    requires st.name in cached && st.name in server.nodes && CopyOf(cached[st.name], server.nodes[st.name])
    modifies server`nodes
    ensures server.nodes == old(server.nodes)[st.name := Synchronised(c, cached[st.name], old(server.nodes)[st.name], st, patches(st.name)).0]
    ensures err == Synchronised(c, cached[st.name], old(server.nodes)[st.name], st, patches(st.name)).1
  {
    var n := st.name;
    var local := new NodeObject(cached[n]);
    var stored := new NodeObject(server.nodes[n]);
    var patched;
    err, patched := local.SyncNodeEligibility(stored, c.key, c.mode, c.numGroups, st, c.labelInUse, patches(n).first, patches(n).second);
    server.nodes := server.nodes[n := stored.Now()];
  }

  /** The first k nodes are synced, the others as before. */
  ghost predicate SyncedUpTo(states: seq<NodeState>, k: nat, c: Setting, cached: map<string, Versioned>,
                             before: map<string, Versioned>, after: map<string, Versioned>, patches: string -> Patches)
    requires k <= |states| && StatesCached(states, cached, before)
  {
    && after.Keys == before.Keys
    && (forall i :: 0 <= i < k ==> IsSynced(states[i], c, cached, before, after, patches))
    && (forall i :: k <= i < |states| ==> after[states[i].name] == before[states[i].name])
  }

  ghost predicate IsSynced(st: NodeState, c: Setting, cached: map<string, Versioned>, before: map<string, Versioned>,
                           after: map<string, Versioned>, patches: string -> Patches)
  {
    && st.name in cached && st.name in before && st.name in after
    && after[st.name] == Synchronised(c, cached[st.name], before[st.name], st, patches(st.name)).0
  }

  lemma {:induction false} SyncedStep(states: seq<NodeState>, k: nat, c: Setting, cached: map<string, Versioned>,
                                      before: map<string, Versioned>, after: map<string, Versioned>, patches: string -> Patches, v: Versioned)
    requires DistinctStates(states) && k < |states| && StatesCached(states, cached, before)
    requires SyncedUpTo(states, k, c, cached, before, after, patches)
    requires v == Synchronised(c, cached[states[k].name], before[states[k].name], states[k], patches(states[k].name)).0
    ensures SyncedUpTo(states, k + 1, c, cached, before, after[states[k].name := v], patches)
  {
    var next := after[states[k].name := v];
    forall i | 0 <= i < k + 1
      ensures IsSynced(states[i], c, cached, before, next, patches)
    {
      if i < k {
        assert IsSynced(states[i], c, cached, before, after, patches);
      }
    }
  }

  /** Syncs every node of the plan; an error on one does not keep the others from their sync. */
  method SyncNodes(server: ApiServer, cached: map<string, Versioned>, states: seq<NodeState>, c: Setting,
                   patches: string -> Patches) returns (failed: bool)
    requires DistinctStates(states) && StatesCached(states, cached, server.nodes)
    modifies server`nodes
    ensures SyncedUpTo(states, |states|, c, cached, old(server.nodes), server.nodes, patches)
    ensures failed <==> SomeSyncFails(states, |states|, c, cached, old(server.nodes), patches)
  {
    failed := false;
    for i := 0 to |states|
      invariant SyncedUpTo(states, i, c, cached, old(server.nodes), server.nodes, patches)
      invariant failed <==> SomeSyncFails(states, i, c, cached, old(server.nodes), patches)
    {
      assert server.nodes[states[i].name] == old(server.nodes)[states[i].name];
      SyncedStep(states, i, c, cached, old(server.nodes), server.nodes, patches,
                 Synchronised(c, cached[states[i].name], server.nodes[states[i].name], states[i], patches(states[i].name)).0);
      var err := SyncOne(server, cached, states[i], c, patches);
      failed := failed || err;
    }
  }

  ghost predicate DistinctPods(actions: seq<PodAction>)
  {
    forall i, j :: 0 <= i < j < |actions| ==> actions[i].pod.uid != actions[j].pod.uid
  }

  /** What the stored pod becomes: a stale copy changes nothing. */
  function Landed(a: PodAction, before: (PodSpec, nat), gate: string, p: Patches): PodSpec
  {
    if a.pod.version != before.1 then before.0
    else StoredAfter(a.pod.spec, a, gate, p.first, p.second)
  }

  predicate HandlingFails(a: PodAction, before: (PodSpec, nat), gate: string, p: Patches)
  {
    ActionFails(a.pod.spec, a, gate, a.pod.version == before.1, p.first, p.second)
  }

  ghost predicate SomeHandlingFails(actions: seq<PodAction>, n: nat, before: map<string, (PodSpec, nat)>, gate: string, patches: string -> Patches)
  {
    exists i :: 0 <= i < n && i < |actions| && actions[i].pod.uid in before
                && HandlingFails(actions[i], before[actions[i].pod.uid], gate, patches(actions[i].pod.uid))
  }

  /** Handles one pod. */
  method ApplyOne(server: ApiServer, a: PodAction, gate: string, patches: string -> Patches) returns (err: bool)
    requires a.pod.uid in server.pods && (server.pods[a.pod.uid].1 == a.pod.version ==> server.pods[a.pod.uid].0 == a.pod.spec)
    modifies server`pods
    ensures a.pod.uid in server.pods && server.pods == old(server.pods)[a.pod.uid := server.pods[a.pod.uid]]
    ensures server.pods[a.pod.uid].0 == Landed(a, old(server.pods)[a.pod.uid], gate, patches(a.pod.uid))
    ensures err == HandlingFails(a, old(server.pods)[a.pod.uid], gate, patches(a.pod.uid))
  {
    var uid := a.pod.uid;
    var local := new PodObject(a.pod.spec, a.pod.version);
    var stored := new PodObject(server.pods[uid].0, server.pods[uid].1);
    err := local.ApplyPodAction(stored, a, gate, patches(uid).first, patches(uid).second);
    server.pods := server.pods[uid := (stored.spec, stored.version)];
  }

  /** Applies every action of the plan; an error on one pod does not keep the others gated. */
  method ApplyActions(server: ApiServer, actions: seq<PodAction>, gate: string, patches: string -> Patches) returns (failed: bool)
    requires DistinctPods(actions)
    requires forall i :: 0 <= i < |actions| ==>
               var p := actions[i].pod;
               p.uid in server.pods && (server.pods[p.uid].1 == p.version ==> server.pods[p.uid].0 == p.spec)
    modifies server`pods
    ensures server.pods.Keys == old(server.pods.Keys)
    ensures forall i :: 0 <= i < |actions| ==>
              var uid := actions[i].pod.uid;
              server.pods[uid].0 == Landed(actions[i], old(server.pods)[uid], gate, patches(uid))
    ensures forall uid :: uid in server.pods && (forall i :: 0 <= i < |actions| ==> actions[i].pod.uid != uid) ==>
              server.pods[uid] == old(server.pods)[uid]
    ensures failed <==> SomeHandlingFails(actions, |actions|, old(server.pods), gate, patches)
  {
    failed := false;
    for i := 0 to |actions|
      invariant server.pods.Keys == old(server.pods.Keys)
      invariant forall j :: 0 <= j < i ==>
                  var uid := actions[j].pod.uid;
                  server.pods[uid].0 == Landed(actions[j], old(server.pods)[uid], gate, patches(uid))
      invariant forall uid :: uid in server.pods && (forall j :: 0 <= j < i ==> actions[j].pod.uid != uid) ==>
                  server.pods[uid] == old(server.pods)[uid]
      invariant failed <==> SomeHandlingFails(actions, i, old(server.pods), gate, patches)
    {
      assert server.pods[actions[i].pod.uid] == old(server.pods)[actions[i].pod.uid];
      var err := ApplyOne(server, actions[i], gate, patches);
      failed := failed || err;
    }
  }

  // ---- the actions of a plan concern distinct pods ----

  ghost predicate UniquePods(pods: seq<Pod>)
  {
    forall i, j :: 0 <= i < j < |pods| ==> pods[i].uid != pods[j].uid
  }

  lemma {:induction false} FilteredAmong(input: PlanInput, pods: seq<Pod>)
    ensures multiset(Collect(AsAccountable(input), pods)) <= multiset(pods)
  {
    if pods != [] {
      FilteredAmong(input, pods[..|pods| - 1]);
      assert pods == pods[..|pods| - 1] + [pods[|pods| - 1]];
    }
  }

  lemma {:induction false} PlanActionsAreDistinct(input: PlanInput)
    requires UniquePods(input.pods)
    ensures DistinctPods(Ungate(input))
  {
    var actions := Ungate(input);
    forall i, j | 0 <= i < j < |actions|
      ensures actions[i].pod.uid != actions[j].pod.uid
    {
      if actions[i].pod.uid == actions[j].pod.uid {
        PlannedForItsPod(input, actions[i]);
        PlannedForItsPod(input, actions[j]);
        assert actions[i].pod == actions[j].pod;
        TwiceIn(PodsOf(actions), i, j);
        GatedPodsConserved(input);
        FilteredAmong(input, input.pods);
        OnceEach(input.pods, actions[i].pod);
        assert false;
      }
    }
  }

  lemma {:induction false} ActionNamesItsPod(input: PlanInput, m: Member)
    ensures MemberAction(input, BaseStates(input))(m).Some? ==> MemberAction(input, BaseStates(input))(m).value.pod == m.pod
  {
  }

  /** Each action of the plan is the one for its pod. */
  lemma {:induction false} PlannedForItsPod(input: PlanInput, a: PodAction)
    requires a in Ungate(input)
    ensures a.pod in input.pods && ActionFor(input, a.pod) == Some(a)
  {
    UngateMember(input, a);
    if m :| m in Members(input) && MemberAction(input, BaseStates(input))(m) == Some(a) {
      ActionNamesItsPod(input, m);
      MembersMeaning(input, m);
    }
  }

  /** Each pod's action is in the plan. */
  lemma {:induction false} ActionIsPlanned(input: PlanInput, p: Pod, a: PodAction)
    requires p in input.pods && ActionFor(input, p) == Some(a)
    ensures a in Ungate(input) && a.pod == p
  {
    UngateMember(input, a);
    if AsMember(input)(p).Some? {
      var m := AsMember(input)(p).value;
      ActionNamesItsPod(input, m);
      MembersMeaning(input, m);
    }
  }

  lemma {:induction false} SortedNamesDiffer(nodes: seq<Node>, i: nat, j: nat)
    requires UniqueNames(nodes) && |SortByName(nodes)| == |nodes| && i < j < |nodes|
    ensures SortByName(nodes)[i].name != SortByName(nodes)[j].name
  {
    var sorted := SortByName(nodes);
    if sorted[i].name == sorted[j].name {
      SortKeeps(nodes);
      SortedMember(nodes, sorted[i]);
      SortedMember(nodes, sorted[j]);
      NamesDetermine(nodes, sorted[i], sorted[j]);
      TwiceIn(sorted, i, j);
      OnceEach(nodes, sorted[i]);
      assert false;
    }
  }

  lemma {:induction false} StateName(input: PlanInput, i: nat)
    requires i < |FinalStates(input)|
    ensures i < |SortByName(input.nodes)| && FinalStates(input)[i].name == SortByName(input.nodes)[i].name
    ensures SortByName(input.nodes)[i] in input.nodes
  {
    FailedIsBlocked(input, i);
    StatesOfAt(input, SortByName(input.nodes), i);
    SortedMember(input.nodes, SortByName(input.nodes)[i]);
  }

  /** The states of a plan are those of the nodes, each under its own name. */
  lemma {:induction false} PlanStates(input: PlanInput)
    requires UniqueNames(input.nodes)
    ensures DistinctStates(FinalStates(input))
    ensures forall i :: 0 <= i < |FinalStates(input)| ==> exists n :: n in input.nodes && n.name == FinalStates(input)[i].name
  {
    SortKeeps(input.nodes);
    assert |SortByName(input.nodes)| == |multiset(input.nodes)| == |input.nodes|;
    forall i, j | 0 <= i < j < |FinalStates(input)|
      ensures FinalStates(input)[i].name != FinalStates(input)[j].name
    {
      StateName(input, i);
      StateName(input, j);
      SortedNamesDiffer(input.nodes, i, j);
    }
    forall i | 0 <= i < |FinalStates(input)|
      ensures exists n :: n in input.nodes && n.name == FinalStates(input)[i].name
    {
      StateName(input, i);
    }
  }

  lemma {:induction false} NodeHasState(input: PlanInput, n: Node) returns (i: nat)
    requires UniqueNames(input.nodes) && n in input.nodes
    ensures i < |FinalStates(input)| && FinalStates(input)[i] == ReportedState(input, n) && FinalStates(input)[i].name == n.name
  {
    LookupNode(input, n);
    LookupMeaning(BaseStates(input), n.name);
    i := Lookup(BaseStates(input), n.name).value;
    FailedIsBlocked(input, i);
  }

  // ---- the pass ----

  function SettingOf(input: PlanInput): Setting
  {
    Setting(Key(input), EligibilityMethod(input.sequence), NumGroups(input), LabelInUse(input))
  }

  /** The controller's nodes are versions of the stored ones. */
  ghost predicate NodesCached(input: PlanInput, versions: string -> nat, nodes: map<string, Versioned>)
  {
    forall n :: n in input.nodes ==> n.name in nodes && CopyOf(Versioned(n, versions(n.name)), nodes[n.name])
  }

  /** The controller's pods are versions of the stored ones, and each version is one spec. */
  ghost predicate PodsCached(input: PlanInput, pods: map<string, (PodSpec, nat)>)
  {
    forall p :: p in input.pods ==> p.uid in pods && (pods[p.uid].1 == p.version ==> pods[p.uid].0 == p.spec)
  }

  /** A node of the input after its sync, and whether that failed. */
  function NodeSynced(input: PlanInput, versions: string -> nat, n: Node, stored: Versioned, patches: Patches): (Versioned, bool)
  {
    Synchronised(SettingOf(input), Versioned(n, versions(n.name)), stored, ReportedState(input, n), patches)
  }

  /** Every node is synced to its state in the plan, as far as its patches are applied. */
  ghost predicate NodesSynced(input: PlanInput, versions: string -> nat, before: map<string, Versioned>, after: map<string, Versioned>,
                              patches: string -> Patches)
  {
    forall n :: n in input.nodes ==>
      n.name in before && n.name in after && after[n.name] == NodeSynced(input, versions, n, before[n.name], patches(n.name)).0
  }

  ghost predicate NodeFails(input: PlanInput, versions: string -> nat, before: map<string, Versioned>, patches: string -> Patches)
  {
    exists n :: n in input.nodes && n.name in before && NodeSynced(input, versions, n, before[n.name], patches(n.name)).1
  }

  /** The spec stored for a pod of the input after its action, if it has one, was tried. */
  function SpecAfter(input: PlanInput, p: Pod, before: (PodSpec, nat), patches: Patches): PodSpec
  {
    match ActionFor(input, p)
    case None => before.0
    case Some(a) => Landed(a, before, Gate(input), patches)
  }

  /** Every pod with an action had it tried, and no other pod was touched. */
  ghost predicate PodsHandled(input: PlanInput, before: map<string, (PodSpec, nat)>, after: map<string, (PodSpec,
                              nat)>, patches: string -> Patches)
  {
    && (forall p :: p in input.pods ==>
          p.uid in before && p.uid in after && after[p.uid].0 == SpecAfter(input, p, before[p.uid], patches(p.uid)))
    && (forall uid :: uid in before && (forall p :: p in input.pods ==> p.uid != uid) ==> uid in after && after[uid] == before[uid])
  }

  ghost predicate PodFails(input: PlanInput, before: map<string, (PodSpec, nat)>, patches: string -> Patches)
  {
    exists p :: p in input.pods && p.uid in before && ActionFor(input, p).Some?
                && HandlingFails(ActionFor(input, p).value, before[p.uid], Gate(input), patches(p.uid))
  }

  /** The cached nodes by name. */
  method IndexNodes(input: PlanInput, versions: string -> nat) returns (byName: map<string, Versioned>)
    requires UniqueNames(input.nodes)
    ensures forall n :: n in input.nodes ==> n.name in byName && byName[n.name] == Versioned(n, versions(n.name))
  {
    byName := map[];
    for i := 0 to |input.nodes|
      invariant forall j :: 0 <= j < i ==>
                  input.nodes[j].name in byName && byName[input.nodes[j].name] == Versioned(input.nodes[j], versions(input.nodes[j].name))
    {
      byName := byName[input.nodes[i].name := Versioned(input.nodes[i], versions(input.nodes[i].name))];
    }
  }

  /** All nodes are synced to the states of the plan. */
  method SyncPlannedNodes(input: PlanInput, plan: NodePlan, versions: string -> nat, server: ApiServer, patches: string -> Patches)
    returns (failed: bool)
    requires plan.Realizes(input) && UniqueNames(input.nodes) && NodesCached(input, versions, server.nodes)
    modifies server`nodes
    ensures NodesSynced(input, versions, old(server.nodes), server.nodes, patches)
    ensures failed <==> NodeFails(input, versions, old(server.nodes), patches)
  {
    var byName := IndexNodes(input, versions);
    var keys := PendingRequiredKeys(input.pods);
    var c := Setting(Key(input), EligibilityMethod(input.sequence), NumGroups(input), Key(input) in keys);
    PlanStates(input);
    ghost var states := plan.nodes;
    assert StatesCached(states, byName, server.nodes);
    failed := SyncNodes(server, byName, plan.nodes, c, patches);
    forall n | n in input.nodes
      ensures server.nodes[n.name] == NodeSynced(input, versions, n, old(server.nodes)[n.name], patches(n.name)).0
      ensures NodeSynced(input, versions, n, old(server.nodes)[n.name], patches(n.name)).1 ==> failed
    {
      var i := NodeHasState(input, n);
      assert byName[states[i].name] == Versioned(n, versions(n.name));
      assert IsSynced(states[i], c, byName, old(server.nodes), server.nodes, patches);
    }
    if failed {
      ghost var i :| 0 <= i < |states| && states[i].name in byName && states[i].name in old(server.nodes)
                     && Synchronised(c, byName[states[i].name], old(server.nodes)[states[i].name], states[i], patches(states[i].name)).1;
      ghost var n :| n in input.nodes && n.name == states[i].name;
      ghost var k := NodeHasState(input, n);
      assert k == i;
      assert NodeSynced(input, versions, n, old(server.nodes)[n.name], patches(n.name)).1;
    }
  }

  /** All pods of the plan are handled, and no other is touched. */
  method HandlePlannedPods(input: PlanInput, plan: NodePlan, server: ApiServer, patches: string -> Patches) returns (failed: bool)
    requires plan.Realizes(input) && UniquePods(input.pods) && PodsCached(input, server.pods)
    modifies server`pods
    ensures PodsHandled(input, old(server.pods), server.pods, patches)
    ensures failed <==> PodFails(input, old(server.pods), patches)
  {
    PlanActionsAreDistinct(input);
    ghost var actions := plan.ungate;
    forall i | 0 <= i < |actions|
      ensures actions[i].pod in input.pods
    {
      PlannedForItsPod(input, actions[i]);
    }
    failed := ApplyActions(server, plan.ungate, Gate(input), patches);
    forall p | p in input.pods
      ensures server.pods[p.uid].0 == SpecAfter(input, p, old(server.pods)[p.uid], patches(p.uid))
    {
      PodHandled(input, p, actions);
    }
    FailuresAgree(input, old(server.pods), patches);
  }

  lemma {:induction false} FailuresAgree(input: PlanInput, before: map<string, (PodSpec, nat)>, patches: string -> Patches)
    ensures SomeHandlingFails(Ungate(input), |Ungate(input)|, before, Gate(input), patches) <==> PodFails(input, before, patches)
  {
    var actions := Ungate(input);
    if SomeHandlingFails(actions, |actions|, before, Gate(input), patches) {
      var i :| 0 <= i < |actions| && actions[i].pod.uid in before
               && HandlingFails(actions[i], before[actions[i].pod.uid], Gate(input), patches(actions[i].pod.uid));
      PlannedForItsPod(input, actions[i]);
    }
    if PodFails(input, before, patches) {
      var p :| p in input.pods && p.uid in before && ActionFor(input, p).Some?
               && HandlingFails(ActionFor(input, p).value, before[p.uid], Gate(input), patches(p.uid));
      ActionIsPlanned(input, p, ActionFor(input, p).value);
    }
  }

  /** A pod's action is somewhere in the plan, and a pod without one has none under its uid. */
  lemma {:induction false} PodHandled(input: PlanInput, p: Pod, actions: seq<PodAction>)
    requires actions == Ungate(input) && p in input.pods && UniquePods(input.pods)
    ensures match ActionFor(input, p)
            case None => forall i :: 0 <= i < |actions| ==> actions[i].pod.uid != p.uid
            case Some(a) => a.pod == p && exists i :: 0 <= i < |actions| && actions[i] == a
  {
    match ActionFor(input, p) {
      case None =>
        forall i | 0 <= i < |actions|
          ensures actions[i].pod.uid != p.uid
        {
          PlannedForItsPod(input, actions[i]);
        }
      case Some(a) => ActionIsPlanned(input, p, a);
    }
  }

  /** With current pods and all patches applied, what the pass stores is the pod whose second look finds
      nothing to do. */
  lemma {:induction false} SmoothPassStores(input: PlanInput, p: Pod)
    ensures SpecAfter(input, p, (p.spec, p.version), Patches(Applied, Applied)) == PodAfter(input, p).spec
  {
    if ActionFor(input, p).Some? && AsMember(input)(p).Some? {
      ActionNamesItsPod(input, AsMember(input)(p).value);
    }
  }

  /** From current copies, with all patches applied, what the pass stores is the synced node. */
  lemma {:induction false} SmoothPassSyncs(input: PlanInput, versions: string -> nat, n: Node)
    ensures var (after, err) := NodeSynced(input, versions, n, Versioned(n, versions(n.name)), Patches(Applied, Applied));
            after.node == NodeAfter(input, LabelInUse(input), n) && !err
  {
    var key, st := Key(input), ReportedState(input, n);
    var mode := EligibilityMethod(input.sequence);
    CurrentCopyIsExact(Versioned(n, versions(n.name)), key, WantLabel(n.labels, key, mode, st, LabelInUse(input)),
                       WantTaint(key, mode, NumGroups(input), st));
  }

  /** The status, the result of storing it, and when to come back. */
  method Finish(input: PlanInput, plan: NodePlan, sequence: SequenceObject, failed: bool) returns (requeueAfter: int)
    requires plan.Realizes(input)
    modifies sequence
    ensures sequence.status == PlannedStatus(input, old(sequence.status))
    ensures if failed then requeueAfter == 0 else SleepsSoundly(input, requeueAfter)
  {
    sequence.SetNodeScopedStatus(plan, NumGroups(input), Key(input));
    if failed {
      return 0;
    }
    requeueAfter := NODE_RESYNC;
    if plan.requeueAfter > 0 && plan.requeueAfter < requeueAfter {
      requeueAfter := plan.requeueAfter;
    }
    NothingMissedAsleep(input, requeueAfter);
  }

  /** The whole pass, from cached nodes and pods that may lag behind the stored ones. Whatever fails, each other
      node is synced, each other pod is handled, and the status follows the plan; but nothing happens unless nodes,
      pods and DaemonSets could be listed. */
  method ReconcileNodeScoped(listed: bool, input: PlanInput, versions: string -> nat, sequence: SequenceObject, server: ApiServer,
                             nodePatches: string -> Patches, podPatches: string -> Patches, statusFails: bool)
    returns (requeueAfter: int, failed: bool)
    requires UniqueNames(input.nodes) && UniquePods(input.pods)
    requires NodesCached(input, versions, server.nodes) && PodsCached(input, server.pods)
    modifies sequence, server
    ensures !listed ==>
              failed && requeueAfter == 0 && sequence.status == old(sequence.status)
              && server.nodes == old(server.nodes) && server.pods == old(server.pods)
    ensures listed && SpecError(input.sequence).Some? ==>
              && sequence.status == old(sequence.status).(phase := PhaseFailed) && requeueAfter == 0 && failed == statusFails
              && server.nodes == old(server.nodes) && server.pods == old(server.pods)
    ensures listed && SpecError(input.sequence).None? ==>
              && NodesSynced(input, versions, old(server.nodes), server.nodes, nodePatches)
              && PodsHandled(input, old(server.pods), server.pods, podPatches)
              && sequence.status == PlannedStatus(input, old(sequence.status))
              && (if failed then requeueAfter == 0 else SleepsSoundly(input, requeueAfter))
              && (failed <==>
                    || NodeFails(input, versions, old(server.nodes), nodePatches)
                    || PodFails(input, old(server.pods), podPatches) || statusFails)
  {
    if !listed {
      return 0, true;
    }
    var plan, err := ComputeNodePlan(input);
    if err.Some? {
      sequence.status := sequence.status.(phase := PhaseFailed);
      return 0, statusFails;
    }
    var nodesFailed := SyncPlannedNodes(input, plan, versions, server, nodePatches);
    var podsFailed := HandlePlannedPods(input, plan, server, podPatches);
    failed := nodesFailed || podsFailed || statusFails;
    requeueAfter := Finish(input, plan, sequence, failed);
  }
}
