/** Whole runs of a node-scoped sequence. The controller reads a possibly stale snapshot, syncs nodes and
    patches pods one patch at a time, and may stop anywhere; meanwhile pods, nodes and the scheduler move. */
module NodeRun {
  import opened Options
  import opened Collections
  import opened Decimal
  import opened Kube
  import opened Sequence
  import opened NodePlanSpec
  import opened PlanMeaning
  import opened PodEdits
  import opened Steering

  /** What a sync of a node was computed from. */
  datatype SyncRecord = SyncRecord(input: PlanInput, state: NodeState)

  /** pods are stored by uid and versions holds every pod ever stored, so a read is any choice of versions.
      Per node since it joined, written is the latest sync whose label the node carries, tainted the latest
      whose taint it carries, and computed the latest sync at all; lagging are the nodes whose latest sync left
      a label or a taint that admits more groups than it computed. snapshot is the input of the pass in progress and constrained
      its pods whose constraints are in place. known are all uids ever used, and steered those of the pods of
      a later group created gated, unpinned and not bypassed. */
  datatype State = State(pods: map<string, Pod>, versions: set<Pod>, nodes: map<string, Node>,
                         written: map<string, SyncRecord>, tainted: map<string, SyncRecord>,
                         computed: map<string, SyncRecord>, lagging: set<string>,
                         snapshot: Option<PlanInput>, constrained: set<Pod>, known: set<string>, steered: set<string>)

  /** applied says whether the label patch of a sync is applied, if it needs one, and retainted the same of
      its taint patch. */
  datatype Step =
    | Read(input: PlanInput)
    | SyncNode(cached: Node, state: NodeState, applied: bool, retainted: bool)
    | Constrain(action: PodAction)
    | RemoveGate(pod: Pod)
    | Crash
    | Bind(uid: string, node: string)
    | CreatePod(created: Pod)
    | ChangePod(changed: Pod)
    | DeletePod(deleted: string)
    | SetNode(current: Node)
    | DeleteNode(gone: string)

  function KeyOf(s: PodSequence): string
  {
    EligibilityKey(s.digest)
  }

  /** None of the taint values below k is tolerated. */
  predicate Refuses(tolerations: seq<Toleration>, key: string, k: int)
  {
    forall v :: 0 <= v < k ==> !Tolerated(tolerations, Taint(key, Itoa(v), NoSchedule))
  }

  predicate LaterGroupPod(s: PodSequence, p: Pod)
  {
    && HasGate(p.spec, GateName(s)) && TargetNode(p.spec) == "" && !IsBypassed(p) && GroupIndexForPod(s, p) >= 1
    && (EligibilityMethod(s) == TaintMethod ==> Refuses(p.spec.tolerations, KeyOf(s), GroupIndexForPod(s, p)))
  }

  ghost predicate Init(st: State)
  {
    && st.pods == map[] && st.versions == {} && st.nodes == map[] && st.lagging == {}
    && st.snapshot == None && st.constrained == {} && st.steered == {} && st.known == {}
    && st.written == map[] && st.tainted == map[] && st.computed == map[]
  }

  /** What others may do to a steered pod: not touch the gate, the bypass annotation or the group, keep a
      gated pod unpinned, leave the affinity of a released pod alone, as the API server enforces, and add no
      toleration of the sequence's taint. */
  predicate AllowedChange(s: PodSequence, p: Pod, q: Pod)
  {
    && q.spec.nodeName == p.spec.nodeName
    && GroupIndexForPod(s, q) == GroupIndexForPod(s, p) && IsBypassed(q) == IsBypassed(p)
    && HasGate(q.spec, GateName(s)) == HasGate(p.spec, GateName(s))
    && (if HasGate(p.spec, GateName(s)) then TargetNode(q.spec) == "" else q.spec.required == p.spec.required)
    && (EligibilityMethod(s) == TaintMethod && Refuses(p.spec.tolerations, KeyOf(s), GroupIndexForPod(s, p))
        ==> Refuses(q.spec.tolerations, KeyOf(s), GroupIndexForPod(s, p)))
  }

  function LabelOf(s: PodSequence, n: Node): Option<string>
  {
    if KeyOf(s) in n.labels then Some(n.labels[KeyOf(s)]) else None
  }

  function OwnTaints(s: PodSequence, n: Node): seq<Taint>
  {
    Collect(Own(KeyOf(s)), n.taints)
  }

  predicate OnNodes(step: Step)
  {
    step.SyncNode? || step.SetNode? || step.DeleteNode?
  }

  ghost predicate Enabled(s: PodSequence, st: State, step: Step)
  {
    if OnNodes(step) then EnabledOnNodes(s, st, step) else EnabledOnPods(s, st, step)
  }

  ghost predicate EnabledOnNodes(s: PodSequence, st: State, step: Step)
    requires OnNodes(step)
  {
    match step
    case SyncNode(cached, state, applied, retainted) =>
      && st.snapshot.Some? && state in FinalStates(st.snapshot.value)
      && cached in st.snapshot.value.nodes && cached.name == state.name && state.name in st.nodes
    case SetNode(n) =>
      if n.name in st.nodes then LabelOf(s, n) == LabelOf(s, st.nodes[n.name]) && OwnTaints(s, n) == OwnTaints(s, st.nodes[n.name])
      else LabelOf(s, n) == None && OwnTaints(s, n) == []
    case DeleteNode(n) => n in st.nodes
  }

  ghost predicate EnabledOnPods(s: PodSequence, st: State, step: Step)
    requires !OnNodes(step)
  {
    match step
    case Read(input) => input.sequence == s && forall p :: p in input.pods ==> p in st.versions
    case Constrain(a) =>
      && st.snapshot.Some? && a in Ungate(st.snapshot.value)
      && (Constrained(a.pod.spec, a) != a.pod.spec ==> a.pod.uid in st.pods && st.pods[a.pod.uid].version == a.pod.version)
    case RemoveGate(p) => p in st.constrained && p.uid in st.pods && st.pods[p.uid].version == p.version
    case Crash => true
    case Bind(uid, n) =>
      && uid in st.pods && n in st.nodes && st.pods[uid].spec.gates == [] && st.pods[uid].spec.nodeName == ""
      && AffinityMatches(st.pods[uid].spec, st.nodes[n]) && TaintsTolerated(st.nodes[n].taints, st.pods[uid].spec.tolerations)
    case CreatePod(p) => p.uid !in st.known
    case ChangePod(q) =>
      && q.uid in st.pods && q.version == st.pods[q.uid].version + 1
      && (q.uid in st.steered ==> AllowedChange(s, st.pods[q.uid], q))
    case DeletePod(uid) => uid in st.pods
  }

  function Store(st: State, p: Pod): State
  {
    st.(pods := st.pods[p.uid := p], versions := st.versions + {p})
  }

  function Next(p: Pod, spec: PodSpec): Pod
  {
    p.(spec := spec, version := p.version + 1)
  }

  // ---- one sync ----

  /** The label and the taint a sync asks for. */
  function Wanted(s: PodSequence, input: PlanInput, cached: Node, state: NodeState): string
  {
    WantLabel(cached.labels, KeyOf(s), EligibilityMethod(s), state, Referenced(input.pods, KeyOf(s)))
  }

  function WantedTaint(s: PodSequence, state: NodeState): Option<Taint>
  {
    WantTaint(KeyOf(s), EligibilityMethod(s), |s.podGroups|, state)
  }

  predicate LabelWritten(s: PodSequence, input: PlanInput, cached: Node, state: NodeState, applied: bool)
  {
    LabelPatchNeeded(cached.labels, KeyOf(s), Wanted(s, input, cached, state)) && applied
  }

  /** The stored node after the label patch, which carries no lock. */
  function Relabelled(s: PodSequence, input: PlanInput, stored: Node, cached: Node, state: NodeState, applied: bool): Node
  {
    if LabelWritten(s, input, cached, state, applied)
    then stored.(labels := WithLabel(stored.labels, KeyOf(s), Wanted(s, input, cached, state))) else stored
  }

  /** The taint patch took effect: its lock is only held by a current copy, the one the label patch returned or
      one that was current all along. */
  predicate TaintWritten(s: PodSequence, input: PlanInput, stored: Node, cached: Node, state: NodeState, applied: bool, retainted: bool)
  {
    retainted && (LabelWritten(s, input, cached, state, applied) || cached == stored)
  }

  /** The stored node after the taint patch. */
  function Retainted(s: PodSequence, input: PlanInput, stored: Node, cached: Node, state: NodeState, applied: bool, retainted: bool): Node
  {
    var node := Relabelled(s, input, stored, cached, state, applied);
    if TaintWritten(s, input, stored, cached, state, applied, retainted)
    then node.(taints := WithTaint(node.taints, KeyOf(s), WantedTaint(s, state))) else node
  }

  /** A sync leaves a label whose count exceeds what it computed: it needs no label patch by its cached copy, or
      its patch is not applied, and the stored count is too high. */
  predicate LabelLags(s: PodSequence, input: PlanInput, stored: Node, count: nat, cached: Node, state: NodeState, applied: bool)
  {
    && !LabelWritten(s, input, cached, state, applied)
    && LabelOf(s, stored).Some? && count > 0 && !(state.participating && count <= state.satisfied)
  }

  /** The largest group index that the taint for a state lets pass; the number of groups if none is set. */
  function Allowed(s: PodSequence, state: NodeState): nat
  {
    if state.participating && state.satisfied < |s.podGroups| then state.satisfied else |s.podGroups|
  }

  /** The own taints that let pass the groups up to that index. */
  function TaintsFor(s: PodSequence, allowance: nat): seq<Taint>
  {
    if allowance < |s.podGroups| then [Taint(KeyOf(s), Itoa(allowance), NoSchedule)] else []
  }

  /** Letting pass the groups up to a admits one that b does not. */
  predicate Looser(s: PodSequence, a: nat, b: nat)
  {
    a > b && b + 1 < |s.podGroups|
  }

  /** A sync leaves a taint that lets pass more than it computed. */
  predicate TaintLags(s: PodSequence, input: PlanInput, stored: Node, allowance: nat, cached: Node, state: NodeState,
                      applied: bool, retainted: bool)
  {
    !TaintWritten(s, input, stored, cached, state, applied, retainted) && Looser(s, allowance, Allowed(s, state))
  }

  function Count(st: State, n: string): nat
  {
    if n in st.written then st.written[n].state.satisfied else 0
  }

  /** What the taint of a node lets pass: everything if no sync has left one since it joined. */
  function Allowance(s: PodSequence, st: State, n: string): nat
  {
    if n in st.tainted then Allowed(s, st.tainted[n].state) else |s.podGroups|
  }

  predicate Lags(s: PodSequence, st: State, cached: Node, state: NodeState, applied: bool, retainted: bool)
    requires st.snapshot.Some? && state.name in st.nodes
  {
    var input, stored := st.snapshot.value, st.nodes[state.name];
    if EligibilityMethod(s) == TaintMethod then
      TaintLags(s, input, stored, Allowance(s, st, state.name), cached, state, applied, retainted)
    else LabelLags(s, input, stored, Count(st, state.name), cached, state, applied)
  }

  function Sync(s: PodSequence, st: State, cached: Node, state: NodeState, applied: bool, retainted: bool): State
    requires st.snapshot.Some? && state.name in st.nodes
  {
    var input, stored := st.snapshot.value, st.nodes[state.name];
    var node := Retainted(s, input, stored, cached, state, applied, retainted);
    var want := Wanted(s, input, cached, state);
    var record := SyncRecord(input, state);
    st.(nodes := st.nodes[state.name := node],
        written := if LabelOf(s, node) == (if want == "" then None else Some(want)) then st.written[state.name := record] else st.written,
        tainted := if OwnTaints(s, node) == WantedTaints(s, state) then st.tainted[state.name := record] else st.tainted,
        computed := st.computed[state.name := record],
        lagging := if Lags(s, st, cached, state, applied, retainted)
                   then st.lagging + {state.name} else st.lagging - {state.name})
  }

  function WantedTaints(s: PodSequence, state: NodeState): seq<Taint>
  {
    if WantedTaint(s, state).Some? then [WantedTaint(s, state).value] else []
  }

  function Forget(st: State, n: string): State
  {
    st.(nodes := st.nodes - {n}, written := st.written - {n}, tainted := st.tainted - {n},
        computed := st.computed - {n}, lagging := st.lagging - {n})
  }

  function ApplyOnNodes(s: PodSequence, st: State, step: Step): State
    requires OnNodes(step) && EnabledOnNodes(s, st, step)
  {
    match step
    case SyncNode(cached, state, applied, retainted) => Sync(s, st, cached, state, applied, retainted)
    case SetNode(n) => st.(nodes := st.nodes[n.name := n])
    case DeleteNode(n) => Forget(st, n)
  }

  function ApplyOnPods(s: PodSequence, st: State, step: Step): State
    requires !OnNodes(step) && EnabledOnPods(s, st, step)
  {
    match step
    case Read(input) => st.(snapshot := Some(input), constrained := {})
    case Constrain(a) =>
      if Constrained(a.pod.spec, a) == a.pod.spec then st.(constrained := st.constrained + {a.pod})
      else
        var q := Next(a.pod, Constrained(a.pod.spec, a));
        Store(st, q).(constrained := st.constrained + {q})
    case RemoveGate(p) => Store(st, Next(p, Ungated(p.spec, GateName(s))))
    case Crash => st.(snapshot := None, constrained := {})
    case Bind(uid, n) => Store(st, Next(st.pods[uid], st.pods[uid].spec.(nodeName := n)))
    case CreatePod(p) =>
      Store(st, p).(known := st.known + {p.uid}, steered := if LaterGroupPod(s, p) then st.steered + {p.uid} else st.steered)
    case ChangePod(q) => Store(st, q)
    case DeletePod(uid) => st.(pods := st.pods - {uid})
  }

  function Apply(s: PodSequence, st: State, step: Step): State
    requires Enabled(s, st, step)
  {
    if OnNodes(step) then ApplyOnNodes(s, st, step) else ApplyOnPods(s, st, step)
  }

  /** What a sync leaves of the stored node is what a step leaves, for some flags: the run model moves as the
      program's own sync does, whatever becomes of its patches. */
  lemma {:induction false} OutcomeIsStep(s: PodSequence, input: PlanInput, cached: Versioned, stored: Versioned, state: NodeState,
                                         labelPatch: PatchResult, taintPatch: PatchResult) returns (applied: bool, retainted: bool)
    requires CopyOf(cached, stored)
    ensures SyncOutcome(cached, stored, KeyOf(s), EligibilityMethod(s), |s.podGroups|, state, Referenced(input.pods, KeyOf(s)),
                        labelPatch, taintPatch).0.node
         == Retainted(s, input, stored.node, cached.node, state, applied, retainted)
  {
    applied := labelPatch == Applied;
    var needed := LabelPatchNeeded(cached.node.labels, KeyOf(s), Wanted(s, input, cached.node, state));
    retainted := taintPatch == Applied && !(needed && labelPatch == Rejected)
                 && (LabelWritten(s, input, cached.node, state, applied) || cached.version == stored.version);
  }

  /** And every step is such a sync, for some versions and some fate of its patches. */
  lemma {:induction false} StepIsOutcome(s: PodSequence, input: PlanInput, cached: Node, stored: Node, state: NodeState,
                                         applied: bool, retainted: bool)
    returns (c: Versioned, v: Versioned, labelPatch: PatchResult, taintPatch: PatchResult)
    requires cached.name == stored.name
    ensures c.node == cached && v.node == stored && CopyOf(c, v)
    ensures SyncOutcome(c, v, KeyOf(s), EligibilityMethod(s), |s.podGroups|, state, Referenced(input.pods, KeyOf(s)),
                        labelPatch, taintPatch).0.node
         == Retainted(s, input, stored, cached, state, applied, retainted)
  {
    c, v := Versioned(cached, 0), Versioned(stored, if cached == stored then 0 else 1);
    labelPatch := if applied then Applied else NotFound;
    taintPatch := if retainted then Applied else Rejected;
  }

  // ---- the invariant ----

  /** A stored version is the current pod, or an older one. */
  ghost predicate VersionsOrdered(st: State)
  {
    && (forall uid :: uid in st.pods ==> st.pods[uid] in st.versions && st.pods[uid].uid == uid)
    && (forall v :: v in st.versions && v.uid in st.pods ==>
          v.version <= st.pods[v.uid].version && (v.version == st.pods[v.uid].version ==> v == st.pods[v.uid]))
  }

  /** In NodeLabel mode the requirement of the pod's group stands in every required term; in Taint mode a pod
      tolerates no value below its index, with or without the tolerations of its group. */
  predicate InPlace(s: PodSequence, p: Pod)
  {
    && GroupIndexForPod(s, p) >= 1
    && if EligibilityMethod(s) == TaintMethod then Refuses(p.spec.tolerations, KeyOf(s), GroupIndexForPod(s, p))
       else Demands(p.spec.required, EligibilityRequirement(KeyOf(s), GroupIndexForPod(s, p)))
  }

  /** Once the gate is gone, the constraints of the pod's group are in place; while it is there, the pod is unpinned. */
  predicate Steered(s: PodSequence, p: Pod)
  {
    && GroupIndexForPod(s, p) >= 1 && !IsBypassed(p)
    && (HasGate(p.spec, GateName(s)) ==> TargetNode(p.spec) == "")
    && (!HasGate(p.spec, GateName(s)) || EligibilityMethod(s) == TaintMethod ==> InPlace(s, p))
  }

  ghost predicate VersionSafe(s: PodSequence, st: State, v: Pod)
  {
    && v.uid in st.known
    && (v.uid in st.steered ==> Steered(s, v))
    && (v in st.constrained && v.uid in st.steered ==> InPlace(s, v))
  }

  ghost predicate SnapshotSafe(s: PodSequence, st: State)
  {
    && st.constrained <= st.versions && st.steered <= st.known
    && (st.snapshot.Some? ==> st.snapshot.value.sequence == s && forall p :: p in st.snapshot.value.pods ==> p in st.versions)
  }

  ghost predicate PodsSafe(s: PodSequence, st: State)
  {
    VersionsOrdered(st) && SnapshotSafe(s, st) && forall v :: v in st.versions ==> VersionSafe(s, st, v)
  }

  ghost predicate Recorded(s: PodSequence, n: string, r: SyncRecord)
  {
    r.input.sequence == s && r.state in FinalStates(r.input) && r.state.name == n
  }

  /** In NodeLabel mode a label on a node is the satisfied count of the sync that wrote it, and the node lags
      exactly when that count exceeds what its latest sync computed. */
  ghost predicate LabelSafe(s: PodSequence, st: State, n: string)
    requires n in st.nodes
  {
    && (LabelOf(s, st.nodes[n]).Some? ==>
          && n in st.written && Recorded(s, n, st.written[n]) && st.written[n].state.participating
          && LabelOf(s, st.nodes[n]) == Some(Itoa(st.written[n].state.satisfied))
          && n in st.computed && Recorded(s, n, st.computed[n]))
    && (n in st.lagging <==>
          LabelOf(s, st.nodes[n]).Some? && Count(st, n) > 0
          && !(n in st.computed && st.computed[n].state.participating && Count(st, n) <= st.computed[n].state.satisfied))
  }

  /** In Taint mode a node carries the own taint of the latest sync that took effect, or none if there is none,
      and lags exactly when that lets pass a group which its latest sync would not. */
  ghost predicate TaintSafe(s: PodSequence, st: State, n: string)
    requires n in st.nodes
  {
    && (n in st.tainted ==> Recorded(s, n, st.tainted[n]) && n in st.computed)
    && (n in st.computed ==> Recorded(s, n, st.computed[n]))
    && OwnTaints(s, st.nodes[n]) == TaintsFor(s, Allowance(s, st, n))
    && (n in st.lagging <==> n in st.computed && Looser(s, Allowance(s, st, n), Allowed(s, st.computed[n].state)))
  }

  /** The node's part of the invariant, in either mode. */
  ghost predicate NodeSafe(s: PodSequence, st: State, n: string)
    requires n in st.nodes
  {
    if EligibilityMethod(s) == TaintMethod then TaintSafe(s, st, n) else LabelSafe(s, st, n)
  }

  ghost predicate NodesSafe(s: PodSequence, st: State)
  {
    && (forall n :: n in st.written || n in st.tainted || n in st.computed || n in st.lagging ==> n in st.nodes)
    && (forall n :: n in st.nodes ==> NodeSafe(s, st, n))
  }

  ghost predicate Safe(s: PodSequence, st: State)
  {
    PodsSafe(s, st) && NodesSafe(s, st)
  }

  // ---- pods: every step keeps it ----

  /** A gated member that is neither bypassed nor pinned gets its constraints. */
  lemma {:induction false} UnpinnedVerdict(s: PodSequence, input: PlanInput, m: Member, a: PodAction)
    requires input.sequence == s && MemberAction(input, BaseStates(input))(m) == Some(a)
    ensures a.pod == m.pod && HasGate(m.pod.spec, GateName(s))
    ensures !IsBypassed(m.pod) && m.node == "" ==> a == UnpinnedAction(input, m)
  {
  }

  lemma {:induction false} MemberActionSteers(s: PodSequence, input: PlanInput, m: Member, a: PodAction)
    requires input.sequence == s && m in Members(input)
    requires MemberAction(input, BaseStates(input))(m) == Some(a)
    ensures a.pod in input.pods && HasGate(a.pod.spec, GateName(s))
    ensures Steered(s, a.pod) ==> ActionOf(s, a)
  {
    MembersMeaning(input, m);
    UnpinnedVerdict(s, input, m, a);
  }

  /** What the action on a steered pod adds. */
  predicate ActionOf(s: PodSequence, a: PodAction)
  {
    var k := GroupIndexForPod(s, a.pod);
    k >= 1 &&
    if EligibilityMethod(s) == TaintMethod
    then a.addAffinity == None && a.addTolerations == EligibilityTolerations(KeyOf(s), k, |s.podGroups|)
    else a.addAffinity == Some(EligibilityRequirement(KeyOf(s), k)) && a.addTolerations == []
  }

  /** A plan's action on a steered pod always carries the constraints of the pod's group. */
  lemma {:induction false} ActionSteers(s: PodSequence, input: PlanInput, a: PodAction)
    requires input.sequence == s && a in Ungate(input)
    ensures a.pod in input.pods && HasGate(a.pod.spec, GateName(s))
    ensures Steered(s, a.pod) ==> ActionOf(s, a)
  {
    UngateMember(input, a);
    if a.pod !in input.pods || StrayAction(input)(a.pod) != Some(a) {
      var m :| m in Members(input) && MemberAction(input, BaseStates(input))(m) == Some(a);
      MemberActionSteers(s, input, m, a);
    }
  }

  lemma {:induction false} RefusesStill(tolerations: seq<Toleration>, key: string, k: nat, numGroups: nat)
    requires k >= 1 && Refuses(tolerations, key, k)
    ensures Refuses(WithTolerations(tolerations, EligibilityTolerations(key, k, numGroups)), key, k)
  {
    var tols := EligibilityTolerations(key, k, numGroups);
    forall v | 0 <= v < k
      ensures !Tolerated(WithTolerations(tolerations, tols), Taint(key, Itoa(v), NoSchedule))
    {
      EligibilityTolerationsMeaning(key, k, numGroups, v);
      forall t | t in WithTolerations(tolerations, tols)
        ensures !ToleratesTaint(t, Taint(key, Itoa(v), NoSchedule))
      {
        WithTolerationsContains(tolerations, tols, t);
      }
    }
  }

  lemma {:induction false} ConstrainedIsInPlace(s: PodSequence, p: Pod, a: PodAction)
    requires Steered(s, p) && HasGate(p.spec, GateName(s)) && ActionOf(s, a) && a.pod == p
    ensures InPlace(s, p.(spec := Constrained(p.spec, a)))
  {
    var k := GroupIndexForPod(s, p);
    SameGroup(s, p, p.(spec := Constrained(p.spec, a)));
    if EligibilityMethod(s) == TaintMethod {
      RefusesStill(p.spec.tolerations, KeyOf(s), k, |s.podGroups|);
    } else {
      WithRequirementDemands(p.spec.required, KeyOf(s), k);
    }
  }

  lemma {:induction false} ConstrainedIsSteered(s: PodSequence, p: Pod, a: PodAction)
    requires Steered(s, p) && HasGate(p.spec, GateName(s)) && ActionOf(s, a) && a.pod == p
    ensures var q := Next(p, Constrained(p.spec, a));
            Steered(s, q) && InPlace(s, q) && (Constrained(p.spec, a) == p.spec ==> InPlace(s, p))
  {
    var q := Next(p, Constrained(p.spec, a));
    ConstrainedIsInPlace(s, p, a);
    SameGroup(s, p, q);
    SameGroup(s, p, p.(spec := Constrained(p.spec, a)));
    if EligibilityMethod(s) != TaintMethod {
      AffinityEditKeepsTarget(p.spec, a.addAffinity.value);
      assert Constrained(p.spec, a) == p.spec.(required := WithRequirement(p.spec.required, a.addAffinity.value));
    } else {
      assert TargetNode(q.spec) == TargetNode(p.spec);
    }
  }

  lemma {:induction false} UngatedIsSteered(s: PodSequence, p: Pod)
    requires Steered(s, p) && InPlace(s, p)
    ensures Steered(s, Next(p, Ungated(p.spec, GateName(s))))
  {
    var q := Next(p, Ungated(p.spec, GateName(s)));
    WithoutGateMember(p.spec.gates, GateName(s), GateName(s));
    SameGroup(s, p, q);
  }

  lemma {:induction false} BoundIsSteered(s: PodSequence, p: Pod, n: string)
    requires Steered(s, p) && p.spec.gates == []
    ensures Steered(s, Next(p, p.spec.(nodeName := n)))
  {
    SameGroup(s, p, Next(p, p.spec.(nodeName := n)));
  }

  /** A new current version, or the first one of a new pod, keeps the versions in order. */
  lemma {:induction false} StoreKeepsOrder(st: State, q: Pod)
    requires VersionsOrdered(st)
    requires if q.uid in st.pods then q.version == st.pods[q.uid].version + 1 else forall v :: v in st.versions ==> v.uid != q.uid
    ensures VersionsOrdered(Store(st, q))
  {
    var next := Store(st, q);
    forall v | v in next.versions && v.uid in next.pods
      ensures v.version <= next.pods[v.uid].version && (v.version == next.pods[v.uid].version ==> v == next.pods[v.uid])
    {
      if v.uid == q.uid && v != q {
        assert v in st.versions && q.uid in st.pods;
      }
    }
  }

  /** Storing a new version of the current pod keeps the pods safe if the version is. */
  lemma {:induction false} StoreKeeps(s: PodSequence, st: State, q: Pod)
    requires PodsSafe(s, st) && q.uid in st.pods && q.version == st.pods[q.uid].version + 1
    requires q.uid in st.steered ==> Steered(s, q)
    ensures PodsSafe(s, Store(st, q)) && q !in st.constrained
  {
    StoreKeepsOrder(st, q);
    var next := Store(st, q);
    assert q !in st.versions;
    assert VersionSafe(s, st, st.pods[q.uid]);
    forall v | v in next.versions
      ensures VersionSafe(s, next, v)
    {
      if v != q {
        assert VersionSafe(s, st, v);
      }
    }
  }

  lemma {:induction false} NewPodIsSteered(s: PodSequence, p: Pod)
    requires LaterGroupPod(s, p)
    ensures Steered(s, p)
  {
  }

  lemma {:induction false} CreateKeeps(s: PodSequence, st: State, p: Pod)
    requires PodsSafe(s, st) && p.uid !in st.known
    ensures PodsSafe(s, ApplyOnPods(s, st, CreatePod(p)))
  {
    var next := ApplyOnPods(s, st, CreatePod(p));
    forall v | v in st.versions
      ensures v.uid != p.uid
    {
      assert VersionSafe(s, st, v);
    }
    StoreKeepsOrder(st, p);
    assert VersionsOrdered(next);
    forall v | v in next.versions
      ensures VersionSafe(s, next, v)
    {
      if v in st.versions {
        assert VersionSafe(s, st, v);
      } else if LaterGroupPod(s, p) {
        NewPodIsSteered(s, p);
      }
    }
  }

  /** Marking a stored version as constrained. */
  lemma {:induction false} MarkKeeps(s: PodSequence, st: State, q: Pod)
    requires PodsSafe(s, st) && q in st.versions && (q.uid in st.steered ==> InPlace(s, q))
    ensures PodsSafe(s, st.(constrained := st.constrained + {q}))
  {
    forall v | v in st.versions
      ensures VersionSafe(s, st.(constrained := st.constrained + {q}), v)
    {
      assert VersionSafe(s, st, v);
    }
  }

  lemma {:induction false} ConstrainKeeps(s: PodSequence, st: State, a: PodAction)
    requires PodsSafe(s, st) && EnabledOnPods(s, st, Constrain(a))
    ensures PodsSafe(s, ApplyOnPods(s, st, Constrain(a)))
  {
    ActionSteers(s, st.snapshot.value, a);
    assert VersionSafe(s, st, a.pod);
    if a.pod.uid in st.steered {
      ConstrainedIsSteered(s, a.pod, a);
    }
    if Constrained(a.pod.spec, a) == a.pod.spec {
      MarkKeeps(s, st, a.pod);
    } else {
      var q := Next(a.pod, Constrained(a.pod.spec, a));
      StoreKeeps(s, st, q);
      MarkKeeps(s, Store(st, q), q);
    }
  }

  lemma {:induction false} RemoveGateKeeps(s: PodSequence, st: State, p: Pod)
    requires PodsSafe(s, st) && EnabledOnPods(s, st, RemoveGate(p))
    ensures PodsSafe(s, ApplyOnPods(s, st, RemoveGate(p)))
  {
    assert VersionSafe(s, st, p);
    if p.uid in st.steered {
      UngatedIsSteered(s, p);
    }
    StoreKeeps(s, st, Next(p, Ungated(p.spec, GateName(s))));
  }

  lemma {:induction false} BindKeeps(s: PodSequence, st: State, uid: string, n: string)
    requires PodsSafe(s, st) && EnabledOnPods(s, st, Bind(uid, n))
    ensures PodsSafe(s, ApplyOnPods(s, st, Bind(uid, n)))
  {
    assert VersionSafe(s, st, st.pods[uid]);
    if uid in st.steered {
      BoundIsSteered(s, st.pods[uid], n);
    }
    StoreKeeps(s, st, Next(st.pods[uid], st.pods[uid].spec.(nodeName := n)));
  }

  lemma {:induction false} ChangeKeeps(s: PodSequence, st: State, q: Pod)
    requires PodsSafe(s, st) && EnabledOnPods(s, st, ChangePod(q))
    ensures PodsSafe(s, ApplyOnPods(s, st, ChangePod(q)))
  {
    assert VersionSafe(s, st, st.pods[q.uid]);
    StoreKeeps(s, st, q);
  }

  /** Steps that store no pod. */
  lemma {:induction false} NoPodStored(s: PodSequence, st: State, next: State)
    requires PodsSafe(s, st) && next.versions == st.versions && next.known == st.known && next.steered == st.steered
    requires next.constrained <= st.constrained && SnapshotSafe(s, next)
    requires forall uid :: uid in next.pods ==> uid in st.pods && next.pods[uid] == st.pods[uid]
    ensures PodsSafe(s, next)
  {
    forall v | v in next.versions
      ensures VersionSafe(s, next, v)
    {
      assert VersionSafe(s, st, v);
    }
  }

  lemma {:induction false} PodStepsKeep(s: PodSequence, st: State, step: Step)
    requires PodsSafe(s, st) && !OnNodes(step) && EnabledOnPods(s, st, step)
    ensures PodsSafe(s, ApplyOnPods(s, st, step))
  {
    match step
    case Constrain(a) => ConstrainKeeps(s, st, a);
    case RemoveGate(p) => RemoveGateKeeps(s, st, p);
    case Bind(uid, n) => BindKeeps(s, st, uid, n);
    case CreatePod(p) => CreateKeeps(s, st, p);
    case ChangePod(q) => ChangeKeeps(s, st, q);
    case Read(input) => ReadKeeps(s, st, input);
    case Crash => NoPodStored(s, st, st.(snapshot := None, constrained := {}));
    case DeletePod(uid) => NoPodStored(s, st, st.(pods := st.pods - {uid}));
  }

  lemma {:induction false} NodeStepsKeepPods(s: PodSequence, st: State, step: Step)
    requires PodsSafe(s, st) && OnNodes(step) && EnabledOnNodes(s, st, step)
    ensures PodsSafe(s, ApplyOnNodes(s, st, step))
  {
    NoPodStored(s, st, ApplyOnNodes(s, st, step));
  }

  lemma {:induction false} ReadKeeps(s: PodSequence, st: State, input: PlanInput)
    requires PodsSafe(s, st) && EnabledOnPods(s, st, Read(input))
    ensures PodsSafe(s, st.(snapshot := Some(input), constrained := {}))
  {
    NoPodStored(s, st, st.(snapshot := Some(input), constrained := {}));
  }

  // ---- nodes: every step keeps it ----

  /** The own label after a sync. */
  lemma {:induction false} LabelAfterSync(s: PodSequence, input: PlanInput, stored: Node, cached: Node, state: NodeState,
                                          applied: bool, retainted: bool)
    requires EligibilityMethod(s) != TaintMethod
    ensures Wanted(s, input, cached, state) == if state.participating then Itoa(state.satisfied) else ""
    ensures Wanted(s, input, cached, state) == "" <==> !state.participating
    ensures LabelOf(s, Retainted(s, input, stored, cached, state, applied, retainted))
            == if !LabelWritten(s, input, cached, state, applied) then LabelOf(s, stored)
               else if state.participating then Some(Itoa(state.satisfied)) else None
  {
    ParseIntItoa(state.satisfied);
  }

  lemma {:induction false} SyncKeepsLabel(s: PodSequence, st: State, cached: Node, state: NodeState, applied: bool, retainted: bool)
    requires st.snapshot.Some? && state.name in st.nodes && EligibilityMethod(s) != TaintMethod
    requires LabelSafe(s, st, state.name) && Recorded(s, state.name, SyncRecord(st.snapshot.value, state))
    ensures LabelSafe(s, Sync(s, st, cached, state, applied, retainted), state.name)
  {
    var n, input := state.name, st.snapshot.value;
    var next := Sync(s, st, cached, state, applied, retainted);
    LabelAfterSync(s, input, st.nodes[n], cached, state, applied, retainted);
    if LabelWritten(s, input, cached, state, applied) {
      assert LabelOf(s, next.nodes[n]).Some? ==> next.written[n] == SyncRecord(input, state);
    } else if LabelOf(s, st.nodes[n]).Some? && state.participating {
      if Count(st, n) != state.satisfied && Itoa(Count(st, n)) == Itoa(state.satisfied) {
        ItoaInjective(Count(st, n), state.satisfied);
      }
    }
  }

  /** The own taint after a sync in Taint mode. */
  lemma {:induction false} TaintAfterSync(s: PodSequence, input: PlanInput, stored: Node, cached: Node, state: NodeState,
                                          applied: bool, retainted: bool)
    requires EligibilityMethod(s) == TaintMethod
    ensures WantedTaints(s, state) == TaintsFor(s, Allowed(s, state))
    ensures OwnTaints(s, Retainted(s, input, stored, cached, state, applied, retainted))
            == if TaintWritten(s, input, stored, cached, state, applied, retainted) then TaintsFor(s, Allowed(s, state)) else OwnTaints(s, stored)
  {
    WithTaintMeaning(stored.taints, KeyOf(s), WantedTaint(s, state));
  }

  lemma {:induction false} TaintsForInjective(s: PodSequence, a: nat, b: nat)
    requires a <= |s.podGroups| && b <= |s.podGroups| && TaintsFor(s, a) == TaintsFor(s, b)
    ensures a == b
  {
    if a < |s.podGroups| && b < |s.podGroups| {
      assert TaintsFor(s, a)[0] == TaintsFor(s, b)[0];
      if a != b {
        ItoaInjective(a, b);
      }
    }
  }

  /** And what it lets pass. */
  lemma {:induction false} AllowanceAfterSync(s: PodSequence, st: State, cached: Node, state: NodeState, applied: bool, retainted: bool)
    requires st.snapshot.Some? && state.name in st.nodes && EligibilityMethod(s) == TaintMethod
    requires OwnTaints(s, st.nodes[state.name]) == TaintsFor(s, Allowance(s, st, state.name))
    ensures Allowance(s, Sync(s, st, cached, state, applied, retainted), state.name)
            == if TaintWritten(s, st.snapshot.value, st.nodes[state.name], cached, state, applied, retainted) then Allowed(s, state)
               else Allowance(s, st, state.name)
  {
    var n, input := state.name, st.snapshot.value;
    TaintAfterSync(s, input, st.nodes[n], cached, state, applied, retainted);
    if !TaintWritten(s, input, st.nodes[n], cached, state, applied, retainted)
       && OwnTaints(s, st.nodes[n]) == TaintsFor(s, Allowed(s, state)) {
      TaintsForInjective(s, Allowance(s, st, n), Allowed(s, state));
    }
  }

  lemma {:induction false} SyncKeepsTaint(s: PodSequence, st: State, cached: Node, state: NodeState, applied: bool, retainted: bool)
    requires st.snapshot.Some? && state.name in st.nodes && EligibilityMethod(s) == TaintMethod
    requires TaintSafe(s, st, state.name) && Recorded(s, state.name, SyncRecord(st.snapshot.value, state))
    ensures TaintSafe(s, Sync(s, st, cached, state, applied, retainted), state.name)
  {
    TaintAfterSync(s, st.snapshot.value, st.nodes[state.name], cached, state, applied, retainted);
    AllowanceAfterSync(s, st, cached, state, applied, retainted);
  }

  /** Nodes other than the one a step is about keep their part of the invariant. */
  lemma {:induction false} OtherNodesKeep(s: PodSequence, st: State, next: State, n: string)
    requires n in st.nodes && n in next.nodes && LabelOf(s, next.nodes[n]) == LabelOf(s, st.nodes[n])
    requires OwnTaints(s, next.nodes[n]) == OwnTaints(s, st.nodes[n])
    requires n in next.written <==> n in st.written
    requires n in next.tainted <==> n in st.tainted
    requires n in next.computed <==> n in st.computed
    requires n in st.written ==> next.written[n] == st.written[n]
    requires n in st.tainted ==> next.tainted[n] == st.tainted[n]
    requires n in st.computed ==> next.computed[n] == st.computed[n]
    requires n in next.lagging <==> n in st.lagging
    ensures LabelSafe(s, st, n) ==> LabelSafe(s, next, n)
    ensures TaintSafe(s, st, n) ==> TaintSafe(s, next, n)
  {
  }

  lemma {:induction false} SyncKeepsOthers(s: PodSequence, st: State, cached: Node, state: NodeState, applied: bool, retainted: bool, n: string)
    requires st.snapshot.Some? && state.name in st.nodes && n in st.nodes && n != state.name && NodeSafe(s, st, n)
    ensures NodeSafe(s, Sync(s, st, cached, state, applied, retainted), n)
  {
    OtherNodesKeep(s, st, Sync(s, st, cached, state, applied, retainted), n);
  }

  lemma {:induction false} SyncKeepsOwn(s: PodSequence, st: State, cached: Node, state: NodeState, applied: bool, retainted: bool)
    requires st.snapshot.Some? && state.name in st.nodes && NodeSafe(s, st, state.name)
    requires Recorded(s, state.name, SyncRecord(st.snapshot.value, state))
    ensures NodeSafe(s, Sync(s, st, cached, state, applied, retainted), state.name)
  {
    if EligibilityMethod(s) == TaintMethod {
      SyncKeepsTaint(s, st, cached, state, applied, retainted);
    } else {
      SyncKeepsLabel(s, st, cached, state, applied, retainted);
    }
  }

  lemma {:induction false} SyncKeeps(s: PodSequence, st: State, cached: Node, state: NodeState, applied: bool, retainted: bool)
    requires NodesSafe(s, st) && EnabledOnNodes(s, st, SyncNode(cached, state, applied, retainted)) && st.snapshot.value.sequence == s
    ensures NodesSafe(s, Sync(s, st, cached, state, applied, retainted))
  {
    var next := Sync(s, st, cached, state, applied, retainted);
    forall n | n in next.nodes
      ensures NodeSafe(s, next, n)
    {
      if n != state.name {
        SyncKeepsOthers(s, st, cached, state, applied, retainted, n);
      } else {
        SyncKeepsOwn(s, st, cached, state, applied, retainted);
      }
    }
  }

  lemma {:induction false} SetNodeKeeps(s: PodSequence, st: State, node: Node)
    requires NodesSafe(s, st) && EnabledOnNodes(s, st, SetNode(node))
    ensures NodesSafe(s, ApplyOnNodes(s, st, SetNode(node)))
  {
    var next := ApplyOnNodes(s, st, SetNode(node));
    forall n | n in next.nodes
      ensures NodeSafe(s, next, n)
    {
      if n in st.nodes {
        OtherNodesKeep(s, st, next, n);
      }
    }
  }

  lemma {:induction false} DeleteNodeKeeps(s: PodSequence, st: State, gone: string)
    requires NodesSafe(s, st) && gone in st.nodes
    ensures NodesSafe(s, Forget(st, gone))
  {
    var next := Forget(st, gone);
    forall n | n in next.nodes
      ensures NodeSafe(s, next, n)
    {
      OtherNodesKeep(s, st, next, n);
    }
  }

  lemma {:induction false} SameNodesKeep(s: PodSequence, st: State, next: State)
    requires NodesSafe(s, st) && SameNodes(st, next)
    ensures NodesSafe(s, next)
  {
    forall n | n in next.nodes
      ensures NodeSafe(s, next, n)
    {
      OtherNodesKeep(s, st, next, n);
    }
  }

  lemma {:induction false} NodeStepsKeep(s: PodSequence, st: State, step: Step)
    requires Safe(s, st) && OnNodes(step) && EnabledOnNodes(s, st, step)
    ensures NodesSafe(s, ApplyOnNodes(s, st, step))
  {
    match step
    case SyncNode(cached, state, applied, retainted) => SyncKeeps(s, st, cached, state, applied, retainted);
    case SetNode(n) => SetNodeKeeps(s, st, n);
    case DeleteNode(n) => DeleteNodeKeeps(s, st, n);
  }

  ghost predicate SameNodes(st: State, next: State)
  {
    && next.nodes == st.nodes && next.written == st.written && next.tainted == st.tainted
    && next.computed == st.computed && next.lagging == st.lagging
  }

  lemma {:induction false} PodStepTouchesNoNode(s: PodSequence, st: State, step: Step)
    requires !OnNodes(step) && EnabledOnPods(s, st, step)
    ensures SameNodes(st, ApplyOnPods(s, st, step))
  {
    match step
    case Read(input) =>
    case Constrain(a) =>
    case RemoveGate(p) =>
    case Crash =>
    case Bind(uid, n) =>
    case CreatePod(p) =>
    case ChangePod(q) =>
    case DeletePod(uid) =>
  }

  lemma {:induction false} PodStepsKeepNodes(s: PodSequence, st: State, step: Step)
    requires NodesSafe(s, st) && !OnNodes(step) && EnabledOnPods(s, st, step)
    ensures NodesSafe(s, ApplyOnPods(s, st, step))
  {
    PodStepTouchesNoNode(s, st, step);
    SameNodesKeep(s, st, ApplyOnPods(s, st, step));
  }

  lemma {:induction false} StepKeeps(s: PodSequence, st: State, step: Step)
    requires Safe(s, st) && Enabled(s, st, step)
    ensures Safe(s, Apply(s, st, step))
  {
    if OnNodes(step) {
      NodeStepsKeepPods(s, st, step);
      NodeStepsKeep(s, st, step);
    } else {
      PodStepsKeep(s, st, step);
      PodStepsKeepNodes(s, st, step);
    }
  }

  // ---- runs ----

  /** Step i was enabled, and led to the next state. */
  ghost predicate Taken(s: PodSequence, states: seq<State>, steps: seq<Step>, i: nat)
    requires |states| == |steps| + 1 && i < |steps|
  {
    Enabled(s, states[i], steps[i]) && states[i + 1] == Apply(s, states[i], steps[i])
  }

  ghost predicate Run(s: PodSequence, states: seq<State>, steps: seq<Step>)
  {
    |states| == |steps| + 1 && Init(states[0]) && forall i: nat :: i < |steps| ==> Taken(s, states, steps, i)
  }

  /** Step i binds a steered pod. */
  ghost predicate BindsSteered(s: PodSequence, states: seq<State>, steps: seq<Step>, i: nat)
    requires Run(s, states, steps)
  {
    i < |steps| && Taken(s, states, steps, i) && steps[i].Bind? && steps[i].uid in states[i].steered
  }

  lemma {:induction false} RunsAreSafe(s: PodSequence, states: seq<State>, steps: seq<Step>, i: nat)
    requires Run(s, states, steps) && i < |states|
    ensures Safe(s, states[i])
  {
    if i > 0 {
      RunsAreSafe(s, states, steps, i - 1);
      assert Taken(s, states, steps, i - 1);
      StepKeeps(s, states[i - 1], steps[i - 1]);
    }
  }

  lemma {:induction false} LagOfStep(s: PodSequence, st: State, step: Step, next: State)
    requires Enabled(s, st, step) && next == Apply(s, st, step)
    ensures LeavesLag(s, st, step) ==> next.lagging != {}
    ensures !LeavesLag(s, st, step) ==> next.lagging <= st.lagging
  {
    if step.SyncNode? {
      assert LeavesLag(s, st, step) <==> step.state.name in next.lagging;
    } else if !OnNodes(step) {
      PodStepTouchesNoNode(s, st, step);
    }
  }

  /** A step that leaves its node lagging. */
  predicate LeavesLag(s: PodSequence, st: State, step: Step)
  {
    && step.SyncNode? && st.snapshot.Some? && step.state.name in st.nodes
    && Lags(s, st, step.cached, step.state, step.applied, step.retainted)
  }

  /** No node ever lags exactly when no sync leaves its node lagging. */
  lemma {:induction false} NoLagIff(s: PodSequence, states: seq<State>, steps: seq<Step>, i: nat)
    requires Run(s, states, steps) && i < |states|
    ensures (forall j :: 0 <= j < i ==> !LeavesLag(s, states[j], steps[j])) <==> (forall j :: 0 <= j <= i ==> states[j].lagging == {})
  {
    if i > 0 {
      NoLagIff(s, states, steps, i - 1);
      assert Taken(s, states, steps, i - 1);
      LagOfStep(s, states[i - 1], steps[i - 1], states[i]);
      assert states[i - 1].lagging == {} && !LeavesLag(s, states[i - 1], steps[i - 1]) ==> states[i].lagging == {};
    }
  }

  /** The sync found the node participating with at least k satisfied groups. */
  predicate Supports(state: NodeState, k: nat)
  {
    state.participating && state.satisfied >= k
  }

  /** The sync saw a participating node of that name on which the first k groups hold. */
  ghost predicate Grounded(s: PodSequence, n: string, r: SyncRecord, k: nat)
  {
    && r.input.sequence == s && k <= |s.podGroups| && Supports(r.state, k)
    && exists node :: node in r.input.nodes && node.name == n && Participating(r.input, node)
                      && forall j :: 0 <= j < k ==> GroupHolds(r.input, node, j)
  }

  lemma {:induction false} RecordIsGrounded(s: PodSequence, n: string, r: SyncRecord, k: nat)
    requires Recorded(s, n, r) && Supports(r.state, k) && k <= |s.podGroups|
    ensures Grounded(s, n, r, k)
  {
    var i :| 0 <= i < |FinalStates(r.input)| && FinalStates(r.input)[i] == r.state;
    FailedIsBlocked(r.input, i);
    var node := SortByName(r.input.nodes)[i];
    StatesOfAt(r.input, SortByName(r.input.nodes), i);
    SortedMember(r.input.nodes, node);
    SatisfiedIsLongestPrefix(r.input, node, k);
  }
}
