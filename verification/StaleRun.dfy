/** In either mode, a run that binds a steered pod against the most recent sync: the node in the cache is an earlier
    version that already carries the label or taint the sync wants, so what was stored since stays. */
module StaleRun {
  import opened Options
  import opened Decimal
  import opened Kube
  import opened Sequence
  import opened NodePlanSpec
  import opened PlanMeaning
  import opened PodEdits
  import opened Steering
  import opened NodeRun

  // ---- the sequence, the node and the pods ----

  function Group(name: string): PodGroup
  {
    PodGroup([name], NoSelector, Wait(0), DefaultPolicy)
  }

  function TwoGroups(mode: Method): PodSequence
  {
    PodSequence("default", "startup", seq(64, _ => '0'), [Group("agent"), Group("app")], NodeScope, "", "", NoSelector, mode, None)
  }

  function OwnKey(mode: Method): string
  {
    KeyOf(TwoGroups(mode))
  }

  function Fresh(): Node
  {
    Node("n", map[], [], false)
  }

  /** The node as a sync that computed that count leaves it. */
  function Shown(mode: Method, count: nat): Node
  {
    if mode != TaintMethod then Fresh().(labels := map[OwnKey(mode) := Itoa(count)])
    else if count < 2 then Fresh().(taints := [Taint(OwnKey(mode), Itoa(count), NoSchedule)])
    else Fresh()
  }

  /** An agent pod on the node that is not ready. */
  function Agent(uid: string): Pod
  {
    Pod("default", "agent", uid, 0, map[], map[], [], false, 0, PodSpec("n", [], map[], None, [], false), Running, [])
  }

  /** A gated pod of the second group, free to go anywhere. */
  function App(): Pod
  {
    Pod("default", "app", "app-1", 0, map[], map[], [], false, 0, PodSpec("", [DEFAULT_GATE], map[], None, [], false),
        Pending, [])
  }

  function Release(mode: Method): PodAction
  {
    if mode == TaintMethod then PodAction(App(), 1, ReasonUnpinned, None, EligibilityTolerations(OwnKey(mode), 1, 2))
    else PodAction(App(), 1, ReasonUnpinned, Some(EligibilityRequirement(OwnKey(mode), 1)), [])
  }

  function Snapshot(mode: Method, node: Node, pods: seq<Pod>): PlanInput
  {
    PlanInput(TwoGroups(mode), [node], pods, [], 0)
  }

  lemma {:induction false} Groups(mode: Method, uid: string)
    ensures GroupIndexForPod(TwoGroups(mode), Agent(uid)) == 0 && GroupIndexForPod(TwoGroups(mode), App()) == 1
  {
    var gs := TwoGroups(mode).podGroups;
    assert gs[0].pods == ["agent"] && gs[1].pods == ["app"];
    assert "agent" in gs[0].pods && "app" !in gs[0].pods && "app" in gs[1].pods;
    assert FirstGroup(gs, App(), 0) == FirstGroup(gs, App(), 1);
  }

  // ---- its plans ----

  lemma {:induction false} OneNode(input: PlanInput, node: Node)
    requires input.nodes == [node]
    ensures |FinalStates(input)| == 1
    ensures var st := FinalStates(input)[0];
            st.name == node.name && st.participating == Participating(input, node) && st.satisfied == BaseState(input, node).satisfied
  {
    assert SortByName(input.nodes) == [node];
    StatesOfAt(input, [node], 0);
    FailedIsBlocked(input, 0);
  }

  /** The plan of the snapshot has the one node participating with that count. */
  predicate Finds(input: PlanInput, count: nat)
  {
    var states := FinalStates(input);
    |states| == 1 && states[0].name == "n" && states[0].participating && states[0].satisfied == count
  }

  /** An agent that is not ready blocks the node at its first group. */
  lemma {:induction false} AgentBlocks(mode: Method, node: Node, pods: seq<Pod>, uid: string)
    requires node.name == "n" && !node.deleting && Agent(uid) in pods
    ensures Finds(Snapshot(mode, node, pods), 0)
  {
    var input := Snapshot(mode, node, pods);
    OneNode(input, node);
    Groups(mode, uid);
    assert ActiveOn(input, Agent(uid), "n", 0) && !ReadyFor(Agent(uid), 0, 0);
    assert !GroupHolds(input, node, 0);
    SatisfiedIsLongestPrefix(input, node, 1);
  }

  /** With no pod on the node both groups are skipped there. */
  lemma {:induction false} NothingBlocks(mode: Method, node: Node)
    requires node.name == "n" && !node.deleting
    ensures Finds(Snapshot(mode, node, [App()]), 2)
  {
    OneNode(Snapshot(mode, node, [App()]), node);
    BothSkipped(mode, node);
  }

  lemma {:induction false} BothSkipped(mode: Method, node: Node)
    requires !node.deleting
    ensures Participating(Snapshot(mode, node, [App()]), node) && BaseState(Snapshot(mode, node, [App()]), node).satisfied == 2
  {
    GroupIsSkipped(mode, node, 0);
    GroupIsSkipped(mode, node, 1);
    SatisfiedIsLongestPrefix(Snapshot(mode, node, [App()]), node, 2);
  }

  lemma {:induction false} GroupIsSkipped(mode: Method, node: Node, j: nat)
    requires j < 2
    ensures GroupHolds(Snapshot(mode, node, [App()]), node, j)
  {
    var input := Snapshot(mode, node, [App()]);
    assert TargetNode(App().spec) == "";
    assert forall p :: p in input.pods ==> p == App() && !ActiveOn(input, p, node.name, j);
    assert input.sequence.podGroups[j].policy == DefaultPolicy;
  }

  lemma {:induction false} AppIsMember(mode: Method, node: Node)
    ensures Member(App(), 1, "") in Members(Snapshot(mode, node, [App()]))
  {
    Groups(mode, "");
    MembersMeaning(Snapshot(mode, node, [App()]), Member(App(), 1, ""));
  }

  lemma {:induction false} AppIsReleased(mode: Method, node: Node)
    ensures Release(mode) in Ungate(Snapshot(mode, node, [App()]))
  {
    var input, m := Snapshot(mode, node, [App()]), Member(App(), 1, "");
    AppIsMember(mode, node);
    UngateMember(input, Release(mode));
    assert MemberAction(input, BaseStates(input))(m) == Some(Release(mode));
  }

  // ---- what its syncs leave ----

  lemma {:induction false} ItoaDiffer()
    ensures Itoa(0) != Itoa(2)
  {
    ParseIntItoa(0);
    ParseIntItoa(2);
  }

  /** A sync from a current copy leaves the node as computed. */
  lemma {:induction false} SyncShows(mode: Method, input: PlanInput, node: Node, state: NodeState)
    requires state.participating
    requires (node == Fresh() && state.satisfied == 0) || (node == Shown(mode, 0) && state.satisfied == 2)
    ensures Retainted(TwoGroups(mode), input, node, node, state, true, true) == Shown(mode, state.satisfied)
  {
    ItoaDiffer();
    ParseIntItoa(state.satisfied);
    var s, after := TwoGroups(mode), Retainted(TwoGroups(mode), input, node, node, state, true, true);
    assert WithTaint([], OwnKey(mode), None) == [];
    if mode == TaintMethod {
      assert after.labels == map[];
      assert after.taints == WithTaint(node.taints, OwnKey(mode), WantedTaint(s, state));
      if state.satisfied == 2 {
        assert node.taints[..0] == [];
      }
    } else {
      assert LabelWritten(s, input, node, state, true);
      assert after.labels == map[OwnKey(mode) := Itoa(state.satisfied)];
    }
  }

  /** A sync that finds its count on the cached node writes nothing, although another one is stored. */
  lemma {:induction false} SyncIsIdle(mode: Method, input: PlanInput, state: NodeState)
    requires state.participating && state.satisfied == 0
    ensures Retainted(TwoGroups(mode), input, Shown(mode, 2), Shown(mode, 0), state, true, true) == Shown(mode, 2)
  {
    ItoaDiffer();
    ParseIntItoa(0);
    assert !LabelWritten(TwoGroups(mode), input, Shown(mode, 0), state, true);
    if mode == TaintMethod {
      assert |Shown(mode, 0).taints| == 1;
    } else {
      assert Shown(mode, 0).labels[OwnKey(mode)] != Shown(mode, 2).labels[OwnKey(mode)];
    }
  }

  // ---- the released pod ----

  /** What is left of a pod once its two patches have landed. */
  function Let(s: PodSequence, a: PodAction): Pod
  {
    var q := Next(a.pod, Constrained(a.pod.spec, a));
    Next(q, Ungated(q.spec, GateName(s)))
  }

  function Freed(mode: Method): Pod
  {
    Let(TwoGroups(mode), Release(mode))
  }

  lemma {:induction false} ReleaseConstrains(mode: Method)
    ensures Constrained(App().spec, Release(mode)) != App().spec
  {
    if mode == TaintMethod {
      var tols := EligibilityTolerations(OwnKey(mode), 1, 2);
      assert tols[0] in tols;
      WithTolerationsContains([], tols, tols[0]);
    }
  }

  lemma {:induction false} FreedShape(mode: Method)
    ensures Freed(mode).spec.gates == [] && Freed(mode).spec.nodeName == "" && Freed(mode).spec.nodeSelector == map[]
    ensures Freed(mode).spec.required
         == if mode == TaintMethod then None else Some([NodeSelectorTerm([EligibilityRequirement(OwnKey(mode), 1)], [])])
    ensures GroupIndexForPod(TwoGroups(mode), Freed(mode)) == 1 && GateName(TwoGroups(mode)) == DEFAULT_GATE
  {
    Groups(mode, "");
    SameGroup(TwoGroups(mode), App(), Freed(mode));
    assert WithoutGate([DEFAULT_GATE], DEFAULT_GATE) == [];
  }

  lemma {:induction false} FreedMatches(mode: Method)
    ensures AffinityMatches(Freed(mode).spec, Shown(mode, 2)) && Shown(mode, 2).taints == []
  {
    FreedShape(mode);
    var node := Shown(mode, 2);
    if mode != TaintMethod {
      GtOnLabel(node.labels, OwnKey(mode), 1, 2);
      var t := NodeSelectorTerm([EligibilityRequirement(OwnKey(mode), 1)], []);
      assert TermMatches(t, node);
      assert t in Freed(mode).spec.required.value;
    }
  }

  // ---- all of it together ----

  function View(s: PodSequence, node: Node, pods: seq<Pod>): PlanInput
  {
    PlanInput(s, [node], pods, [], 0)
  }

  /** A plan of that view has the state, and syncing it turns the stored node into the one given. */
  ghost predicate Syncs(s: PodSequence, node: Node, pods: seq<Pod>, state: NodeState, stored: Node, after: Node)
  {
    && state in FinalStates(View(s, node, pods)) && state.name == "n" == node.name
    && Retainted(s, View(s, node, pods), stored, node, state, true, true) == after
  }

  /** What the run is made of: the sequence, the versions of the node, the states synced, and the pods. */
  datatype Scene = Scene(s: PodSequence, bare: Node, zero: Node, two: Node, first: NodeState, second: NodeState, third: NodeState,
                         before: Pod, again: Pod, app: Pod, release: PodAction, freed: Pod)

  ghost predicate NodesFit(c: Scene)
  {
    && LabelOf(c.s, c.bare) == None && OwnTaints(c.s, c.bare) == [] && c.two.name == "n"
    && Syncs(c.s, c.bare, [c.before], c.first, c.bare, c.zero)
    && Syncs(c.s, c.zero, [c.app], c.second, c.zero, c.two)
    && Syncs(c.s, c.zero, [c.again, c.freed], c.third, c.two, c.two)
    && c.third.participating && c.third.satisfied == 0
  }

  ghost predicate PodsFit(c: Scene)
  {
    && c.before.uid == "agent-1" && c.again.uid == "agent-2" && c.app.uid == "app-1"
    && LaterGroupPod(c.s, c.app) && !LaterGroupPod(c.s, c.before) && !LaterGroupPod(c.s, c.again)
  }

  ghost predicate ReleaseFits(c: Scene)
  {
    && c.release in Ungate(View(c.s, c.zero, [c.app])) && c.release.pod == c.app
    && Constrained(c.app.spec, c.release) != c.app.spec && c.freed == Let(c.s, c.release)
  }

  ghost predicate BindFits(c: Scene)
  {
    && c.freed.spec.gates == [] && c.freed.spec.nodeName == "" && GroupIndexForPod(c.s, c.freed) == 1
    && AffinityMatches(c.freed.spec, c.two) && TaintsTolerated(c.two.taints, c.freed.spec.tolerations)
  }

  ghost predicate Fits(c: Scene)
  {
    NodesFit(c) && PodsFit(c) && ReleaseFits(c) && BindFits(c)
  }

  lemma {:induction false} FirstSyncs(mode: Method) returns (state: NodeState)
    ensures Syncs(TwoGroups(mode), Fresh(), [Agent("agent-1")], state, Fresh(), Shown(mode, 0))
  {
    AgentBlocks(mode, Fresh(), [Agent("agent-1")], "agent-1");
    state := FinalStates(Snapshot(mode, Fresh(), [Agent("agent-1")]))[0];
    SyncShows(mode, Snapshot(mode, Fresh(), [Agent("agent-1")]), Fresh(), state);
  }

  lemma {:induction false} SecondSyncs(mode: Method) returns (state: NodeState)
    ensures Syncs(TwoGroups(mode), Shown(mode, 0), [App()], state, Shown(mode, 0), Shown(mode, 2))
  {
    NothingBlocks(mode, Shown(mode, 0));
    state := FinalStates(Snapshot(mode, Shown(mode, 0), [App()]))[0];
    SyncShows(mode, Snapshot(mode, Shown(mode, 0), [App()]), Shown(mode, 0), state);
  }

  lemma {:induction false} ThirdSyncs(mode: Method) returns (state: NodeState)
    ensures Syncs(TwoGroups(mode), Shown(mode, 0), [Agent("agent-2"), Freed(mode)], state, Shown(mode, 2), Shown(mode, 2))
    ensures state.participating && state.satisfied == 0
  {
    var pods := [Agent("agent-2"), Freed(mode)];
    AgentBlocks(mode, Shown(mode, 0), pods, "agent-2");
    state := FinalStates(Snapshot(mode, Shown(mode, 0), pods))[0];
    SyncIsIdle(mode, Snapshot(mode, Shown(mode, 0), pods), state);
  }

  lemma {:induction false} LaterPods(mode: Method, uid: string)
    ensures LaterGroupPod(TwoGroups(mode), App()) && !LaterGroupPod(TwoGroups(mode), Agent(uid))
  {
    Groups(mode, uid);
  }

  lemma {:induction false} SceneFor(mode: Method) returns (c: Scene)
    ensures c.s == TwoGroups(mode) && Fits(c)
  {
    var first := FirstSyncs(mode);
    var second := SecondSyncs(mode);
    var third := ThirdSyncs(mode);
    c := Scene(TwoGroups(mode), Fresh(), Shown(mode, 0), Shown(mode, 2), first, second, third,
               Agent("agent-1"), Agent("agent-2"), App(), Release(mode), Freed(mode));
    SceneNodesFit(mode, first, second, third, c);
    ScenePodsFit(mode, c);
    FreedShape(mode);
    FreedMatches(mode);
  }

  lemma {:induction false} SceneNodesFit(mode: Method, first: NodeState, second: NodeState, third: NodeState, c: Scene)
    requires Syncs(TwoGroups(mode), Fresh(), [Agent("agent-1")], first, Fresh(), Shown(mode, 0))
    requires Syncs(TwoGroups(mode), Shown(mode, 0), [App()], second, Shown(mode, 0), Shown(mode, 2))
    requires Syncs(TwoGroups(mode), Shown(mode, 0), [Agent("agent-2"), Freed(mode)], third, Shown(mode, 2), Shown(mode, 2))
    requires third.participating && third.satisfied == 0
    requires c == Scene(TwoGroups(mode), Fresh(), Shown(mode, 0), Shown(mode, 2), first, second, third,
                        Agent("agent-1"), Agent("agent-2"), App(), Release(mode), Freed(mode))
    ensures NodesFit(c)
  {
  }

  lemma {:induction false} ScenePodsFit(mode: Method, c: Scene)
    requires c.s == TwoGroups(mode) && c.zero == Shown(mode, 0) && c.before == Agent("agent-1") && c.again == Agent("agent-2")
    requires c.app == App() && c.release == Release(mode) && c.freed == Freed(mode)
    ensures PodsFit(c) && ReleaseFits(c)
  {
    LaterPods(mode, "agent-1");
    LaterPods(mode, "agent-2");
    AppIsReleased(mode, Shown(mode, 0));
    ReleaseConstrains(mode);
  }

  // ---- building the run ----

  /** The node is a version stored no later than state i. */
  ghost predicate WasStored(states: seq<State>, i: nat, node: Node)
  {
    exists j :: 0 <= j <= i && j < |states| && node.name in states[j].nodes && states[j].nodes[node.name] == node
  }

  /** A run whose reads return nodes as they once were stored. */
  ghost predicate RealRun(s: PodSequence, states: seq<State>, steps: seq<Step>)
  {
    Run(s, states, steps) && ReadsStored(states, steps)
  }

  function Last(states: seq<State>): State
    requires states != []
  {
    states[|states| - 1]
  }

  lemma {:induction false} RunExtends(s: PodSequence, states: seq<State>, steps: seq<Step>, step: Step, next: State)
    requires Run(s, states, steps) && Enabled(s, Last(states), step) && next == Apply(s, Last(states), step)
    ensures Run(s, states + [next], steps + [step])
  {
    var all, more := states + [next], steps + [step];
    assert all[0] == states[0];
    forall i: nat | i < |more|
      ensures Taken(s, all, more, i)
    {
      if i < |steps| {
        assert Taken(s, states, steps, i);
        assert all[i] == states[i] && all[i + 1] == states[i + 1] && more[i] == steps[i];
      } else {
        assert all[i] == Last(states) && all[i + 1] == next && more[i] == step;
      }
    }
  }

  lemma {:induction false} StillWasStored(states: seq<State>, next: State, i: nat, node: Node)
    requires WasStored(states, i, node)
    ensures WasStored(states + [next], i, node)
  {
    var j :| 0 <= j <= i && j < |states| && node.name in states[j].nodes && states[j].nodes[node.name] == node;
    assert (states + [next])[j] == states[j];
  }

  /** Every read of the run returns nodes stored by then. */
  ghost predicate ReadsStored(states: seq<State>, steps: seq<Step>)
  {
    forall i, node :: 0 <= i < |steps| && steps[i].Read? && node in steps[i].input.nodes ==> WasStored(states, i, node)
  }

  lemma {:induction false} ReadsExtend(states: seq<State>, steps: seq<Step>, step: Step, next: State)
    requires ReadsStored(states, steps)
    requires step.Read? ==> forall node :: node in step.input.nodes ==> WasStored(states, |steps|, node)
    ensures ReadsStored(states + [next], steps + [step])
  {
    var more := steps + [step];
    forall i, node | 0 <= i < |more| && more[i].Read? && node in more[i].input.nodes
      ensures WasStored(states + [next], i, node)
    {
      if i < |steps| {
        assert more[i] == steps[i];
      }
      StillWasStored(states, next, i, node);
    }
  }

  lemma {:induction false} Extend(s: PodSequence, states: seq<State>, steps: seq<Step>, step: Step, next: State)
    requires RealRun(s, states, steps) && Enabled(s, Last(states), step) && next == Apply(s, Last(states), step)
    requires step.Read? ==> forall node :: node in step.input.nodes ==> WasStored(states, |steps|, node)
    ensures RealRun(s, states + [next], steps + [step])
  {
    RunExtends(s, states, steps, step, next);
    ReadsExtend(states, steps, step, next);
  }

  /** A state some real run ends in, and nodes stored on the way. */
  ghost predicate Reached(s: PodSequence, st: State, stored: set<Node>)
  {
    exists states: seq<State>, steps: seq<Step> :: RealRun(s, states, steps) && Last(states) == st && AllStored(states, |steps|, stored)
  }

  ghost predicate AllStored(states: seq<State>, i: nat, stored: set<Node>)
  {
    forall node :: node in stored ==> WasStored(states, i, node)
  }

  lemma {:induction false} StillStored(states: seq<State>, next: State, i: nat, stored: set<Node>)
    requires AllStored(states, i, stored)
    ensures AllStored(states + [next], i + 1, stored)
  {
    forall node | node in stored
      ensures WasStored(states + [next], i + 1, node)
    {
      var j :| 0 <= j <= i && j < |states| && node.name in states[j].nodes && states[j].nodes[node.name] == node;
      assert (states + [next])[j] == states[j];
    }
  }

  /** Any enabled step leads on; a read takes nodes stored before. */
  lemma {:induction false} Onward(s: PodSequence, st: State, stored: set<Node>, step: Step, next: State)
    requires Reached(s, st, stored) && Enabled(s, st, step) && next == Apply(s, st, step)
    requires step.Read? ==> forall node :: node in step.input.nodes ==> node in stored
    ensures Reached(s, next, stored)
  {
    var states: seq<State>, steps: seq<Step> :| RealRun(s, states, steps) && Last(states) == st && AllStored(states, |steps|, stored);
    Extend(s, states, steps, step, next);
    StillStored(states, next, |steps|, stored);
    var all, more := states + [next], steps + [step];
    assert Last(all) == next && |more| == |steps| + 1;
  }

  /** The node a state stores is one of the stored nodes. */
  lemma {:induction false} StoredNow(s: PodSequence, st: State, stored: set<Node>, node: Node)
    requires Reached(s, st, stored) && node.name in st.nodes && st.nodes[node.name] == node
    ensures Reached(s, st, stored + {node})
  {
    var states: seq<State>, steps: seq<Step> :| RealRun(s, states, steps) && Last(states) == st && AllStored(states, |steps|, stored);
    assert states[|steps|].nodes[node.name] == node;
    forall other | other in stored + {node}
      ensures WasStored(states, |steps|, other)
    {
    }
    assert AllStored(states, |steps|, stored + {node});
  }

  function Start(): State
  {
    State(map[], {}, map[], map[], map[], map[], {}, None, {}, {}, {})
  }

  lemma {:induction false} StartIsReached(s: PodSequence)
    ensures Reached(s, Start(), {})
  {
    var states, steps: seq<Step> := [Start()], [];
    assert RealRun(s, states, steps) && AllStored(states, 0, {}) && Last(states) == Start();
  }

  // ---- its steps ----

  /** The node joins. */
  lemma {:induction false} Joined(s: PodSequence, node: Node) returns (st: State)
    requires node.name == "n" && LabelOf(s, node) == None && OwnTaints(s, node) == []
    ensures st == Start().(nodes := map["n" := node]) && Reached(s, st, {node})
  {
    StartIsReached(s);
    st := Start().(nodes := map["n" := node]);
    Onward(s, Start(), {}, SetNode(node), st);
    StoredNow(s, st, {}, node);
    assert {} + {node} == {node};
  }

  /** A pod is created. */
  lemma {:induction false} Created(s: PodSequence, st: State, stored: set<Node>, p: Pod) returns (next: State)
    requires Reached(s, st, stored) && p.uid !in st.known
    ensures Reached(s, next, stored)
    ensures next == Store(st, p).(known := st.known + {p.uid}, steered := if LaterGroupPod(s, p) then st.steered + {p.uid} else st.steered)
  {
    next := ApplyOnPods(s, st, CreatePod(p));
    Onward(s, st, stored, CreatePod(p), next);
  }

  /** A pod goes. */
  lemma {:induction false} Deleted(s: PodSequence, st: State, stored: set<Node>, uid: string) returns (next: State)
    requires Reached(s, st, stored) && uid in st.pods
    ensures Reached(s, next, stored) && next == st.(pods := st.pods - {uid})
  {
    next := st.(pods := st.pods - {uid});
    Onward(s, st, stored, DeletePod(uid), next);
  }

  /** The node and some pods are read, and the node is synced. */
  lemma {:induction false} ReadAndSync(s: PodSequence, st: State, stored: set<Node>, node: Node, pods: seq<Pod>, state: NodeState, after: Node)
    returns (next: State)
    requires Reached(s, st, stored) && node in stored && (forall p :: p in pods ==> p in st.versions)
    requires "n" in st.nodes && Syncs(s, node, pods, state, st.nodes["n"], after) && after.name == "n"
    ensures Reached(s, next, stored + {after}) && next.nodes == st.nodes["n" := after]
    ensures "n" in next.computed && next.computed["n"].state == state && next.snapshot == Some(View(s, node, pods))
    ensures next.pods == st.pods && next.versions == st.versions && next.known == st.known && next.steered == st.steered
  {
    var read := st.(snapshot := Some(View(s, node, pods)), constrained := {});
    Onward(s, st, stored, Read(View(s, node, pods)), read);
    next := Sync(s, read, node, state, true, true);
    Onward(s, read, stored, SyncNode(node, state, true, true), next);
    StoredNow(s, next, stored, after);
  }

  /** A pod is constrained. */
  lemma {:induction false} ConstrainStep(s: PodSequence, st: State, stored: set<Node>, a: PodAction, q: Pod) returns (next: State)
    requires Reached(s, st, stored) && st.snapshot.Some? && a in Ungate(st.snapshot.value)
    requires Constrained(a.pod.spec, a) != a.pod.spec && a.pod.uid in st.pods && st.pods[a.pod.uid] == a.pod
    requires q == Next(a.pod, Constrained(a.pod.spec, a))
    ensures Reached(s, next, stored) && next == Store(st, q).(constrained := st.constrained + {q})
  {
    next := ApplyOnPods(s, st, Constrain(a));
    Onward(s, st, stored, Constrain(a), next);
  }

  /** Its gate is removed. */
  lemma {:induction false} GateStep(s: PodSequence, st: State, stored: set<Node>, q: Pod) returns (next: State)
    requires Reached(s, st, stored) && q in st.constrained && q.uid in st.pods && st.pods[q.uid] == q
    ensures Reached(s, next, stored) && next == Store(st, Next(q, Ungated(q.spec, GateName(s))))
  {
    next := ApplyOnPods(s, st, RemoveGate(q));
    Onward(s, st, stored, RemoveGate(q), next);
  }

  // ---- the run ----

  /** The node joins, and an agent that is not ready is bound to it. */
  lemma {:induction false} Opening(s: PodSequence, bare: Node, p: Pod) returns (st: State)
    requires LabelOf(s, bare) == None && OwnTaints(s, bare) == [] && bare.name == "n" && !LaterGroupPod(s, p)
    ensures Reached(s, st, {bare}) && st.nodes == map["n" := bare]
    ensures st.pods == map[p.uid := p] && st.known == {p.uid} && st.steered == {} && p in st.versions
  {
    var joined := Joined(s, bare);
    st := Created(s, joined, {bare}, p);
  }

  /** A first sync computes 0. */
  lemma {:induction false} FirstSync(s: PodSequence, bare: Node, zero: Node, p: Pod, state: NodeState) returns (st: State, stored: set<Node>)
    requires LabelOf(s, bare) == None && OwnTaints(s, bare) == [] && bare.name == "n" == zero.name
    requires !LaterGroupPod(s, p) && Syncs(s, bare, [p], state, bare, zero)
    ensures Reached(s, st, stored) && st.nodes == map["n" := zero] && zero in stored
    ensures st.pods == map[p.uid := p] && st.known == {p.uid} && st.steered == {}
  {
    var start := Opening(s, bare, p);
    st := ReadAndSync(s, start, {bare}, bare, [p], state, zero);
    stored := {bare} + {zero};
  }

  /** The app pod comes and the agent goes. */
  lemma {:induction false} Exchange(s: PodSequence, start: State, stored: set<Node>, gone: Pod, p: Pod) returns (st: State)
    requires Reached(s, start, stored) && start.pods == map[gone.uid := gone] && start.known == {gone.uid} && start.steered == {}
    requires p.uid != gone.uid && LaterGroupPod(s, p)
    ensures Reached(s, st, stored) && st.nodes == start.nodes && p in st.versions
    ensures st.pods == map[p.uid := p] && st.known == {gone.uid, p.uid} && st.steered == {p.uid}
  {
    var created := Created(s, start, stored, p);
    st := Deleted(s, created, stored, gone.uid);
  }

  /** A second sync computes 2. */
  lemma {:induction false} SecondSync(s: PodSequence, start: State, before: set<Node>, zero: Node, two: Node, p: Pod, state: NodeState)
    returns (st: State, stored: set<Node>)
    requires Reached(s, start, before) && start.nodes == map["n" := zero] && zero in before && two.name == "n"
    requires p in start.versions && Syncs(s, zero, [p], state, zero, two)
    ensures Reached(s, st, stored) && st.nodes == map["n" := two] && zero in stored && st.snapshot == Some(View(s, zero, [p]))
    ensures st.pods == start.pods && st.known == start.known && st.steered == start.steered
  {
    st := ReadAndSync(s, start, before, zero, [p], state, two);
    stored := before + {two};
  }

  /** The app pod is released. */
  lemma {:induction false} LetGo(s: PodSequence, start: State, stored: set<Node>, a: PodAction) returns (st: State)
    requires Reached(s, start, stored) && start.snapshot.Some? && a in Ungate(start.snapshot.value)
    requires Constrained(a.pod.spec, a) != a.pod.spec && start.pods == map[a.pod.uid := a.pod]
    ensures Reached(s, st, stored) && st.nodes == start.nodes && st.known == start.known && st.steered == start.steered
    ensures st.pods == map[a.pod.uid := Let(s, a)] && Let(s, a) in st.versions
  {
    var q := Next(a.pod, Constrained(a.pod.spec, a));
    var steered := ConstrainStep(s, start, stored, a, q);
    st := GateStep(s, steered, stored, q);
  }

  /** Another agent comes. */
  lemma {:induction false} AgentComes(s: PodSequence, start: State, stored: set<Node>, p: Pod) returns (st: State)
    requires Reached(s, start, stored) && p.uid !in start.known && p.uid !in start.pods
    ensures Reached(s, st, stored) && st.nodes == start.nodes && start.steered <= st.steered
    ensures st.versions == start.versions + {p} && st.pods == start.pods[p.uid := p]
  {
    st := Created(s, start, stored, p);
  }

  /** Another agent that is not ready is bound to the node, and a sync from the older version has nothing to patch. */
  lemma {:induction false} ThirdSync(s: PodSequence, start: State, before: set<Node>, zero: Node, two: Node, app: Pod, p: Pod, state: NodeState)
    returns (st: State, stored: set<Node>)
    requires Reached(s, start, before) && start.nodes == map["n" := two] && zero in before && two.name == "n"
    requires p.uid !in start.known && p.uid !in start.pods && app in start.versions && Syncs(s, zero, [p, app], state, two, two)
    ensures Reached(s, st, stored) && st.nodes == start.nodes && "n" in st.computed && st.computed["n"].state == state
    ensures st.pods == start.pods[p.uid := p] && start.steered <= st.steered
  {
    var come := AgentComes(s, start, before, p);
    st := ReadAndSync(s, come, before, zero, [p, app], state, two);
    stored := before + {two};
  }

  /** The state binds a steered pod of group 1 to a node whose most recent sync does not support that. */
  ghost predicate Overtaken(s: PodSequence, st: State, bind: Step)
  {
    && bind.Bind? && bind.uid in st.pods && bind.uid in st.steered && GroupIndexForPod(s, st.pods[bind.uid]) == 1
    && bind.node in st.computed && st.computed[bind.node].state.participating && !Supports(st.computed[bind.node].state, 1)
  }

  lemma {:induction false} BindExtends(s: PodSequence, st: State, stored: set<Node>, step: Step) returns (states: seq<State>, steps: seq<Step>)
    requires Reached(s, st, stored) && step.Bind? && EnabledOnPods(s, st, step)
    ensures RealRun(s, states, steps) && |steps| > 0 && states[|steps| - 1] == st && steps[|steps| - 1] == step
  {
    var before: seq<State>, path: seq<Step> :| RealRun(s, before, path) && Last(before) == st && AllStored(before, |path|, stored);
    var next := ApplyOnPods(s, st, step);
    Extend(s, before, path, step, next);
    states, steps := before + [next], path + [step];
  }

  /** After the first sync the app pod comes and the agent goes. */
  lemma {:induction false} SceneExchanged(c: Scene) returns (st: State, stored: set<Node>)
    requires NodesFit(c) && PodsFit(c)
    ensures Reached(c.s, st, stored) && st.nodes == map["n" := c.zero] && c.zero in stored && c.app in st.versions
    ensures st.pods == map["app-1" := c.app] && st.known == {"agent-1", "app-1"} && st.steered == {"app-1"}
  {
    var zero;
    zero, stored := FirstSync(c.s, c.bare, c.zero, c.before, c.first);
    st := Exchange(c.s, zero, stored, c.before, c.app);
  }

  /** A second sync computes 2. */
  lemma {:induction false} SceneTwo(c: Scene) returns (st: State, stored: set<Node>)
    requires NodesFit(c) && PodsFit(c)
    ensures Reached(c.s, st, stored) && st.nodes == map["n" := c.two] && c.zero in stored
    ensures st.pods == map["app-1" := c.app] && st.known == {"agent-1", "app-1"} && st.steered == {"app-1"}
    ensures st.snapshot == Some(View(c.s, c.zero, [c.app]))
  {
    var start, seen := SceneExchanged(c);
    st, stored := SecondSync(c.s, start, seen, c.zero, c.two, c.app, c.second);
  }

  /** The app pod is released. */
  lemma {:induction false} SceneReleased(c: Scene) returns (st: State, stored: set<Node>)
    requires NodesFit(c) && PodsFit(c) && ReleaseFits(c)
    ensures Reached(c.s, st, stored) && st.nodes == map["n" := c.two] && c.zero in stored && c.freed in st.versions
    ensures st.pods == map["app-1" := c.freed] && st.known == {"agent-1", "app-1"} && st.steered == {"app-1"}
  {
    var two;
    two, stored := SceneTwo(c);
    st := LetGo(c.s, two, stored, c.release);
  }

  /** A third sync computes 0 from the older version of the node. */
  lemma {:induction false} SceneLags(c: Scene, start: State, seen: set<Node>) returns (st: State, stored: set<Node>)
    requires NodesFit(c) && c.again.uid == "agent-2"
    requires Reached(c.s, start, seen) && start.nodes == map["n" := c.two] && c.zero in seen && c.freed in start.versions
    requires start.pods == map["app-1" := c.freed] && start.known == {"agent-1", "app-1"} && start.steered == {"app-1"}
    ensures Reached(c.s, st, stored) && st.nodes == map["n" := c.two]
    ensures "n" in st.computed && st.computed["n"].state == c.third
    ensures "app-1" in st.pods && st.pods["app-1"] == c.freed && "app-1" in st.steered
  {
    st, stored := ThirdSync(c.s, start, seen, c.zero, c.two, c.freed, c.again, c.third);
  }

  lemma {:induction false} SceneEnds(c: Scene) returns (st: State, stored: set<Node>)
    requires NodesFit(c) && PodsFit(c) && ReleaseFits(c)
    ensures Reached(c.s, st, stored) && st.nodes == map["n" := c.two]
    ensures "n" in st.computed && st.computed["n"].state == c.third
    ensures "app-1" in st.pods && st.pods["app-1"] == c.freed && "app-1" in st.steered
  {
    var start, seen := SceneReleased(c);
    st, stored := SceneLags(c, start, seen);
  }

  lemma {:induction false} SceneIsOvertaken(c: Scene) returns (states: seq<State>, steps: seq<Step>)
    requires Fits(c)
    ensures RealRun(c.s, states, steps) && |steps| > 0 && Overtaken(c.s, states[|steps| - 1], steps[|steps| - 1])
  {
    var st, stored := SceneEnds(c);
    states, steps := BindExtends(c.s, st, stored, Bind("app-1", "n"));
  }

  /** In either mode the most recent sync can be overtaken: a run, reading only nodes and pods that were stored
      before, ends with a steered pod of group 1 bound to a node whose most recent sync computed no satisfied
      group. */
  lemma {:induction false} LatestSyncIsOvertaken(mode: Method) returns (states: seq<State>, steps: seq<Step>)
    ensures RealRun(TwoGroups(mode), states, steps) && |steps| > 0
    ensures Overtaken(TwoGroups(mode), states[|steps| - 1], steps[|steps| - 1])
  {
    var c := SceneFor(mode);
    states, steps := SceneIsOvertaken(c);
  }
}
