/** The status of a sequence, and how a node plan is summarised in it: setNodeScopedStatus of
    internal/controller/podsequence_controller.go. */
module Status {
  import opened Options
  import opened Collections
  import opened Sequence
  import opened NodePlanSpec
  import opened NodePlans
  import opened PlanMeaning

  datatype Phase = NoPhase | PhasePending | PhaseInProgress | PhaseActive | PhaseCompleted | PhaseFailed

  datatype NodeEntry = NodeEntry(name: string, currentIndex: nat, failed: bool, message: Block)

  datatype Summary = Summary(total: nat, satisfied: nat, failed: nat, gated: nat)

  datatype Degradation = AsExpected | GateTimeoutExceeded | TolerationMissing

  /** conditions are None until first set. */
  datatype SequenceStatus = SequenceStatus(currentIndex: nat, phase: Phase, processedPods: seq<string>,
                                           currentGroupPods: seq<string>, readyPods: nat, nodeStatus: seq<NodeEntry>,
                                           summary: Option<Summary>, key: string, ready: Option<bool>,
                                           degraded: Option<Degradation>)

  // ---- the summary of a plan ----

  function TakesPart(): NodeState -> Option<NodeState>
  {
    (st: NodeState) => if st.participating then Some(st) else None
  }

  function IsDone(numGroups: nat): NodeState -> Option<NodeState>
  {
    (st: NodeState) => if st.participating && st.satisfied >= numGroups then Some(st) else None
  }

  function OpenEntry(numGroups: nat, failed: bool): NodeState -> Option<NodeEntry>
  {
    (st: NodeState) =>
      if st.participating && st.satisfied < numGroups && st.failed == failed
      then Some(NodeEntry(st.name, st.satisfied, failed, st.message)) else None
  }

  function MinSatisfied(nodes: seq<NodeState>, numGroups: nat): nat
  {
    if nodes == [] then numGroups
    else
      var rest, last := MinSatisfied(nodes[..|nodes| - 1], numGroups), nodes[|nodes| - 1];
      if last.participating && last.satisfied < rest then last.satisfied else rest
  }

  function Entries(nodes: seq<NodeState>, numGroups: nat): seq<NodeEntry>
  {
    Collect(OpenEntry(numGroups, true), nodes) + Collect(OpenEntry(numGroups, false), nodes)
  }

  function Capped(entries: seq<NodeEntry>): seq<NodeEntry>
  {
    if |entries| > MAX_NODE_STATUS then entries[..MAX_NODE_STATUS] else entries
  }

  function NodeSummary(nodes: seq<NodeState>, numGroups: nat, gated: nat): Summary
  {
    Summary(|Collect(TakesPart(), nodes)|, |Collect(IsDone(numGroups), nodes)|, |Collect(OpenEntry(numGroups, true), nodes)|, gated)
  }

  function DegradedBy(failed: nat, missing: seq<string>): Degradation
  {
    if failed > 0 then GateTimeoutExceeded else if missing != [] then TolerationMissing else AsExpected
  }

  function NodeScopedStatus(before: SequenceStatus, nodes: seq<NodeState>, numGroups: nat, gated: nat,
                            missing: seq<string>, key: string): SequenceStatus
  {
    var summary := NodeSummary(nodes, numGroups, gated);
    before.(currentIndex := MinSatisfied(nodes, numGroups),
          phase := if summary.satisfied == summary.total then PhaseActive else PhaseInProgress,
          processedPods := [], currentGroupPods := [], readyPods := 0,
          nodeStatus := Capped(Entries(nodes, numGroups)), summary := Some(summary), key := key,
          ready := Some(summary.satisfied == summary.total), degraded := Some(DegradedBy(summary.failed, missing)))
  }

  /** The status of the sequence a reconcile works on. */
  class SequenceObject {
    var status: SequenceStatus

    constructor (status: SequenceStatus)
      ensures this.status == status
    {
      this.status := status;
    }

    method SetNodeScopedStatus(plan: NodePlan, numGroups: nat, key: string)
      modifies this
      ensures status == NodeScopedStatus(old(status), plan.nodes, numGroups, plan.gatedPods, plan.missingToleration, key)
    {
      var nodes := plan.nodes;
      var total, satisfied, failed := 0, 0, 0;
      var minIdx := numGroups;
      var failedEntries: seq<NodeEntry>, pendingEntries: seq<NodeEntry> := [], [];
      for i := 0 to |nodes|
        invariant total == |Collect(TakesPart(), nodes[..i])|
        invariant satisfied == |Collect(IsDone(numGroups), nodes[..i])|
        invariant failed == |failedEntries| && failedEntries == Collect(OpenEntry(numGroups, true), nodes[..i])
        invariant pendingEntries == Collect(OpenEntry(numGroups, false), nodes[..i])
        invariant minIdx == MinSatisfied(nodes[..i], numGroups)
      {
        var st := nodes[i];
        assert nodes[..i + 1][..i] == nodes[..i];
        if !st.participating {
          continue;
        }
        total := total + 1;
        if st.satisfied < minIdx {
          minIdx := st.satisfied;
        }
        if st.satisfied >= numGroups {
          satisfied := satisfied + 1;
          continue;
        }
        var entry := NodeEntry(st.name, st.satisfied, st.failed, st.message);
        if st.failed {
          failed := failed + 1;
          failedEntries := failedEntries + [entry];
        } else {
          pendingEntries := pendingEntries + [entry];
        }
      }
      assert nodes[..|nodes|] == nodes;
      var entries := failedEntries + pendingEntries;
      if |entries| > MAX_NODE_STATUS {
        entries := entries[..MAX_NODE_STATUS];
      }
      status := status.(key := key, nodeStatus := entries, summary := Some(Summary(total, satisfied, failed, plan.gatedPods)),
                        currentIndex := minIdx, currentGroupPods := [], readyPods := 0, processedPods := []);
      status := status.(phase := if satisfied == total then PhaseActive else PhaseInProgress, ready := Some(satisfied == total));
      var reason := AsExpected;
      if failed > 0 {
        reason := GateTimeoutExceeded;
      }
      if |plan.missingToleration| > 0 {
        if reason == AsExpected {
          reason := TolerationMissing;
        }
      }
      status := status.(degraded := Some(reason));
    }
  }

  // ---- what it says ----

  lemma {:induction false} MinSatisfiedMeaning(nodes: seq<NodeState>, numGroups: nat)
    ensures MinSatisfied(nodes, numGroups) <= numGroups
    ensures forall st :: st in nodes && st.participating ==> MinSatisfied(nodes, numGroups) <= st.satisfied
    ensures MinSatisfied(nodes, numGroups) < numGroups ==>
              exists st :: st in nodes && st.participating && st.satisfied == MinSatisfied(nodes, numGroups)
  {
    if nodes != [] {
      MinSatisfiedMeaning(nodes[..|nodes| - 1], numGroups);
      assert nodes == nodes[..|nodes| - 1] + [nodes[|nodes| - 1]];
    }
  }

  /** Participating nodes are done, failed or pending, each counted once. */
  lemma {:induction false} CountsAddUp(nodes: seq<NodeState>, numGroups: nat)
    ensures |Collect(TakesPart(), nodes)| == |Collect(IsDone(numGroups), nodes)| + |Entries(nodes, numGroups)|
  {
    if nodes != [] {
      CountsAddUp(nodes[..|nodes| - 1], numGroups);
    }
  }

  /** No node is shown iff every participating node is satisfied. */
  lemma {:induction false} NoEntriesMeaning(nodes: seq<NodeState>, numGroups: nat)
    ensures Entries(nodes, numGroups) == [] <==> forall st :: st in nodes && st.participating ==> st.satisfied >= numGroups
  {
    var failed, pending := OpenEntry(numGroups, true), OpenEntry(numGroups, false);
    if st :| st in nodes && st.participating && st.satisfied < numGroups {
      var entry := NodeEntry(st.name, st.satisfied, st.failed, st.message);
      CollectMember(OpenEntry(numGroups, st.failed), nodes, entry);
    } else {
      CollectsNothing(failed, nodes);
      CollectsNothing(pending, nodes);
    }
  }

  /** Exactly the participating nodes that have not satisfied all groups have an entry, with their own name, count,
      mark and message. */
  lemma {:induction false} EntriesMeaning(nodes: seq<NodeState>, numGroups: nat, e: NodeEntry)
    ensures e in Entries(nodes, numGroups) <==>
            exists st :: st in nodes && st.participating && st.satisfied < numGroups
                         && e == NodeEntry(st.name, st.satisfied, st.failed, st.message)
  {
    CollectMember(OpenEntry(numGroups, true), nodes, e);
    CollectMember(OpenEntry(numGroups, false), nodes, e);
    if st :| st in nodes && st.participating && st.satisfied < numGroups && e == NodeEntry(st.name, st.satisfied, st.failed, st.message) {
      assert OpenEntry(numGroups, st.failed)(st) == Some(e);
    }
  }

  lemma {:induction false} EntryFlags(nodes: seq<NodeState>, numGroups: nat, failed: bool)
    ensures forall e :: e in Collect(OpenEntry(numGroups, failed), nodes) ==> e.failed == failed
  {
    if nodes != [] {
      EntryFlags(nodes[..|nodes| - 1], numGroups, failed);
    }
  }

  function FailedNode(): NodeState -> Option<NodeState>
  {
    (st: NodeState) => if st.failed then Some(st) else None
  }

  lemma {:induction false} FailedCount(nodes: seq<NodeState>, numGroups: nat)
    requires forall st :: st in nodes && st.failed ==> st.participating && st.satisfied < numGroups
    ensures |Collect(OpenEntry(numGroups, true), nodes)| == |Collect(FailedNode(), nodes)|
  {
    if nodes != [] {
      FailedCount(nodes[..|nodes| - 1], numGroups);
    }
  }

  lemma {:induction false} FinalStateInRange(input: PlanInput, st: NodeState)
    requires st in FinalStates(input)
    ensures st.satisfied <= NumGroups(input)
    ensures st.failed ==> st.participating && st.satisfied < NumGroups(input)
  {
    var i :| 0 <= i < |FinalStates(input)| && FinalStates(input)[i] == st;
    FailedIsBlocked(input, i);
    StatesOfAt(input, SortByName(input.nodes), i);
  }

  lemma {:induction false} KeptBlocksItsNode(input: PlanInput)
    requires GatedPods(input) > 0
    ensures exists st :: st in FinalStates(input) && st.participating && st.satisfied < NumGroups(input)
  {
    var p := KeptPods(input)[0];
    CollectMember(KeptPod(input, BaseStates(input)), Members(input), p);
    var m :| m in Members(input) && KeptPod(input, BaseStates(input))(m) == Some(p);
    var node := KeptMeaning(input, m);
    var i := Lookup(BaseStates(input), m.node).value;
    FailedIsBlocked(input, i);
    assert FinalStates(input)[i] in FinalStates(input);
  }

  /** Capping keeps failed nodes in front. */
  lemma {:induction false} FailedFirst(nodes: seq<NodeState>, numGroups: nat)
    ensures var shown := Capped(Entries(nodes, numGroups));
            && |shown| == (if |Entries(nodes, numGroups)| < MAX_NODE_STATUS then |Entries(nodes, numGroups)| else MAX_NODE_STATUS)
            && forall i, j :: 0 <= i < j < |shown| && shown[j].failed ==> shown[i].failed
  {
    EntryFlags(nodes, numGroups, true);
    EntryFlags(nodes, numGroups, false);
  }

  /** The status a plan leads to. */
  function PlannedStatus(input: PlanInput, before: SequenceStatus): SequenceStatus
  {
    NodeScopedStatus(before, FinalStates(input), NumGroups(input), GatedPods(input), MissingToleration(input), Key(input))
  }

  /** The rest of the status: the counts, the conditions and the entries, and what is cleared or kept. */
  lemma {:induction false} StatusReports(input: PlanInput, before: SequenceStatus)
    ensures var s := PlannedStatus(input, before);
            && s.ready == Some(s.phase == PhaseActive) && s.phase in {PhaseActive, PhaseInProgress}
            && s.summary.value.gated == GatedPods(input) && s.key == EligibilityKey(input.sequence.digest)
            && (s.degraded == Some(GateTimeoutExceeded) <==> exists st :: st in FinalStates(input) && st.failed)
            && (s.degraded == Some(TolerationMissing) <==> (forall st :: st in FinalStates(input) ==> !st.failed) && MissingToleration(input) != [])
            && s.degraded.Some? && s.processedPods == [] && s.currentGroupPods == [] && s.readyPods == 0
            && (forall e :: e in s.nodeStatus ==> e in Entries(FinalStates(input), NumGroups(input)))
            && (|Entries(FinalStates(input), NumGroups(input))| <= 50 ==> s.nodeStatus == Entries(FinalStates(input), NumGroups(input)))
            && |s.nodeStatus| <= 50
  {
    var nodes, n := FinalStates(input), NumGroups(input);
    forall st | st in nodes
      ensures st.failed ==> st.participating && st.satisfied < n
    {
      FinalStateInRange(input, st);
    }
    FailedCount(nodes, n);
    if |Collect(FailedNode(), nodes)| > 0 {
      CollectMember(FailedNode(), nodes, Collect(FailedNode(), nodes)[0]);
    }
    if st :| st in nodes && st.failed {
      CollectMember(FailedNode(), nodes, st);
      assert FailedNode()(st) == Some(st);
    }
  }

  /** The status agrees with the plan it was made from. */
  lemma {:induction false} StatusAgreesWithPlan(input: PlanInput, before: SequenceStatus)
    ensures var nodes, n := FinalStates(input), NumGroups(input);
            var s := PlannedStatus(input, before);
            && (forall st :: st in nodes && st.participating ==> s.currentIndex <= st.satisfied)
            && (s.currentIndex == n || exists st :: st in nodes && st.participating && st.satisfied == s.currentIndex)
            && (s.phase == PhaseActive <==> s.currentIndex == n)
            && (s.phase == PhaseActive <==> forall st :: st in nodes && st.participating ==> st.satisfied == n)
            && (s.phase == PhaseActive ==> GatedPods(input) == 0 && s.nodeStatus == [])
            && s.summary.value.failed == |Collect(FailedNode(), nodes)|
            && s.summary.value.total == s.summary.value.satisfied + |Entries(nodes, n)|
            && |s.nodeStatus| == (if |Entries(nodes, n)| < MAX_NODE_STATUS then |Entries(nodes, n)| else MAX_NODE_STATUS)
            && (forall i, j :: 0 <= i < j < |s.nodeStatus| && s.nodeStatus[j].failed ==> s.nodeStatus[i].failed)
  {
    var nodes, n := FinalStates(input), NumGroups(input);
    MinSatisfiedMeaning(nodes, n);
    CountsAddUp(nodes, n);
    NoEntriesMeaning(nodes, n);
    FailedFirst(nodes, n);
    forall st | st in nodes
      ensures st.satisfied <= n && (st.failed ==> st.participating && st.satisfied < n)
    {
      FinalStateInRange(input, st);
    }
    FailedCount(nodes, n);
    if GatedPods(input) > 0 {
      KeptBlocksItsNode(input);
    }
  }
}
