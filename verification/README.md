# Pod sequence controller: a verified model

The controller releases pods group by group by removing a scheduling gate from them. This project models its
decisions and its writes in Dafny and proves what they guarantee.

- **Planner.** `NodePlanSpec` says what a plan is as functions of a snapshot of nodes, pods, DaemonSets and the
  clock. `NodePlans` is the imperative planner, proved to build exactly that plan. `PlanMeaning` reads it (longest
  prefixes, ordered release, conservation of gated pods) and `PlanActions` what it does to the pods it releases;
  `PlanOrder` proves isolation between nodes and independence of input order, `PlanTime` the exactness of the wake-up
  time, and `PlanProgress` that nodes advance.
- **Steering.** `Sequence`, `PodEdits` and `Steering` model how "this node has satisfied at least k groups" is
  written as a label with a `Gt` requirement or as a taint with tolerations, and how a scheduler reads it (`Kube`,
  `Decimal`). Both encodings are proved exact and to agree. `NodeRun` covers whole runs with stale reads, single
  patches, crashes and binds; `LabelRun` and `TaintRun` say where pods are bound in either mode, and `StaleRun` has
  the runs that show their conditions are needed. `NodeScoped` is the pass, `PassMeaning`
  what it achieves, and `Quiescence` shows that repeating it changes nothing.
- **Cluster scope.** `ClusterScoped` is the pass, `ClusterMeaning` what it means, and `ClusterRun` whole runs with
  stale statuses and dropped writes, with the history of advances as ghost state.
- **Release.** `Release` models giving keys back, on deletion, on a switch of method and by orphan cleanup.
- `Status` and `Webhook` model the reported status and the preparation of DaemonSets.

Objects the program edits in place (the plan, pods, nodes, the status, a DaemonSet, the API server's store) are
classes whose methods are proved against functions on values; lemmas are about those functions. Times are integers
in nanoseconds, a label selector is an arbitrary predicate on labels, and every answer of the API server (what a
read returns, whether a patch is applied, finds the object gone or is rejected) is a parameter. Automatic induction
is switched off throughout: every induction is written out.

Where the code differs from what it says of itself, the model follows the code:

- `AddRequiredNodeAffinity` says it ANDs a requirement into every term. An empty term matches nothing, but matches
  after the edit (`EmptyTermIsWidened`); `AffinityEditExactIff` gives the exact condition.
- `releaseNodeKeys` says labels are kept while an unscheduled pod requires them. What it knows of pods is the list
  of the same pass: a list that failed, or a stale one that still shows a pod gated after both its patches landed,
  reads as "nobody needs them". Labels go, that pod matches no node that carried one, and no later pass from current
  copies repairs it (`UnreferencedListingStrands`). And what it knows of a node is the cached copy: one from before
  the label was set leaves its old count in place (`StaleCopyStrands`), until a later pass from a current copy
  (`LaterReleaseRepairs`). `DeletionAdmitsIff` is the exact condition; for pods listed as pending and copies that
  show the label the promise holds. A switch to Taint mode behaves alike (`TaintSwitchAdmitsIff`,
  `StaleSwitchStrands`, `StaleCopySwitch`).
- A sync compares with the cached node. If that is stale it may find nothing to patch although the stored label or
  taint differs, so pods are bound by the latest sync that took effect (`SteeredPodsBindInOrder`,
  `TaintedPodsBindInOrder`) and not always by the most recent one (`LatestSyncIsOvertaken`, in either mode).
  `LatestSyncIsFollowedIff`, `LatestTaintIsFollowedIff` and `NoLagIff` say exactly when they are.

A cluster-scoped pass rechecks only the previous group; `EarlierGroupsAreNotRechecked` states that.

## Model

| member | source | states |
|---|---|---|
| NodePlans.ComputeNodePlan | internal/controller/nodeplan.go:85-220 | the plan object built by the loops has exactly the declarative node states, release actions, counts, timeouts and requeue of the input, and an invalid spec is reported as its first invalid part |
| NodePlans.GroupSatisfiedOnNode | internal/controller/nodeplan.go:238-275 | the early-returning loops give the block of a group on a node: the first DaemonSet without a pod, an empty RequireOnNode group, the first unready pod, or the longest remaining wait |
| NodePlans.ReadGroups | internal/controller/nodeplan.go:105-117 | waits and DaemonSets per group, or the first invalid wait or selector in group order |
| PlanMeaning.SpecErrorMeaning | internal/controller/nodeplan.go:85-117 | the error is the first invalid part of the spec: the node selector, or else a wait or a selector, group by group and the wait first |
| NodePlans.NodePlan.Requeue | internal/controller/nodeplan.go:277-284 | keeps the soonest positive delay |
| NodePlans.NodePlan.ProbeTolerations | internal/controller/nodeplan.go:119-128 | lists, per group, each DaemonSet that does not tolerate the probe taint |
| NodePlans.NodePlan.CollectMembers | internal/controller/nodeplan.go:130-157 | members in pod order, strays released, and the map from node and group to active pods pinned there |
| NodePlans.NodePlan.EvaluateNode | internal/controller/nodeplan.go:163-185 | one node is appended with its satisfied count and message, and the waits seen on the way are requeued |
| NodePlans.NodePlan.EvaluateNodes | internal/controller/nodeplan.go:159-185 | all nodes in name order, with the index from names to states |
| NodePlans.NodePlan.DecideMember | internal/controller/nodeplan.go:186-217 | one member is released with its action or kept, counted, timed out or requeued |
| NodePlans.NodePlan.DecideMembers | internal/controller/nodeplan.go:186-218 | the same for all members, including the nodes marked failed in place |
| NodePlans.NodePlan.BuildUnpinnedAction | internal/controller/nodeplan.go:222-234 | an unpinned pod gets tolerations in Taint mode, and otherwise the label requirement from the second group on |
| PlanMeaning.BlockMeaning | internal/controller/nodeplan.go:238-275 | a group is not blocked on a node iff the Ready condition of every active member pinned there is true and its last transition plus the wait is past, every expected DaemonSet of the group owns a pod of the group there, and RequireOnNode groups are not empty there |
| PlanMeaning.BlockReports | internal/controller/nodeplan.go:238-275 | a block names an expected DaemonSet without a pod, or, with none such, the absence of pods, or a pod that is not ready, or only then the moment when the last pod will have waited |
| PlanOrder.NodesAreReported | internal/controller/nodeplan.go:159-185 | each node is reported once, in name order; it participates iff it is not going and the node selector matches, and if not nothing else is reported |
| PlanMeaning.SatisfiedIsLongestPrefix | internal/controller/nodeplan.go:166-181 | on a participating node the satisfied count reaches k iff the first k groups hold there |
| PlanMeaning.SatisfiedReleaseIsOrdered | internal/controller/nodeplan.go:204-205 | a pod released as satisfied sits on a participating node where every group before its own holds |
| PlanMeaning.KeptIffEarlierGroupOpen | internal/controller/nodeplan.go:186-207 | a gated, pinned, not bypassed pod on a participating node is kept iff some group before its own does not hold there |
| PlanMeaning.WaitedGroupIsReleased | internal/controller/nodeplan.go:204-205 | a pod of the group its node is waiting for, or of an earlier one, is never kept |
| PlanMeaning.KeptMeaning | internal/controller/nodeplan.go:206-207 | a kept pod is active, gated and pinned to a participating node that has satisfied fewer groups than its index |
| PlanMeaning.GatedPodsConserved | internal/controller/nodeplan.go:133-218 | released and kept pods together are, with multiplicity, exactly the active gated pods of the namespace that are members or opted in, and the two counts add up |
| PlanActions.ReasonMeaning | internal/controller/nodeplan.go:133-205 | the reason of a release says whether the pod is a stray, a bypassed member, an unpinned one or a pinned one |
| PlanActions.NodeReasonMeaning | internal/controller/nodeplan.go:196-205 | that of a pinned one, whether no node has the target name, or the node does not participate, or has come far enough |
| PlanActions.OthersKeepTheirSpec | internal/controller/nodeplan.go:191-234 | bypassed pods, pinned pods, strays, and in NodeLabel mode the pods of the first group, get neither affinity nor tolerations |
| PlanActions.FirstGroupGoesAnywhere | internal/controller/nodeplan.go:222-234 | in Taint mode an unpinned pod of the first group tolerates the own taints of every synced node |
| PlanActions.LaterGroupsAreSteered | internal/controller/nodeplan.go:222-234 | an unpinned pod of a later group k suits a synced node afterwards iff it did before and the node has satisfied k groups, in Taint mode as far as the own taints go |
| PlanMeaning.TimedOutStayGated | internal/controller/nodeplan.go:207-213 | timed-out pods are among the kept ones; a timeout releases nothing |
| PlanMeaning.TimedOutMeaning | internal/controller/nodeplan.go:207-213 | exactly the kept pods that were created at least the timeout ago are timed out, if a positive timeout is set |
| PlanMeaning.FailedIsBlocked | internal/controller/nodeplan.go:210-213 | marking a node failed changes nothing else, and only participating unsatisfied nodes are marked |
| PlanOrder.NodeIsolation | internal/controller/nodeplan.go:132-217 | two inputs that agree on a node and on the pods pinned to it give it the same state and those pods the same actions, whatever the rest looks like |
| PlanOrder.DecisionIsolation | internal/controller/nodeplan.go:186-217 | the same for one pinned member: action and timeout |
| PlanOrder.FailedMeaning | internal/controller/nodeplan.go:206-213 | a node is reported failed iff a member kept for it was created at least the timeout ago |
| PlanOrder.OrderIndependence | internal/controller/nodeplan.go:85-220 | reordering nodes, pods and DaemonSets keeps the multisets of actions and timeouts, the gated count, the requeue and every node state except which blocker its message names |
| PlanOrder.SoonestMeaning | internal/controller/nodeplan.go:277-284 | the running minimum is the least positive delay, and 0 iff there is none |
| PlanTime.WakeUpIsExact | internal/controller/nodeplan.go:166-218 | every evaluation before the requested wake-up decides the same, the one at it does not, and without a request nothing changes with time alone |
| PlanTime.NothingMissedAsleep | internal/controller/podsequence_controller.go:309-313 | the delay is positive and a minute at most, a shorter one ends when the plan changes, and no moment before its end changes the plan |
| PlanTime.BlockElapses | internal/controller/nodeplan.go:262-274 | as time passes a block only loses waiting time, and clears when none is left |
| PlanProgress.RoundAdvances | internal/controller/nodeplan.go:159-205 | when pods released by one plan become ready and the pods a group expects on a participating node exist, a blocked node satisfies at least one more group at the next |
| PlanProgress.DeficitFalls | internal/controller/nodeplan.go:159-205 | the groups missing over all nodes fall by at least the number of blocked nodes in each round |
| PlanProgress.RoundsSatisfy | internal/controller/nodeplan.go:159-205 | after r rounds each participating node has satisfied r groups, or all of them |
| PlanProgress.GroupIsUnique | internal/sequence/sequence.go:145-155 | for pods that match no two groups the first matching group is the only one, which links pods to DaemonSets matched against every group |
| Sequence.GroupIndexMeaning | internal/sequence/sequence.go:120-155 | a pod is of group j iff it is not of a foreign namespace and j is the first group that names it or, naming none, selects its labels |
| Sequence.FindGroupIndex | internal/sequence/sequence.go:145-155 | the search loop, including pods of other namespaces |
| Sequence.ReadyForMeaning | internal/sequence/sequence.go:205-238 | nothing is left to wait for iff the first Ready condition is true and, for a positive wait and a known transition, transition plus wait is past |
| Sequence.UnsetFieldsDefault | internal/sequence/sequence.go:63-118 | what unset fields of a sequence or group stand for |
| DaemonSets.CheckExpectedOnNode | internal/sequence/daemonset.go:61-72 | the loop that filters taints |
| DaemonSets.FindDaemonSetsForGroup | internal/sequence/daemonset.go:75-91 | the loop that skips deleted and unselected DaemonSets, and finds none for groups without a usable selector |
| DaemonSets.ExpectedMeaning | internal/sequence/daemonset.go:27-72 | a DaemonSet is expected iff node name and affinity match and every lasting foreign taint that keeps pods off is tolerated by its template or by default |
| DaemonSets.DaemonTolerationsMeaning | internal/sequence/daemonset.go:13-48 | which taints daemon pods tolerate by default, by key and effect |
| DaemonSets.ExpectedIgnoresOwnTaint | internal/sequence/daemonset.go:57-72 | adding, removing or revaluing taints of the sequence's own key never changes the expectation |
| DaemonSets.ShouldRunIsExpected | internal/sequence/daemonset.go:57-72 | a DaemonSet that should run on the node as it is, is expected there |
| Decimal.ParseIntItoa | internal/sequence/sequence.go:244-244 | a written count parses back to itself, with the sign and digit rules of the reader |
| Decimal.ItoaInjective | internal/sequence/sequence.go:259-259 | distinct counts are written differently, so comparing values as strings compares counts |
| Sequence.EligibilityKeyIsNotLegacy | internal/sequence/sequence.go:47-61 | the key of a sequence is recognised as one and never mistaken for a taint of an earlier version |
| Sequence.FindTargetNode | internal/sequence/sequence.go:160-183 | the loops over terms and fields |
| Sequence.TargetNodeIff | internal/sequence/sequence.go:157-183 | a pod is pinned to a name iff it is bound there, or is unbound and in each of its required terms, one at least, the last metadata.name field of one value is In that name |
| Sequence.PinIsRecognised | internal/sequence/sequence.go:157-183 | so is a pod as the DaemonSet controller makes it: each term has that field and no such field names another node |
| Sequence.PinIsExclusive | internal/sequence/sequence.go:157-183 | every node an unbound pod with a target can match has that name |
| Sequence.BuildEligibilityTolerations | internal/sequence/sequence.go:250-264 | the loop that builds the toleration list |
| Sequence.EligibilityTolerationsMeaning | internal/sequence/sequence.go:248-264 | the tolerations of group k tolerate the taint with value v iff k <= v < number of groups |
| Sequence.HasRequirementIsMembership | internal/sequence/sequence.go:319-326 | comparing values joined by commas never confuses another requirement with the sequence's own |
| Sequence.AffinityEditMeaning | internal/sequence/sequence.go:293-317 | the edited affinity matches iff the requirement holds and the original matched or had an empty term |
| Sequence.AffinityEditExactIff | internal/sequence/sequence.go:293-317 | the edit narrows a node selection exactly, unless the selection has an empty term, did not match, and the requirement holds |
| Sequence.EmptyTermIsWidened | internal/sequence/sequence.go:309-315 | a selection of one empty term, which matches nothing, starts to match after the edit |
| Sequence.AffinityEditIdempotent | internal/sequence/sequence.go:310-314 | a second edit changes nothing |
| Sequence.AffinityEditKeepsTarget | internal/sequence/sequence.go:160-183 | the edit never changes the node a pod is pinned to |
| Sequence.WithRequirementDemands | internal/sequence/sequence.go:290-317 | after the edit every required term carries the requirement, and there is a term |
| Sequence.DemandedRequirementHolds | internal/sequence/sequence.go:290-317 | any node then matched satisfies the requirement |
| Sequence.WithTolerationsContains | internal/sequence/sequence.go:272-288 | exactly the old and the given tolerations are there |
| Sequence.WithTolerationsNoop | internal/sequence/sequence.go:272-288 | tolerations already there are not added again |
| Sequence.PendingRequiredKeys | internal/sequence/sequence.go:330-347 | exactly the eligibility keys in required terms of active unbound pods |
| Sequence.ReferencedMeaning | internal/sequence/sequence.go:330-347 | the key of a sequence is held by exactly the unbound, unfinished pods that name it in a required term |
| PodEdits.PodObject.AddTolerations | internal/sequence/sequence.go:272-288 | in-place edit of the toleration list, and whether it changed |
| PodEdits.PodObject.AddRequiredNodeAffinity | internal/sequence/sequence.go:293-317 | in-place edit of every required term, creating one if there is none, and whether it changed |
| PodEdits.PodObject.Patch | internal/controller/podsequence_controller.go:534-536 | an optimistic-lock patch applies as a whole or changes nothing |
| PodEdits.PodObject.RemoveGate | internal/controller/podsequence_controller.go:543-559 | removes exactly the gate, or nothing when the copy is stale or the patch fails; a pod that is gone is no error |
| PodEdits.PodObject.ApplyPodAction | internal/controller/podsequence_controller.go:525-540 | what is stored after each combination of outcomes of the two patches; success means constrained and ungated |
| PodEdits.ActionFailsIff | internal/controller/podsequence_controller.go:525-559 | handling a gated pod that is still there succeeds iff its copy is current and each patch it needs is applied; a pod that is gone is no error |
| PodEdits.GateGoneMeansConstrained | internal/controller/podsequence_controller.go:525-540 | wherever the two patches stop, a stored pod without the gate carries all constraints |
| Steering.NodeObject.SetNodeKey | internal/controller/podsequence_controller.go:439-473 | the stored node, and the error, for each pair of patch outcomes and however stale the cached copy; no patch is sent iff the copy is already as wanted |
| Steering.CurrentCopyIsExact | internal/controller/podsequence_controller.go:439-473 | from a current copy with both patches applied the key ends as wanted |
| Steering.KeyFailsIff | internal/controller/podsequence_controller.go:439-522 | it fails iff a patch it needs is rejected, or its taint patch is made from a copy that is not current |
| Steering.KeySucceeds | internal/controller/podsequence_controller.go:439-473 | without an error the key of a node with a current copy is as wanted |
| Steering.OthersSurvive | internal/controller/podsequence_controller.go:509-522 | however stale the copy, labels and taints of others on the stored node survive, which is what the lock is for |
| Steering.NodeObject.SyncNodeEligibility | internal/controller/podsequence_controller.go:415-436 | the same for the label and taint that reflect a node state |
| Steering.RebuildTaints | internal/controller/podsequence_controller.go:451-468 | the loop that rebuilds the taint list, and whether it changed |
| Steering.SetKeyIsExact | internal/controller/podsequence_controller.go:439-473 | afterwards the node has exactly the wanted label and taint of the key, all other labels, and all other taints in order |
| Steering.SetKeyIsIdempotent | internal/controller/podsequence_controller.go:439-473 | a second run finds nothing to change |
| Steering.DistinctKeysCommute | internal/controller/podsequence_controller.go:439-473 | syncs for different keys commute up to taint order |
| Steering.LabelEncodesProgress | internal/sequence/sequence.go:238-246 | on a synced node the requirement of group k holds iff the node participates and has satisfied at least k groups |
| Steering.LabelSteeringIsExact | internal/controller/podsequence_controller.go:415-436 | the augmented affinity of a pod of group k matches a synced node iff the original did and the node participates with at least k satisfied groups |
| Steering.TaintSteeringIsExact | internal/controller/podsequence_controller.go:415-436 | the own-key taints of a synced node are tolerated by a pod of group k iff the node does not participate or has satisfied at least k groups |
| Steering.FirstGroupTolerates | internal/sequence/sequence.go:250-253 | pods of the first group tolerate whatever the sequence puts on a node |
| Steering.MethodsAgree | internal/controller/podsequence_controller.go:415-436 | between participating nodes a scheduler may place a pod steered by label on the same ones as the pod steered by tolerations, affinity and all taints considered |
| NodeRun.RunsAreSafe | internal/controller/podsequence_controller.go:525-540 | invariant of every step in both modes: a steered pod without its gate carries the constraints of its group, each label on a node is the count of the sync that wrote it, and each own taint that of the latest sync that took effect |
| NodeRun.OutcomeIsStep | internal/controller/podsequence_controller.go:415-473 | what a sync leaves of a node for any copies and any fate of its two patches is what a step of the run model leaves |
| NodeRun.StepIsOutcome | internal/controller/podsequence_controller.go:415-473 | and every such step is a sync, for some versions and some fate of its patches |
| NodeRun.NoLagIff | internal/controller/podsequence_controller.go:438-473 | in either mode no node ever lags iff no sync leaves a label or taint that admits more than it computed |
| LabelRun.SteeredPodsBindInOrder | internal/controller/podsequence_controller.go:252-314 | in every run, however stale its reads and wherever it stops, a steered pod of group k is only bound to a node whose label stems from a sync that found it participating with the first k groups holding |
| LabelRun.BindsFollowLatestSync | internal/controller/podsequence_controller.go:525-540 | unless the node lags, that is true of its most recent sync |
| LabelRun.LatestSyncIsFollowedIff | internal/controller/podsequence_controller.go:438-450 | in every run a node admits only groups its most recent sync supports iff it does not lag |
| LabelRun.SyncAdmitsNoMoreIff | internal/controller/podsequence_controller.go:438-450 | after a sync a node admits only groups the sync supports iff the label was written, or there was none, or its count is 0 or no more than computed |
| LabelRun.LagFreeRunsFollowLatest | internal/controller/podsequence_controller.go:525-540 | in a run in which no sync leaves its node lagging every bind of a steered pod is supported by the most recent sync of its node |
| StaleRun.LatestSyncIsOvertaken | internal/controller/podsequence_controller.go:440-470 | in either mode a run from the empty cluster, reading only nodes and pods stored before, that binds a steered pod of group 1 to a node whose most recent sync computed 0: the cached node already carried that label or taint |
| TaintRun.TaintedPodsBindInOrder | internal/controller/podsequence_controller.go:525-540 | in every run in Taint mode a steered pod of group k is only bound to a node no sync has taken effect on since it joined, or whose latest such sync found it not participating or with the first k groups holding |
| TaintRun.TaintAdmitsIff | internal/sequence/sequence.go:248-264 | in every run a node lets pass a pod of group k, as far as its own taints go, iff no sync has left one or the sync that did allows that group |
| TaintRun.UnsyncedNodeAdmitsAll | internal/controller/podsequence_controller.go:415-436 | the own taints of a node no sync has taken effect on since it joined hold back no pod |
| TaintRun.SyncLetsPassNoMoreIff | internal/controller/podsequence_controller.go:451-472 | after a sync a node lets pass only groups the sync allows iff its taint patch took effect, or the taint it carried, if any, lets pass none that the sync would not |
| TaintRun.LatestTaintIsFollowedIff | internal/controller/podsequence_controller.go:451-472 | in every run the taint of a node that has been synced lets pass only groups its most recent sync allows iff the node does not lag |
| TaintRun.BindsFollowLatestTaint | internal/controller/podsequence_controller.go:525-540 | a steered pod bound to a node that does not lag is supported by the most recent sync of it, if there is one |
| TaintRun.LagFreeRunsFollowLatestTaint | internal/controller/podsequence_controller.go:525-540 | in a run in which no sync leaves its node lagging that is true of every bind of a steered pod |
| Quiescence.OnePassIsEnough | internal/controller/podsequence_controller.go:269-301 | after one fully applied pass, planning again at the same time finds the same node states and gated pods, nothing to release and no node to patch |
| Quiescence.SecondLook | internal/controller/podsequence_controller.go:525-540 | a handled pod is not acted on again and an untouched one meets the same fate |
| Quiescence.SyncAgain | internal/controller/podsequence_controller.go:415-436 | the next sync of a synced node changes nothing |
| Quiescence.FinalStatesAfter | internal/controller/nodeplan.go:159-217 | the controller's own labels, taints and pod edits do not feed back into node states |
| NodeScoped.SyncNodes | internal/controller/podsequence_controller.go:287-291 | each node of the plan ends as its cached copy and its two patches determine, whatever happens to the others, and the loop fails iff one of them does |
| NodeScoped.ApplyActions | internal/controller/podsequence_controller.go:293-301 | the same for the pods of the plan; no other pod is touched |
| NodeScoped.PlanActionsAreDistinct | internal/controller/nodeplan.go:186-218 | a plan never acts twice on one pod |
| NodeScoped.ReconcileNodeScoped | internal/controller/podsequence_controller.go:252-314 | the whole pass from cached nodes and pods that may lag behind: nodes synced, pods handled, status set from the plan, exactly when it fails, and without an error a positive delay of a minute at most that ends early only for a change and misses none; an invalid spec touches no node and no pod |
| NodeScoped.SmoothPassSyncs | internal/controller/podsequence_controller.go:287-291 | from a current copy with all patches applied the stored node is the one whose next sync changes nothing |
| NodeScoped.SmoothPassStores | internal/controller/podsequence_controller.go:293-301 | with all patches applied the stored pod is the one whose second look finds nothing to do |
| PassMeaning.PassReleasesPods | internal/controller/podsequence_controller.go:252-314 | a pod the plan accounts for keeps its gate after a pass that lands iff it is a member, not bypassed, and pinned to a participating node where a group before its own is not satisfied |
| PassMeaning.PassSparesOthers | internal/controller/podsequence_controller.go:293-301 | no other pod is touched, whatever happens |
| PassMeaning.StalePodIsLeft | internal/controller/podsequence_controller.go:525-559 | from a stale copy nothing lands on a pod, and unless it is gone the pass errs if it had an action for it |
| PassMeaning.PassLabelsNodes | internal/controller/podsequence_controller.go:287-291 | after a pass in NodeLabel mode the requirement of group k holds on a node iff it participates and the first k groups are satisfied there |
| PassMeaning.PassTaintsNodes | internal/controller/podsequence_controller.go:287-291 | in Taint mode its own taints hold off a pod of group k iff it participates and one of the first k groups is not satisfied there |
| PassMeaning.LabelledPassIsOrderly | internal/controller/podsequence_controller.go:252-314 | a pod free to go anywhere, of a later group k, is released, and its affinity lets it onto a synced node iff it did before and the first k groups are satisfied there |
| PassMeaning.TaintedPassIsOrderly | internal/controller/podsequence_controller.go:252-314 | in Taint mode the same for the own taints, which let pass a node that takes no part |
| PassMeaning.PassStrandsNoPendingPod | internal/controller/podsequence_controller.go:269-291 | after a switch to Taint mode a pass keeps a label it sees open for each listed pod still pending on it |
| Status.SequenceObject.SetNodeScopedStatus | internal/controller/podsequence_controller.go:316-398 | the counting loop and the in-place update of the status fields |
| Status.StatusAgreesWithPlan | internal/controller/podsequence_controller.go:316-362 | the index is the least satisfied count, Active iff it is the number of groups iff every participating node is satisfied, Active leaves no gated pod, failed nodes are counted as in the plan, and the shown nodes number min(50, unsatisfied) with failed ones first |
| Status.CountsAddUp | internal/controller/podsequence_controller.go:321-343 | participating nodes are satisfied or shown, each once |
| Status.NoEntriesMeaning | internal/controller/podsequence_controller.go:329-343 | no node is left to show iff every participating node is satisfied |
| Status.EntriesMeaning | internal/controller/podsequence_controller.go:329-343 | exactly the participating nodes that have not satisfied all groups have an entry, with their own name, count, mark and message |
| Status.StatusReports | internal/controller/podsequence_controller.go:316-398 | ready, degraded, the gated count, the key and the entries shown, up to 50; the fields of cluster scope are cleared |
| Release.BuildLabelPatch | internal/controller/podsequence_controller.go:479-491 | the loop over the labels that builds the merge patch |
| Release.LabelPatchReleases | internal/controller/podsequence_controller.go:479-491 | the patch turns the labels it was made for into the released ones and is empty iff they already are |
| Release.ReleaseNodeKeys | internal/controller/podsequence_controller.go:478-507 | the stored node, and the error, for each pair of patch outcomes and however stale the cached copy |
| Release.ReleaseSucceeds | internal/controller/podsequence_controller.go:478-507 | from a current copy of a node that is still there it fails iff a patch it needs is rejected, and otherwise leaves the node released |
| Release.ReleaseFailsIff | internal/controller/podsequence_controller.go:478-522 | from any copy it fails iff a patch it needs is rejected, or its taint patch is made from a copy that is not current |
| Release.ReleaseAdmitsIff | internal/controller/podsequence_controller.go:478-507 | whatever the copies, the requirement of group k on a stale key then holds iff the key is in use and k <= 999999, if the copy shows a label to patch and the patch is applied, and else iff the stored label met it before |
| Release.ReleaseConverges | internal/controller/podsequence_controller.go:475-507 | a pass that keeps a label for pending pods only delays its removal, and repeating a pass changes nothing |
| Release.OtherKeysUntouched | internal/controller/podsequence_controller.go:478-507 | labels and taints of keys that are not stale stay as they are on the stored node, however stale the copy and whatever becomes of the patches |
| Release.DeletionSparesOthers | internal/controller/podsequence_controller.go:632-644 | so deletion leaves the keys of other sequences alone |
| Release.UnusedKeysAreRemoved | internal/controller/podsequence_controller.go:484-505 | a stale key no pending pod needs is gone after one pass |
| Release.ReleasedValueAdmits | internal/sequence/sequence.go:39-43 | the released value satisfies the requirement of group k iff k <= 999999 |
| Release.DeletionAdmitsIff | internal/controller/podsequence_controller.go:632-644 | the same for deletion: a listed pending pod must reference the key, or, where the copy shows no label to patch, the stored label must admit the group already |
| Release.DeletionNeverStrands | internal/controller/podsequence_controller.go:609-656 | on every node whose copy shows its label the requirement of each pod listed as pending holds after deletion |
| Release.StaleCopyStrands | internal/controller/podsequence_controller.go:632-644 | a copy from before the label was set leaves a lower count in place: a listed pending pod of a later group does not match, and no error is seen |
| Release.LaterReleaseRepairs | internal/controller/podsequence_controller.go:478-507 | a later release from a current copy makes the label admit every pod still pending on it |
| Release.CleanupRepairs | internal/controller/podsequence_controller.go:661-691 | the orphan cleanup is such a release, unless a node-scoped sequence with that key has come back |
| Release.UnreferencedListingStrands | internal/controller/podsequence_controller.go:632-644 | a listing that shows no pending pod with the key removes the labels the copies show, and a steered pod then matches no such node, nor does it after a later pass from a current copy |
| Release.FailedListStrands | internal/controller/podsequence_controller.go:615-644 | a failed pod list does so |
| Release.StaleListingStrands | internal/controller/podsequence_controller.go:615-644 | so does a stale one that still shows the pod gated although both its patches have landed |
| Release.TaintSwitchAdmitsIff | internal/controller/podsequence_controller.go:431-450 | the same condition for a sync in Taint mode: a listed pending pod must reference the key, or, where the copy shows no label to patch, the stored label must admit the group already |
| Release.TaintSwitchNeverStrands | internal/controller/podsequence_controller.go:431-450 | so on every node whose copy shows its label the requirement of each pod listed as pending holds |
| Release.StaleCopySwitch | internal/controller/podsequence_controller.go:431-450 | a copy from before the label was set strands a listed pod, and the next sync from a current copy repairs it |
| Release.StaleSwitchStrands | internal/controller/podsequence_controller.go:431-450 | a stale listing that still shows a released pod gated removes the label a copy shows, and that pod matches the node after no later sync in Taint mode from a current copy |
| Release.TaintSwitchCleansUp | internal/controller/podsequence_controller.go:431-435 | once no pending pod references the key the next sync removes the label |
| Release.ReleaseGates | internal/controller/podsequence_controller.go:620-630 | every managed listed pod with a current copy and an applied patch loses its gate, whatever happens to the others, all other pods stay, and the loop fails iff a patch is rejected or a copy stale |
| Release.HandleDeletion | internal/controller/podsequence_controller.go:609-656 | each pod and each node ends as its own copy and patches determine, even after errors, and the finalizer is dropped iff nothing failed |
| Release.DroppedMeansLetGo | internal/controller/podsequence_controller.go:620-648 | once it is dropped every listed pod with the gate that is a member or opted in, and still exists, lost it; other pods are untouched and no reason to fail |
| Release.CleanupOrphanedNodeKeys | internal/controller/podsequence_controller.go:661-691 | a failed list touches no node; otherwise each node loses the orphaned and legacy keys as far as its copy shows them and its patches are applied, labels in use being kept at the released value, and it fails iff one of them does |
| Release.CleanupSparesLiveSequences | internal/controller/podsequence_controller.go:661-691 | cleanup never alters the key of a live node-scoped sequence, however stale its copies |
| Release.CleanupRemovesOrphans | internal/controller/podsequence_controller.go:661-691 | the key of a sequence that is gone, or no longer node-scoped, is gone from a node after a cleanup from a current copy without error, once no pending pod needs it |
| Release.CleanupOfOtherKeys | internal/controller/podsequence_controller.go:661-691 | taints of earlier versions go, and so do such labels unless in use; keys that are neither of that form nor of a sequence are never touched |
| ClusterScoped.GetPodsInGroup | internal/controller/podsequence_controller.go:575-605 | the loop that fetches pods by name, or the listing |
| ClusterMeaning.ReadMeaning | internal/controller/podsequence_controller.go:575-605 | it is an error iff a named pod could not be fetched, or there is no usable selector, or the list call failed; otherwise exactly the pods answered are returned, missing ones being skipped |
| ClusterScoped.ReleasePods | internal/controller/podsequence_controller.go:190-197 | the gate-removal loop, stopping at the first error or collecting errors |
| ClusterScoped.ReleasePassed | internal/controller/podsequence_controller.go:160-175 | releases recreated members of earlier groups up to the first error |
| ClusterScoped.ReleaseEverything | internal/controller/podsequence_controller.go:126-143 | releases members of all groups of a finished sequence, collecting errors |
| ClusterScoped.AdvanceWhenReady | internal/controller/podsequence_controller.go:199-246 | counts, requeues, fails or advances, updating the status in place |
| ClusterScoped.ReconcileClusterScoped | internal/controller/podsequence_controller.go:113-247 | the whole pass follows its specification for every answer the cluster can give |
| ClusterMeaning.PassAdvancesIff | internal/controller/podsequence_controller.go:113-247 | the index moves iff the group exists in full and has been ready for its wait, the previous group is still ready, and every read and patch on the way succeeds; it then adds one and appends the names of the group |
| ClusterMeaning.PassOutcome | internal/controller/podsequence_controller.go:147-197 | an open pass errs iff its group, an earlier one or the previous one cannot be read, or a patch it makes is rejected; what it then stores and asks for, and that it polls while the previous group is not ready |
| ClusterMeaning.FailedReadHoldsBack | internal/controller/podsequence_controller.go:147-187 | a failed read never passes for an absent pod: the pass errs, index and processed pods stay, and no pod of the current group is let go unless answered for an earlier one |
| ClusterMeaning.AdvanceIsStored | internal/controller/podsequence_controller.go:241-246 | an advance is stored and followed by another pass at once |
| ClusterMeaning.CompletedIff | internal/controller/podsequence_controller.go:120-145 | the phase becomes Completed iff no group is left, and nothing else in the status then changes |
| ClusterMeaning.PassReports | internal/controller/podsequence_controller.go:199-239 | an undisturbed pass reports the pods of the group and polls until all are there and ready, fails on an invalid wait, and else returns when the last pod has waited |
| ClusterMeaning.RegressionHoldsGroupBack | internal/controller/podsequence_controller.go:177-187 | when the previous group is no longer ready, no pod of the current group is let go unless it was also read in an earlier one |
| ClusterMeaning.WaitedGroupIsLetGo | internal/controller/podsequence_controller.go:160-197 | an undisturbed pass lets go every pod of the current and earlier groups, whether or not it advances |
| ClusterMeaning.RemovedWasRead | internal/controller/podsequence_controller.go:160-197 | a pass only removes gates of pods it read in the current or an earlier group |
| ClusterMeaning.EarlierGroupsAreNotRechecked | internal/controller/podsequence_controller.go:177-187 | the outcome does not depend on the readiness of groups before the previous one |
| ClusterMeaning.CompletedPassLetsAllGo | internal/controller/podsequence_controller.go:120-146 | a completed pass lets every member go of a group it reads and patches without error, whatever happens to the other groups, and errs iff one of them fails |
| ClusterMeaning.ReadMembers | internal/controller/podsequence_controller.go:575-605 | pods read for a group belong to it, and a full read of a named group found every name |
| ClusterMeaning.WaitIsExact | internal/controller/podsequence_controller.go:229-239 | inside the wait window the requested delay ends exactly when the pass first advances |
| ClusterRun.RunsAreSafe | internal/controller/podsequence_controller.go:561-572 | invariant of every step of every run: stored statuses reflect prefixes of the advances, and held pods without a gate have all earlier groups passed |
| ClusterRun.GatesFallInOrder | internal/controller/podsequence_controller.go:160-197 | whenever a pass, however stale the status it read, removes the gate of a pod, each group below the first one containing it had an earlier stored advance in which it was complete, ready and waited for, seen on pods that were stored in those very versions |
| ClusterRun.HeldPodsBindInOrder | internal/controller/podsequence_controller.go:113-247 | a pod created with the gate is bound only after the groups below its own have passed |
| ClusterRun.StatusOnlyMovesForward | internal/controller/podsequence_controller.go:242-246 | over stored statuses the index never falls and rises by at most one per write, Completed is final, and the processed pods are the names seen at the advances, in order |
| ClusterRun.FaithfulReadPasses | internal/controller/podsequence_controller.go:575-605 | reading an existing, ready and waited-for group without errors shows it passed |
| ClusterRun.SequenceCompletes | internal/controller/podsequence_controller.go:113-247 | among any passes, once as many as groups were left found their group existing, ready and waited for and the previous one ready, the index is at the end; one more marks the sequence completed and leaves no existing member of a group it reads and patches without error behind the gate, ready or not |
| ClusterRun.ReleasedPodsBringProgress | internal/controller/podsequence_controller.go:113-247 | while released pods become ready, twice as many passes as groups are left bring the index to the end |
| Webhook.DaemonSetObject.Mutate | internal/webhook/podsequence_webhook.go:141-162 | the template after the in-place mutation, and whether it changed |
| Webhook.MutationOptsIn | internal/webhook/podsequence_webhook.go:141-162 | pods with the labels of the mutated template opt in to the sequence of that name, all else is as before, and only a node-scoped sequence in Taint mode adds its toleration |
| Webhook.MutationIsIdempotent | internal/webhook/podsequence_webhook.go:141-162 | a second mutation changes nothing |
| Webhook.MutatedIgnoresOwnTaint | internal/webhook/podsequence_webhook.go:154-160 | where a mutated DaemonSet should run does not depend on the sequence's own NoSchedule taints |
| Webhook.MutatedIsNotReported | internal/controller/nodeplan.go:119-128 | a mutated DaemonSet is never listed as lacking the toleration |
| Webhook.MissingTolerationMeaning | internal/controller/nodeplan.go:119-128 | in Taint mode, and only then, exactly the DaemonSets that a group selects and that do not tolerate the taint of value 0 are reported |

## Left out

- Fixed-width arithmetic: integers are unbounded, so duration saturation, 64-bit counters and the range check of the integer parser do not appear.
- Parsing of selectors and durations: selectors are predicates and durations integers; that parsing can fail is kept.
- SHA-256: the digest of a sequence is a given string of 64 hexadecimal digits; where two sequences must have different keys, that is a hypothesis (ten digits do not guarantee it, whatever the comment at internal/sequence/sequence.go:45 says).
- Messages, events, metrics and logging; a block keeps which pod or DaemonSet its message names.
- FindSequence and the pod webhook: the sequence found for a DaemonSet is a parameter.
- Admission requests, JSON patches, certificates, manifests, the manager, watches and the ticker of the orphan cleanup.
- Adding the finalizer, refusing node scope in lite mode, and metric deletion: single assignments without consequences for the rest.
- Editing podGroups during a run, and others editing the sequence's gate, label or taint: the runs assume neither.
- Label values are not checked for the syntax the API server demands.
- NodePlans.NodePlan.EvaluateNodes: sorting nodes is an insertion by name rather than the library's sort; with unique names the result is the same.
- LabelRun.SteeredPodsBindInOrder: takes it that a node joins without the sequence's label and taint and that nobody else writes them; so does TaintRun.
- TaintRun.TaintedPodsBindInOrder: is about pods created without a toleration of the taint values below their group, and others adding none.
- PlanOrder.OrderIndependence: which of several blockers a message names may change with the input order.
- PlanProgress.RoundsSatisfy: assumes that no pod matches two groups, because pods go to their first group and DaemonSets to every matching one.
- ClusterRun.SequenceCompletes: whether groups exist and their released pods become ready is up to the cluster.
- ClusterRun.GatesFallInOrder: the pods behind an advance are stored versions, each from some moment before it, not necessarily the same one.
- ClusterScoped.ReconcileClusterScoped: gates are removed on the pods as read; the list of applied removals stands for the stored pods, whose edit is PodEdits.PodObject.RemoveGate.
- Release.HandleDeletion: storing the object without its finalizer is not modelled.
