/** Giving keys back: releaseNodeKeys, handleDeletion and cleanupOrphanedNodeKeys of
    internal/controller/podsequence_controller.go. */
module Release {
  import opened Options
  import opened Collections
  import opened Decimal
  import opened Kube
  import opened Sequence
  import opened NodePlanSpec
  import opened PodEdits
  import opened Steering

  // ---- one node ----

  function ReleasedLabels(labels: Labels, stale: string -> bool, inUse: set<string>): Labels
  {
    map k | k in labels && (stale(k) ==> k in inUse) :: if stale(k) then RELEASED_VALUE else labels[k]
  }

  function NotStale(stale: string -> bool): Taint -> Option<Taint>
  {
    (t: Taint) => if stale(t.key) then None else Some(t)
  }

  function Released(node: Node, stale: string -> bool, inUse: set<string>): Node
  {
    node.(labels := ReleasedLabels(node.labels, stale, inUse), taints := Collect(NotStale(stale), node.taints))
  }

  /** The label patch of a node that shows these labels: used keys get the released value, others go. */
  function LabelPatch(labels: Labels, stale: string -> bool, inUse: set<string>): map<string, Option<string>>
  {
    map k | k in labels && stale(k) && LabelTouched(labels, k, k in inUse) :: if k in inUse then Some(RELEASED_VALUE) else None
  }

  predicate LabelTouched(labels: Labels, key: string, used: bool)
  {
    key in labels && !(used && labels[key] == RELEASED_VALUE)
  }

  method BuildLabelPatch(labels: Labels, stale: string -> bool, inUse: set<string>) returns (patch: map<string, Option<string>>)
    ensures patch == LabelPatch(labels, stale, inUse)
  {
    patch := map[];
    var left := labels.Keys;
    while left != {}
      invariant left <= labels.Keys
      invariant patch == LabelPatch(map k | k in labels && k !in left :: labels[k], stale, inUse)
      decreases left
    {
      var k :| k in left;
      left := left - {k};
      if stale(k) {
        if k in inUse {
          if labels[k] != RELEASED_VALUE {
            patch := patch[k := Some(RELEASED_VALUE)];
          }
        } else {
          patch := patch[k := None];
        }
      }
    }
    assert (map k | k in labels && k !in left :: labels[k]) == labels;
  }

  /** Applied to the labels it was made for, the patch gives the released ones, and it is empty exactly when they
      already are. */
  lemma {:induction false} LabelPatchReleases(labels: Labels, stale: string -> bool, inUse: set<string>)
    ensures MergeLabels(labels, LabelPatch(labels, stale, inUse)) == ReleasedLabels(labels, stale, inUse)
    ensures LabelPatch(labels, stale, inUse) == map[] <==> ReleasedLabels(labels, stale, inUse) == labels
  {
    var patch, after := LabelPatch(labels, stale, inUse), ReleasedLabels(labels, stale, inUse);
    assert MergeLabels(labels, patch) == after;
    if patch != map[] {
      var k :| k in patch;
      assert k !in after || after[k] != labels[k];
    } else {
      assert MergeLabels(labels, map[]) == labels;
    }
  }

  method DropStale(taints: seq<Taint>, stale: string -> bool) returns (newTaints: seq<Taint>)
    ensures newTaints == Collect(NotStale(stale), taints)
    ensures |newTaints| == |taints| ==> newTaints == taints
  {
    newTaints := [];
    for i := 0 to |taints|
      invariant newTaints == Collect(NotStale(stale), taints[..i])
      invariant |newTaints| <= i && (|newTaints| == i ==> newTaints == taints[..i])
    {
      CollectSnoc(NotStale(stale), taints, i);
      if !stale(taints[i].key) {
        newTaints := newTaints + [taints[i]];
      }
    }
    CollectWhole(NotStale(stale), taints);
    assert taints[..|taints|] == taints;
  }

  /** What releasing leaves of the stored node, and whether it is an error. As with a sync, the cached copy decides
      what to patch, the label patch carries no lock, and the taint patch needs a current copy. */
  function ReleaseOutcome(cached: Versioned, stored: Versioned, stale: string -> bool, inUse: set<string>,
                          labelPatch: PatchResult, taintPatch: PatchResult): (Versioned, bool)
  {
    var patch := LabelPatch(cached.node.labels, stale, inUse);
    if patch != map[] && labelPatch == Rejected then (stored, true)
    else
      var labelled := patch != map[] && labelPatch == Applied;
      var now := if labelled then Versioned(stored.node.(labels := MergeLabels(stored.node.labels, patch)), stored.version + 1) else stored;
      DropOutcome(if labelled then now else cached, now, stale, taintPatch)
  }

  /** The same for the taint patch alone, made from the copy seen. */
  function DropOutcome(seen: Versioned, stored: Versioned, stale: string -> bool, taintPatch: PatchResult): (Versioned, bool)
  {
    var taints := Collect(NotStale(stale), seen.node.taints);
    if taints == seen.node.taints then (stored, false)
    else if taintPatch == Applied && seen.version == stored.version then (Versioned(stored.node.(taints := taints), stored.version + 1), false)
    else (stored, taintPatch != NotFound)
  }

  /** Removes every stale taint. */
  method ReleaseTaints(node: NodeObject, stored: NodeObject, stale: string -> bool, taintPatch: PatchResult) returns (err: bool)
    requires stored != node
    modifies stored`taints, stored`version
    ensures (stored.Now(), err) == DropOutcome(old(node.Now()), old(stored.Now()), stale, taintPatch)
  {
    var newTaints := DropStale(node.taints, stale);
    if |newTaints| == |node.taints| {
      return false;
    }
    assert newTaints != node.taints;
    err := node.PatchTaints(stored, newTaints, taintPatch);
  }

  /** Removes every stale taint, and every stale label that is not in use; used ones get the released value. */
  method ReleaseNodeKeys(node: NodeObject, stored: NodeObject, stale: string -> bool, inUse: set<string>,
                         labelPatch: PatchResult, taintPatch: PatchResult) returns (err: bool)
    requires stored != node && CopyOf(node.Now(), stored.Now())
    modifies node`labels, node`taints, node`deleting, node`version, stored`labels, stored`taints, stored`version
    ensures (stored.Now(), err) == ReleaseOutcome(old(node.Now()), old(stored.Now()), stale, inUse, labelPatch, taintPatch)
  {
    var patch := BuildLabelPatch(node.labels, stale, inUse);
    if patch != map[] {
      if labelPatch == Rejected {
        return true;
      }
      node.PatchLabels(stored, patch, labelPatch);
    }
    err := ReleaseTaints(node, stored, stale, taintPatch);
  }

  /** From a current copy of a node that is still there, releasing succeeds exactly if neither patch it needs is
      rejected, and then leaves the node released. */
  lemma {:induction false} ReleaseSucceeds(stored: Versioned, stale: string -> bool, inUse: set<string>,
                                           labelPatch: PatchResult, taintPatch: PatchResult)
    requires labelPatch != NotFound && taintPatch != NotFound
    ensures var (after, err) := ReleaseOutcome(stored, stored, stale, inUse, labelPatch, taintPatch);
            && (!err ==> after.node == Released(stored.node, stale, inUse))
            && (err <==> || (labelPatch == Rejected && ReleasedLabels(stored.node.labels, stale, inUse) != stored.node.labels)
                         || (taintPatch == Rejected && Collect(NotStale(stale), stored.node.taints) != stored.node.taints))
  {
    LabelPatchReleases(stored.node.labels, stale, inUse);
  }

  /** Whatever the copy, releasing errs exactly if a patch it needs is rejected, or if its taint patch is made from a
      copy that is not current. */
  lemma {:induction false} ReleaseFailsIff(cached: Versioned, stored: Versioned, stale: string -> bool, inUse: set<string>,
                                           labelPatch: PatchResult, taintPatch: PatchResult)
    ensures var relabels := ReleasedLabels(cached.node.labels, stale, inUse) != cached.node.labels;
            var labelled := relabels && labelPatch == Applied;
            var taints := if labelled then stored.node.taints else cached.node.taints;
            ReleaseOutcome(cached, stored, stale, inUse, labelPatch, taintPatch).1 <==>
              || (relabels && labelPatch == Rejected)
              || ((exists t :: t in taints && stale(t.key))
                  && (taintPatch == Rejected || (taintPatch == Applied && !labelled && cached.version != stored.version)))
  {
    LabelPatchReleases(cached.node.labels, stale, inUse);
    DropsIff(stored.node.taints, stale);
    DropsIff(cached.node.taints, stale);
  }

  lemma {:induction false} DropsIff(taints: seq<Taint>, stale: string -> bool)
    ensures Collect(NotStale(stale), taints) != taints <==> exists t :: t in taints && stale(t.key)
    ensures |Collect(NotStale(stale), taints)| <= |taints|
  {
    if taints != [] {
      DropsIff(taints[..|taints| - 1], stale);
      assert taints == taints[..|taints| - 1] + [taints[|taints| - 1]];
    }
  }

  /** Whether the label of a stale key then admits group k: if the cached copy shows a label to be patched, exactly
      if the key is in use and the index in range; if not, exactly if the stored label did so before. */
  lemma {:induction false} ReleaseAdmitsIff(cached: Versioned, stored: Versioned, stale: string -> bool, inUse: set<string>,
                                            labelPatch: PatchResult, taintPatch: PatchResult, key: string, k: nat)
    requires k >= 1 && stale(key)
    ensures var after := ReleaseOutcome(cached, stored, stale, inUse, labelPatch, taintPatch).0.node;
            RequirementHolds(EligibilityRequirement(key, k), after.labels)
            <==> if LabelTouched(cached.node.labels, key, key in inUse) && labelPatch == Applied then key in inUse && k <= 999999
                 else RequirementHolds(EligibilityRequirement(key, k), stored.node.labels)
  {
    var patch := LabelPatch(cached.node.labels, stale, inUse);
    var after := ReleaseOutcome(cached, stored, stale, inUse, labelPatch, taintPatch).0.node;
    if patch != map[] && labelPatch == Applied {
      assert after.labels == MergeLabels(stored.node.labels, patch);
      if key in patch && key in inUse {
        ReleasedValueAdmits(after.labels, key, k);
      } else if key !in patch {
        assert key in after.labels <==> key in stored.node.labels;
      }
    } else {
      assert key in patch ==> patch != map[];
      assert after.labels == stored.node.labels;
    }
  }

  /** Nothing of a key that is not stale changes, however stale the copy and whatever becomes of the patches. */
  lemma {:induction false} OtherKeysUntouched(cached: Versioned, stored: Versioned, stale: string -> bool, inUse: set<string>,
                                              labelPatch: PatchResult, taintPatch: PatchResult, key: string)
    requires CopyOf(cached, stored) && !stale(key)
    ensures var after, before := ReleaseOutcome(cached, stored, stale, inUse, labelPatch, taintPatch).0.node, stored.node;
            && (key in after.labels <==> key in before.labels)
            && (key in before.labels ==> after.labels[key] == before.labels[key])
            && Collect(Own(key), after.taints) == Collect(Own(key), before.taints)
  {
    CollectCompose(NotStale(stale), Own(key), Own(key), stored.node.taints);
    ReleaseShape(cached, stored, stale, inUse, labelPatch, taintPatch);
  }

  lemma {:induction false} ReleaseShape(cached: Versioned, stored: Versioned, stale: string -> bool, inUse: set<string>,
                                        labelPatch: PatchResult, taintPatch: PatchResult)
    requires CopyOf(cached, stored)
    ensures var after, node := ReleaseOutcome(cached, stored, stale, inUse, labelPatch, taintPatch).0.node, stored.node;
            && (after.labels == node.labels || after.labels == MergeLabels(node.labels, LabelPatch(cached.node.labels, stale, inUse)))
            && (after.taints == node.taints || after.taints == Collect(NotStale(stale), node.taints))
            && after.name == node.name && after.deleting == node.deleting
  {
  }

  /** A stale key nobody needs is gone after one pass, whatever an earlier pass left behind. */
  lemma {:induction false} UnusedKeysAreRemoved(node: Node, stale: string -> bool, inUse: set<string>, key: string)
    requires stale(key) && key !in inUse
    ensures var after := Released(node, stale, inUse);
            key !in after.labels && forall t :: t in after.taints ==> t.key != key
  {
    var after := Released(node, stale, inUse);
    forall t | t in after.taints
      ensures t.key != key
    {
      CollectMember(NotStale(stale), node.taints, t);
    }
  }

  /** A pass that keeps a label for pending pods only delays its removal: once they are scheduled, the next
      pass ends where a single pass would have, and repeating a pass changes nothing. */
  lemma {:induction false} ReleaseConverges(node: Node, stale: string -> bool, inUse: set<string>, later: set<string>)
    requires later <= inUse
    ensures Released(Released(node, stale, inUse), stale, later) == Released(node, stale, later)
  {
    CollectCompose(NotStale(stale), NotStale(stale), NotStale(stale), node.taints);
    assert ReleasedLabels(ReleasedLabels(node.labels, stale, inUse), stale, later) == ReleasedLabels(node.labels, stale, later);
  }

  lemma {:induction false} ReleasedValueIsNumber()
    ensures RELEASED_VALUE == Itoa(999999)
  {
    assert Itoa(9) == "9" && Itoa(99) == "99" && Itoa(999) == "999";
    assert Itoa(9999) == "9999" && Itoa(99999) == "99999";
  }

  /** The released value satisfies the requirement of every group up to that number, and of no other. */
  lemma {:induction false} ReleasedValueAdmits(labels: Labels, key: string, k: nat)
    requires k >= 1 && key in labels && labels[key] == RELEASED_VALUE
    ensures RequirementHolds(EligibilityRequirement(key, k), labels) <==> k <= 999999
  {
    ReleasedValueIsNumber();
    GtOnLabel(labels, key, k, 999999);
  }

  // ---- deletion ----

  ghost predicate KeysInUse(inUse: set<string>, pods: seq<Pod>)
  {
    forall k :: k in inUse <==> Referenced(pods, k)
  }

  function OnlyKey(key: string): string -> bool
  {
    (k: string) => k == key
  }

  /** After deletion, the requirement of group k holds on a node exactly when a listed pending pod references the key
      and the index is in range, if the cached node shows a label to be patched; and otherwise exactly when the
      stored label met it before. */
  lemma {:induction false} DeletionAdmitsIff(cached: Versioned, stored: Versioned, key: string, pods: seq<Pod>, inUse: set<string>,
                                             labelPatch: PatchResult, taintPatch: PatchResult, k: nat)
    requires k >= 1 && KeysInUse(inUse, pods)
    ensures var after := ReleaseOutcome(cached, stored, OnlyKey(key), inUse, labelPatch, taintPatch).0.node;
            RequirementHolds(EligibilityRequirement(key, k), after.labels)
            <==> if LabelTouched(cached.node.labels, key, Referenced(pods, key)) && labelPatch == Applied
                 then Referenced(pods, key) && k <= 999999
                 else RequirementHolds(EligibilityRequirement(key, k), stored.node.labels)
  {
    ReleaseAdmitsIff(cached, stored, OnlyKey(key), inUse, labelPatch, taintPatch, key, k);
  }

  /** Deletion leaves the keys of other sequences alone. */
  lemma {:induction false} DeletionSparesOthers(cached: Versioned, stored: Versioned, key: string, inUse: set<string>,
                                                labelPatch: PatchResult, taintPatch: PatchResult, other: string)
    requires CopyOf(cached, stored) && other != key
    ensures var after, before := ReleaseOutcome(cached, stored, OnlyKey(key), inUse, labelPatch, taintPatch).0.node, stored.node;
            && (other in after.labels <==> other in before.labels)
            && (other in before.labels ==> after.labels[other] == before.labels[other])
            && Collect(Own(other), after.taints) == Collect(Own(other), before.taints)
  {
    OtherKeysUntouched(cached, stored, OnlyKey(key), inUse, labelPatch, taintPatch, other);
  }

  /** The pod is pending on the requirement of group k. */
  predicate PendingOn(p: Pod, key: string, k: nat)
    requires k >= 1
  {
    && p.spec.nodeName == "" && !p.deleting && p.phase != Succeeded && p.phase != Failed && p.spec.required.Some?
    && exists t :: t in p.spec.required.value && EligibilityRequirement(key, k) in t.expressions
  }

  lemma {:induction false} PendingIsReferenced(p: Pod, digest: Digest, k: nat, pods: seq<Pod>)
    requires k >= 1 && PendingOn(p, EligibilityKey(digest), k) && p in pods
    ensures Referenced(pods, EligibilityKey(digest))
  {
    EligibilityKeyIsNotLegacy(digest);
    assert PendingRequires(p, EligibilityKey(digest));
  }

  /** On a node whose copy shows the label as it is, deleting the sequence strands no pod it lists: the pod's
      requirement holds once the label patch is applied. */
  lemma {:induction false} DeletionNeverStrands(cached: Versioned, stored: Versioned, digest: Digest, pods: seq<Pod>, inUse: set<string>,
                                                taintPatch: PatchResult, p: Pod, k: nat)
    requires 1 <= k <= 999999 && KeysInUse(inUse, pods) && p in pods && PendingOn(p, EligibilityKey(digest), k)
    requires ShowsLabel(cached.node.labels, stored.node.labels, EligibilityKey(digest))
    ensures var after := ReleaseOutcome(cached, stored, OnlyKey(EligibilityKey(digest)), inUse, Applied, taintPatch).0.node;
            RequirementHolds(EligibilityRequirement(EligibilityKey(digest), k), after.labels)
  {
    var key := EligibilityKey(digest);
    PendingIsReferenced(p, digest, k, pods);
    DeletionAdmitsIff(cached, stored, key, pods, inUse, Applied, taintPatch, k);
    if cached.node.labels[key] == RELEASED_VALUE {
      ReleasedValueAdmits(stored.node.labels, key, k);
    }
  }

  /** The copy shows the label of the key, and if it is the released value, the stored one is, too. */
  predicate ShowsLabel(cached: Labels, stored: Labels, key: string)
  {
    key in cached && (cached[key] == RELEASED_VALUE ==> key in stored && stored[key] == RELEASED_VALUE)
  }

  lemma {:induction false} NotMetNoMatch(node: Node, key: string, q: Pod, k: nat)
    requires k >= 1 && Demands(q.spec.required, EligibilityRequirement(key, k))
    requires !RequirementHolds(EligibilityRequirement(key, k), node.labels)
    ensures !AffinityMatches(q.spec, node)
  {
    if RequiredMatches(q.spec.required, node) {
      DemandedRequirementHolds(q.spec.required, EligibilityRequirement(key, k), node);
    }
  }

  /** A copy from before the label was set strands a listed pod: the label keeps its count although the pod needs
      more, and without own taints to remove the release succeeds. A later release from a current copy repairs it. */
  lemma {:induction false} StaleCopyStrands(cached: Versioned, stored: Versioned, digest: Digest, pods: seq<Pod>, inUse: set<string>,
                                            p: Pod, k: nat, count: nat)
    requires KeysInUse(inUse, pods) && p in pods && count < k && PendingOn(p, EligibilityKey(digest), k)
    requires Demands(p.spec.required, EligibilityRequirement(EligibilityKey(digest), k))
    requires var key := EligibilityKey(digest);
             && key !in cached.node.labels && key in stored.node.labels && stored.node.labels[key] == Itoa(count)
             && Collect(NotStale(OnlyKey(key)), cached.node.taints) == cached.node.taints
    ensures var (after, err) := ReleaseOutcome(cached, stored, OnlyKey(EligibilityKey(digest)), inUse, Applied, Applied);
            EligibilityKey(digest) in inUse && !AffinityMatches(p.spec, after.node) && after == stored && !err
  {
    var key := EligibilityKey(digest);
    PendingIsReferenced(p, digest, k, pods);
    DeletionAdmitsIff(cached, stored, key, pods, inUse, Applied, Applied, k);
    GtOnLabel(stored.node.labels, key, k, count);
    var after := ReleaseOutcome(cached, stored, OnlyKey(key), inUse, Applied, Applied).0;
    assert LabelPatch(cached.node.labels, OnlyKey(key), inUse) == map[];
    NotMetNoMatch(after.node, key, p, k);
  }

  /** Whatever an earlier pass left of the label, a later one from a current copy, such as the orphan cleanup, makes
      it admit the pods still pending on it. */
  lemma {:induction false} LaterReleaseRepairs(stored: Versioned, stale: string -> bool, digest: Digest, pods: seq<Pod>, inUse: set<string>,
                                               taintPatch: PatchResult, p: Pod, k: nat)
    requires 1 <= k <= 999999 && KeysInUse(inUse, pods) && p in pods && PendingOn(p, EligibilityKey(digest), k)
    requires stale(EligibilityKey(digest)) && EligibilityKey(digest) in stored.node.labels
    ensures var after := ReleaseOutcome(stored, stored, stale, inUse, Applied, taintPatch).0.node;
            RequirementHolds(EligibilityRequirement(EligibilityKey(digest), k), after.labels)
  {
    var key := EligibilityKey(digest);
    PendingIsReferenced(p, digest, k, pods);
    ReleaseAdmitsIff(stored, stored, stale, inUse, Applied, taintPatch, key, k);
    if stored.node.labels[key] == RELEASED_VALUE {
      ReleasedValueAdmits(stored.node.labels, key, k);
    }
  }

  lemma {:induction false} UnusedLabelGoes(cached: Versioned, stored: Versioned, stale: string -> bool, inUse: set<string>,
                                           taintPatch: PatchResult, key: string)
    requires stale(key) && key !in inUse && (key in cached.node.labels || key !in stored.node.labels)
    ensures key !in ReleaseOutcome(cached, stored, stale, inUse, Applied, taintPatch).0.node.labels
  {
    var patch := LabelPatch(cached.node.labels, stale, inUse);
    var after := ReleaseOutcome(cached, stored, stale, inUse, Applied, taintPatch).0.node;
    if key in cached.node.labels {
      assert key in patch && patch[key] == None;
    }
    assert after.labels == if patch != map[] then MergeLabels(stored.node.labels, patch) else stored.node.labels;
  }

  /** A listing in which no pending pod references the key removes the labels the copies show, and a steered pod
      then matches no such node, not even after another pass from current copies that does see it. */
  lemma {:induction false} UnreferencedListingStrands(cached: Versioned, stored: Versioned, key: string, listed: seq<Pod>, inUse: set<string>,
                                                      later: set<string>, first: PatchResult, second: PatchResult, q: Pod, k: nat)
    requires k >= 1 && KeysInUse(inUse, listed) && !Referenced(listed, key)
    requires key in cached.node.labels || key !in stored.node.labels
    requires Demands(q.spec.required, EligibilityRequirement(key, k))
    ensures var after := ReleaseOutcome(cached, stored, OnlyKey(key), inUse, Applied, first).0;
            && !AffinityMatches(q.spec, after.node)
            && !AffinityMatches(q.spec, ReleaseOutcome(after, after, OnlyKey(key), later, Applied, second).0.node)
  {
    var after := ReleaseOutcome(cached, stored, OnlyKey(key), inUse, Applied, first).0;
    DeletionAdmitsIff(cached, stored, key, listed, inUse, Applied, first, k);
    NotMetNoMatch(after.node, key, q, k);
    UnusedLabelGoes(cached, stored, OnlyKey(key), inUse, first, key);
    ReleaseAdmitsIff(after, after, OnlyKey(key), later, Applied, second, key, k);
    NotMetNoMatch(ReleaseOutcome(after, after, OnlyKey(key), later, Applied, second).0.node, key, q, k);
  }

  /** A failed pod list, which is read as an empty one, is such a listing. */
  lemma {:induction false} FailedListStrands(cached: Versioned, stored: Versioned, key: string, inUse: set<string>,
                                             later: set<string>, first: PatchResult, second: PatchResult, q: Pod, k: nat)
    requires k >= 1 && KeysInUse(inUse, []) && (key in cached.node.labels || key !in stored.node.labels)
    requires Demands(q.spec.required, EligibilityRequirement(key, k))
    ensures var after := ReleaseOutcome(cached, stored, OnlyKey(key), inUse, Applied, first).0;
            && !AffinityMatches(q.spec, after.node)
            && !AffinityMatches(q.spec, ReleaseOutcome(after, after, OnlyKey(key), later, Applied, second).0.node)
  {
    UnreferencedListingStrands(cached, stored, key, [], inUse, later, first, second, q, k);
  }

  /** A pod that was steered and released since it was listed. */
  function Since(p: Pod, a: PodAction, gate: string): Pod
  {
    p.(spec := StoredAfter(p.spec, a, gate, Applied, Applied), version := p.version + 2)
  }

  lemma {:induction false} SteeredSince(p: Pod, a: PodAction, gate: string, key: string, k: nat)
    requires k >= 1 && HasGate(p.spec, gate) && a.addAffinity == Some(EligibilityRequirement(key, k))
    ensures var q := Since(p, a, gate);
            !HasGate(q.spec, gate) && Demands(q.spec.required, EligibilityRequirement(key, k))
  {
    GateGoneMeansConstrained(p.spec, a, gate, Applied, Applied);
    WithRequirementDemands(p.spec.required, key, k);
  }

  /** A stale listing is such a listing as well: it shows a pod still gated whose two patches have landed since,
      so its key does not count as used and the pod matches no node whose label was seen. */
  lemma {:induction false} StaleListingStrands(cached: Versioned, stored: Versioned, key: string, listed: seq<Pod>, inUse: set<string>,
                                               later: set<string>, first: PatchResult, second: PatchResult,
                                               p: Pod, a: PodAction, gate: string, k: nat)
    requires k >= 1 && KeysInUse(inUse, listed) && p in listed && !Referenced(listed, key)
    requires key in cached.node.labels || key !in stored.node.labels
    requires HasGate(p.spec, gate) && a.addAffinity == Some(EligibilityRequirement(key, k))
    ensures var q, after := Since(p, a, gate), ReleaseOutcome(cached, stored, OnlyKey(key), inUse, Applied, first).0;
            && !HasGate(q.spec, gate) && !AffinityMatches(q.spec, after.node)
            && !AffinityMatches(q.spec, ReleaseOutcome(after, after, OnlyKey(key), later, Applied, second).0.node)
  {
    SteeredSince(p, a, gate, key, k);
    UnreferencedListingStrands(cached, stored, key, listed, inUse, later, first, second, Since(p, a, gate), k);
  }

  /** Such a listing exists: a single gated pod without affinity. */
  lemma {:induction false} GatedPodIsNoReference(p: Pod, key: string)
    requires p.spec.required == None
    ensures !Referenced([p], key)
  {
  }

  // ---- a switch to Taint mode ----

  /** After a sync in Taint mode the requirement of group k, left from NodeLabel mode, holds on a node exactly when a
      listed pending pod references the key and the index is in range, if the cached node shows a label to be
      patched; and otherwise exactly when the stored label met it before. */
  lemma {:induction false} TaintSwitchAdmitsIff(cached: Versioned, stored: Versioned, key: string, numGroups: nat, st: NodeState,
                                                pods: seq<Pod>, labelPatch: PatchResult, taintPatch: PatchResult, k: nat)
    requires k >= 1
    ensures var after := SyncOutcome(cached, stored, key, TaintMethod, numGroups, st, Referenced(pods, key), labelPatch, taintPatch).0.node;
            RequirementHolds(EligibilityRequirement(key, k), after.labels)
            <==> if LabelTouched(cached.node.labels, key, Referenced(pods, key)) && labelPatch == Applied
                 then Referenced(pods, key) && k <= 999999
                 else RequirementHolds(EligibilityRequirement(key, k), stored.node.labels)
  {
    var after := SyncOutcome(cached, stored, key, TaintMethod, numGroups, st, Referenced(pods, key), labelPatch, taintPatch).0.node;
    if LabelTouched(cached.node.labels, key, Referenced(pods, key)) && labelPatch == Applied && Referenced(pods, key) {
      ReleasedValueAdmits(after.labels, key, k);
    }
  }

  /** On a node whose copy shows the label as it is, switching to Taint mode strands no pod it lists either. */
  lemma {:induction false} TaintSwitchNeverStrands(cached: Versioned, stored: Versioned, digest: Digest, numGroups: nat, st: NodeState,
                                                   pods: seq<Pod>, taintPatch: PatchResult, p: Pod, k: nat)
    requires 1 <= k <= 999999 && p in pods && PendingOn(p, EligibilityKey(digest), k)
    requires ShowsLabel(cached.node.labels, stored.node.labels, EligibilityKey(digest))
    ensures var key := EligibilityKey(digest);
            var after := SyncOutcome(cached, stored, key, TaintMethod, numGroups, st, Referenced(pods, key), Applied, taintPatch).0.node;
            RequirementHolds(EligibilityRequirement(key, k), after.labels)
  {
    var key := EligibilityKey(digest);
    PendingIsReferenced(p, digest, k, pods);
    TaintSwitchAdmitsIff(cached, stored, key, numGroups, st, pods, Applied, taintPatch, k);
    if cached.node.labels[key] == RELEASED_VALUE {
      ReleasedValueAdmits(stored.node.labels, key, k);
    }
  }

  /** A copy from before the label was set strands a listed pod here, too, until a sync from a current copy. */
  lemma {:induction false} StaleCopySwitch(cached: Versioned, stored: Versioned, digest: Digest, numGroups: nat, st: NodeState,
                                           pods: seq<Pod>, later: NodeState, first: PatchResult, second: PatchResult,
                                           p: Pod, k: nat, count: nat)
    requires p in pods && count < k <= 999999 && PendingOn(p, EligibilityKey(digest), k)
    requires Demands(p.spec.required, EligibilityRequirement(EligibilityKey(digest), k))
    requires var key := EligibilityKey(digest);
             key !in cached.node.labels && key in stored.node.labels && stored.node.labels[key] == Itoa(count)
    ensures var key, used := EligibilityKey(digest), Referenced(pods, EligibilityKey(digest));
            var after := SyncOutcome(cached, stored, key, TaintMethod, numGroups, st, used, Applied, first).0;
            && used && !AffinityMatches(p.spec, after.node)
            && RequirementHolds(EligibilityRequirement(key, k),
                                SyncOutcome(after, after, key, TaintMethod, numGroups, later, used, Applied, second).0.node.labels)
  {
    var key := EligibilityKey(digest);
    PendingIsReferenced(p, digest, k, pods);
    TaintSwitchAdmitsIff(cached, stored, key, numGroups, st, pods, Applied, first, k);
    GtOnLabel(stored.node.labels, key, k, count);
    var after := SyncOutcome(cached, stored, key, TaintMethod, numGroups, st, true, Applied, first).0;
    NotMetNoMatch(after.node, key, p, k);
    assert after.node.labels == stored.node.labels;
    TaintSwitchNeverStrands(after, after, digest, numGroups, later, pods, second, p, k);
  }

  /** A stale listing strands a pod here too, now and at every later sync in Taint mode from a current copy. */
  lemma {:induction false} StaleSwitchStrands(cached: Versioned, stored: Versioned, key: string, numGroups: nat, st: NodeState,
                                              listed: seq<Pod>, later: NodeState, inUse: bool, first: PatchResult, second: PatchResult,
                                              p: Pod, a: PodAction, gate: string, k: nat)
    requires k >= 1 && p in listed && !Referenced(listed, key)
    requires key in cached.node.labels || key !in stored.node.labels
    requires HasGate(p.spec, gate) && a.addAffinity == Some(EligibilityRequirement(key, k))
    ensures var q := Since(p, a, gate);
            var after := SyncOutcome(cached, stored, key, TaintMethod, numGroups, st, Referenced(listed, key), Applied, first).0;
            && !HasGate(q.spec, gate) && !AffinityMatches(q.spec, after.node)
            && !AffinityMatches(q.spec, SyncOutcome(after, after, key, TaintMethod, numGroups, later, inUse, Applied, second).0.node)
  {
    SteeredSince(p, a, gate, key, k);
    var after := SyncOutcome(cached, stored, key, TaintMethod, numGroups, st, false, Applied, first).0;
    assert key !in after.node.labels;
    NotMetNoMatch(after.node, key, Since(p, a, gate), k);
    NotMetNoMatch(SyncOutcome(after, after, key, TaintMethod, numGroups, later, inUse, Applied, second).0.node, key, Since(p, a, gate), k);
  }

  /** Once no pending pod references the key, the next sync in Taint mode removes the label. */
  lemma {:induction false} TaintSwitchCleansUp(node: Node, key: string, numGroups: nat, st: NodeState)
    ensures key !in Synced(node, key, TaintMethod, numGroups, st, false).labels
  {
  }

  /** Pods a deleted sequence has to let go. */
  predicate Managed(s: PodSequence, p: Pod)
  {
    GroupIndexForPod(s, p) >= 0 || OptedIn(s, p)
  }

  /** Removing the gate of the i-th listed pod goes wrong: its patch is rejected, or the listed copy is stale. */
  predicate GateFails(s: PodSequence, p: Pod, version: nat, patch: PatchResult)
  {
    HasGate(p.spec, GateName(s)) && Managed(s, p) && (patch == Rejected || (patch == Applied && version != p.version))
  }

  /** The stored spec of a listed pod afterwards, whatever happens to the others. */
  function SpecAfterDeletion(s: PodSequence, p: Pod, before: PodSpec, version: nat, patch: PatchResult): PodSpec
  {
    if HasGate(p.spec, GateName(s)) && Managed(s, p) && patch == Applied && version == p.version then Ungated(p.spec, GateName(s))
    else before
  }

  method ReleaseGates(s: PodSequence, pods: seq<Pod>, stored: seq<PodObject>, podPatches: seq<PatchResult>) returns (failed: bool)
    requires |stored| == |podPatches| == |pods|
    requires forall i, j :: 0 <= i < j < |stored| ==> stored[i] != stored[j]
    modifies stored
    ensures forall i :: 0 <= i < |stored| ==>
              stored[i].spec == SpecAfterDeletion(s, pods[i], old(stored[i].spec), old(stored[i].version), podPatches[i])
    ensures failed <==> exists i :: 0 <= i < |stored| && GateFails(s, pods[i], old(stored[i].version), podPatches[i])
  {
    failed := false;
    for i := 0 to |pods|
      invariant forall j :: i <= j < |stored| ==> stored[j].spec == old(stored[j].spec) && stored[j].version == old(stored[j].version)
      invariant forall j :: 0 <= j < i ==>
                  stored[j].spec == SpecAfterDeletion(s, pods[j], old(stored[j].spec), old(stored[j].version), podPatches[j])
      invariant failed <==> exists j :: 0 <= j < i && GateFails(s, pods[j], old(stored[j].version), podPatches[j])
    {
      assert forall j :: 0 <= j < |stored| && j != i ==> stored[j] != stored[i];
      if HasGate(pods[i].spec, GateName(s)) && Managed(s, pods[i]) {
        var local := new PodObject(pods[i].spec, pods[i].version);
        var err := local.RemoveGate(stored[i], GateName(s), podPatches[i]);
        failed := failed || err;
      }
    }
  }

  /** Every stored node has a cached copy. */
  ghost predicate Copies(cached: seq<Versioned>, stored: seq<NodeObject>)
    reads stored
  {
    && |cached| == |stored| && (forall i :: 0 <= i < |stored| ==> CopyOf(cached[i], stored[i].Now()))
    && (forall i, j :: 0 <= i < j < |stored| ==> stored[i] != stored[j])
  }

  /** Runs releaseNodeKeys on one node. */
  method ReleaseOne(cached: Versioned, stored: NodeObject, stale: string -> bool, inUse: set<string>,
                    labelPatch: PatchResult, taintPatch: PatchResult) returns (err: bool)
    requires CopyOf(cached, stored.Now())
    modifies stored
    ensures (stored.Now(), err) == ReleaseOutcome(cached, old(stored.Now()), stale, inUse, labelPatch, taintPatch)
  {
    var local := new NodeObject(cached);
    err := ReleaseNodeKeys(local, stored, stale, inUse, labelPatch, taintPatch);
  }

  /** And on every node; the others go on when one fails. */
  method ReleaseAllNodes(cached: seq<Versioned>, stored: seq<NodeObject>, stale: string -> bool, inUse: set<string>,
                         labelPatches: seq<PatchResult>, taintPatches: seq<PatchResult>) returns (failed: bool)
    requires Copies(cached, stored) && |stored| == |labelPatches| == |taintPatches|
    modifies stored
    ensures forall i :: 0 <= i < |stored| ==>
              stored[i].Now() == ReleaseOutcome(cached[i], old(stored[i].Now()), stale, inUse, labelPatches[i], taintPatches[i]).0
    ensures failed <==> exists i :: 0 <= i < |stored|
                                    && ReleaseOutcome(cached[i], old(stored[i].Now()), stale, inUse, labelPatches[i], taintPatches[i]).1
  {
    failed := false;
    for i := 0 to |stored|
      invariant forall j :: i <= j < |stored| ==> stored[j].Now() == old(stored[j].Now())
      invariant forall j :: 0 <= j < i ==>
                  stored[j].Now() == ReleaseOutcome(cached[j], old(stored[j].Now()), stale, inUse, labelPatches[j], taintPatches[j]).0
      invariant failed <==> exists j :: 0 <= j < i
                                        && ReleaseOutcome(cached[j], old(stored[j].Now()), stale, inUse, labelPatches[j], taintPatches[j]).1
    {
      label before:
      assert stored[i].Now() == old(stored[i].Now());
      var err := ReleaseOne(cached[i], stored[i], stale, inUse, labelPatches[i], taintPatches[i]);
      assert forall j :: 0 <= j < |stored| && j != i ==> stored[j].Now() == old@before(stored[j].Now());
      failed := failed || err;
    }
  }

  /** Releases all gates, then the node keys, and drops the finalizer exactly when nothing failed. A failed pod
      or node list is read as an empty one. stored[i] and the patch results belong to the i-th listed pod, and
      likewise for the nodes with their cached copies; inUse are the keys pending pods were seen to require. */
  method HandleDeletion(s: PodSequence, podsListed: bool, pods: seq<Pod>, stored: seq<PodObject>, podPatches: seq<PatchResult>,
                        nodeScopeEnabled: bool, nodesListed: bool, cached: seq<Versioned>, nodes: seq<NodeObject>,
                        labelPatches: seq<PatchResult>, taintPatches: seq<PatchResult>)
    returns (finalizerDropped: bool, ghost inUse: set<string>)
    requires (podsListed || pods == []) && (nodesListed || nodes == [])
    requires |stored| == |podPatches| == |pods| && |nodes| == |labelPatches| == |taintPatches|
    requires forall i, j :: 0 <= i < j < |stored| ==> stored[i] != stored[j]
    requires Copies(cached, nodes)
    modifies stored, nodes
    ensures KeysInUse(inUse, pods)
    ensures forall i :: 0 <= i < |stored| ==>
              stored[i].spec == SpecAfterDeletion(s, pods[i], old(stored[i].spec), old(stored[i].version), podPatches[i])
    ensures var stale := OnlyKey(EligibilityKey(s.digest));
            forall i :: 0 <= i < |nodes| ==>
              nodes[i].Now() == if s.scope == NodeScope && nodeScopeEnabled
                                then ReleaseOutcome(cached[i], old(nodes[i].Now()), stale, inUse, labelPatches[i], taintPatches[i]).0
                                else old(nodes[i].Now())
    ensures var stale := OnlyKey(EligibilityKey(s.digest));
            finalizerDropped <==>
              && podsListed
              && (forall i :: 0 <= i < |stored| ==> !GateFails(s, pods[i], old(stored[i].version), podPatches[i]))
              && (s.scope == NodeScope && nodeScopeEnabled ==>
                    && nodesListed
                    && forall i :: 0 <= i < |nodes| ==>
                         !ReleaseOutcome(cached[i], old(nodes[i].Now()), stale, inUse, labelPatches[i], taintPatches[i]).1)
  {
    var gatesFailed := ReleaseGates(s, pods, stored, podPatches);
    var used := PendingRequiredKeys(pods);
    inUse := used;
    var keysFailed := false;
    if EffectiveScope(s) == NodeScope && nodeScopeEnabled {
      var failed := ReleaseAllNodes(cached, nodes, OnlyKey(EligibilityKey(s.digest)), used, labelPatches, taintPatches);
      keysFailed := failed || !nodesListed;
    }
    return !gatesFailed && !keysFailed && podsListed, used;
  }

  /** The pod is a member of a group, or opted in by its label. */
  predicate InCharge(s: PodSequence, p: Pod)
  {
    GroupIndexForPod(s, p) >= 0 || (if SEQUENCE_LABEL in p.labels then p.labels[SEQUENCE_LABEL] == s.name else s.name == "")
  }

  /** Once the finalizer is dropped, every pod the sequence is in charge of that was listed with the gate and still
      exists lost it; the others keep theirs, and are no reason to fail. */
  lemma {:induction false} DroppedMeansLetGo(s: PodSequence, p: Pod, before: PodSpec, version: nat, patch: PatchResult)
    requires GateName(s) in p.spec.gates && patch != NotFound
    ensures InCharge(s, p) && !GateFails(s, p, version, patch) ==>
              && SpecAfterDeletion(s, p, before, version, patch) == Ungated(p.spec, GateName(s))
              && GateName(s) !in SpecAfterDeletion(s, p, before, version, patch).gates
    ensures InCharge(s, p) ==> (GateFails(s, p, version, patch) <==> patch == Rejected || version != p.version)
    ensures patch != Applied || version != p.version ==> SpecAfterDeletion(s, p, before, version, patch) == before
    ensures !InCharge(s, p) ==> SpecAfterDeletion(s, p, before, version, patch) == before && !GateFails(s, p, version, patch)
  {
    WithoutGateMember(p.spec.gates, GateName(s), GateName(s));
  }

  // ---- orphan cleanup ----

  ghost function ValidKeys(sequences: seq<PodSequence>): set<string>
  {
    set s | s in sequences && EffectiveScope(s) == NodeScope :: EligibilityKey(s.digest)
  }

  function Orphaned(valid: set<string>): string -> bool
  {
    (k: string) => (IsEligibilityKey(k) && k !in valid) || IsLegacyGroupTaintKey(k)
  }

  /** A failed list of sequences, pods or nodes ends the cleanup before it touches a node. */
  method CleanupOrphanedNodeKeys(sequences: Option<seq<PodSequence>>, pods: Option<seq<Pod>>, nodesListed: bool,
                                 cached: seq<Versioned>, nodes: seq<NodeObject>, labelPatches: seq<PatchResult>, taintPatches: seq<PatchResult>)
    returns (failed: bool, ghost inUse: set<string>)
    requires Copies(cached, nodes) && |nodes| == |labelPatches| == |taintPatches|
    modifies nodes
    ensures sequences.None? || pods.None? || !nodesListed ==>
              failed && forall i :: 0 <= i < |nodes| ==> nodes[i].Now() == old(nodes[i].Now())
    ensures sequences.Some? && pods.Some? && nodesListed ==>
              var stale := Orphaned(ValidKeys(sequences.value));
              && KeysInUse(inUse, pods.value)
              && (forall i :: 0 <= i < |nodes| ==>
                    nodes[i].Now() == ReleaseOutcome(cached[i], old(nodes[i].Now()), stale, inUse, labelPatches[i], taintPatches[i]).0)
              && (failed <==> exists i :: 0 <= i < |nodes|
                                          && ReleaseOutcome(cached[i], old(nodes[i].Now()), stale, inUse, labelPatches[i], taintPatches[i]).1)
  {
    inUse := {};
    if sequences.None? {
      return true, {};
    }
    var valid := CollectValidKeys(sequences.value);
    if pods.None? {
      return true, {};
    }
    var used := PendingRequiredKeys(pods.value);
    inUse := used;
    if !nodesListed {
      return true, inUse;
    }
    failed := ReleaseAllNodes(cached, nodes, Orphaned(valid), used, labelPatches, taintPatches);
  }

  method CollectValidKeys(sequences: seq<PodSequence>) returns (valid: set<string>)
    ensures valid == ValidKeys(sequences)
  {
    valid := {};
    for i := 0 to |sequences|
      invariant valid == ValidKeys(sequences[..i])
    {
      assert sequences[..i + 1] == sequences[..i] + [sequences[i]];
      if EffectiveScope(sequences[i]) == NodeScope {
        valid := valid + {EligibilityKey(sequences[i].digest)};
      }
    }
    assert sequences[..|sequences|] == sequences;
  }

  /** Cleanup never touches the key of a live node-scoped sequence. */
  lemma {:induction false} CleanupSparesLiveSequences(cached: Versioned, stored: Versioned, sequences: seq<PodSequence>, inUse: set<string>,
                                                      labelPatch: PatchResult, taintPatch: PatchResult, s: PodSequence)
    requires CopyOf(cached, stored) && s in sequences && EffectiveScope(s) == NodeScope
    ensures var key, before := EligibilityKey(s.digest), stored.node;
            var after := ReleaseOutcome(cached, stored, Orphaned(ValidKeys(sequences)), inUse, labelPatch, taintPatch).0.node;
            && (key in after.labels <==> key in before.labels)
            && (key in before.labels ==> after.labels[key] == before.labels[key])
            && Collect(Own(key), after.taints) == Collect(Own(key), before.taints)
  {
    EligibilityKeyIsNotLegacy(s.digest);
    OtherKeysUntouched(cached, stored, Orphaned(ValidKeys(sequences)), inUse, labelPatch, taintPatch, EligibilityKey(s.digest));
  }

  /** The key of a sequence that is gone, or no longer node-scoped, is gone from a node after a cleanup from a
      current copy that succeeds, once no pending pod needs it. */
  lemma {:induction false} CleanupRemovesOrphans(stored: Versioned, sequences: seq<PodSequence>, inUse: set<string>,
                                                 labelPatch: PatchResult, taintPatch: PatchResult, digest: Digest)
    requires forall s :: s in sequences && EffectiveScope(s) == NodeScope ==> EligibilityKey(s.digest) != EligibilityKey(digest)
    requires EligibilityKey(digest) !in inUse && labelPatch != NotFound && taintPatch != NotFound
    requires !ReleaseOutcome(stored, stored, Orphaned(ValidKeys(sequences)), inUse, labelPatch, taintPatch).1
    ensures var after := ReleaseOutcome(stored, stored, Orphaned(ValidKeys(sequences)), inUse, labelPatch, taintPatch).0.node;
            EligibilityKey(digest) !in after.labels && forall t :: t in after.taints ==> t.key != EligibilityKey(digest)
  {
    EligibilityKeyIsNotLegacy(digest);
    ReleaseSucceeds(stored, Orphaned(ValidKeys(sequences)), inUse, labelPatch, taintPatch);
    UnusedKeysAreRemoved(stored.node, Orphaned(ValidKeys(sequences)), inUse, EligibilityKey(digest));
  }

  predicate HasAt(s: string, part: string, i: int)
  {
    0 <= i && i + |part| <= |s| && s[i..i + |part|] == part
  }

  /** The form of the taint keys of earlier versions. */
  ghost predicate Outdated(key: string)
  {
    HasAt(key, DOMAIN, 0) && (exists i :: HasAt(key, "-group-", i)) && HasAt(key, "-blocked", |key| - 8)
  }

  lemma {:induction false} HasAtIsPrefix(s: string, part: string, i: int)
    requires 0 <= i <= |s| - |part|
    ensures HasAt(s, part, i) <==> part <= s[i..]
  {
    assert s[i..][..|part|] == s[i..i + |part|];
  }

  lemma {:induction false} HasAtSome(s: string, part: string)
    ensures (exists i :: HasAt(s, part, i)) <==> Contains(s, part)
  {
    if i :| HasAt(s, part, i) {
      HasAtIsPrefix(s, part, i);
    }
    if i :| 0 <= i <= |s| - |part| && part <= s[i..] {
      HasAtIsPrefix(s, part, i);
    }
  }

  lemma {:induction false} HasAtEnds(s: string, part: string)
    ensures HasAt(s, part, 0) <==> part <= s
    ensures HasAt(s, part, |s| - |part|) <==> HasSuffix(s, part)
  {
    if |part| <= |s| {
      HasAtIsPrefix(s, part, 0);
      assert s[0..] == s && s[|s| - |part|..|s| - |part| + |part|] == s[|s| - |part|..];
    }
  }

  lemma {:induction false} OutdatedIsLegacy(key: string)
    ensures Outdated(key) <==> IsLegacyGroupTaintKey(key)
  {
    HasAtEnds(key, DOMAIN);
    HasAtSome(key, "-group-");
    HasAtEnds(key, "-blocked");
  }

  /** Taints of earlier versions go with a cleanup from a current copy that succeeds, and so do labels of that form
      that are not in use; keys that are neither of that form nor of a sequence are never touched. */
  lemma {:induction false} CleanupOfOtherKeys(cached: Versioned, stored: Versioned, sequences: seq<PodSequence>, inUse: set<string>,
                                              labelPatch: PatchResult, taintPatch: PatchResult, key: string)
    requires CopyOf(cached, stored)
    ensures var (after, err) := ReleaseOutcome(cached, stored, Orphaned(ValidKeys(sequences)), inUse, labelPatch, taintPatch);
            && (!(DOMAIN + "seq-" <= key) && !Outdated(key) ==>
                  && (key in after.node.labels <==> key in stored.node.labels)
                  && (key in stored.node.labels ==> after.node.labels[key] == stored.node.labels[key])
                  && Collect(Own(key), after.node.taints) == Collect(Own(key), stored.node.taints))
            && (cached == stored && !err && labelPatch != NotFound && taintPatch != NotFound && Outdated(key) ==>
                  && (key in after.node.labels ==> key in inUse)
                  && forall t :: t in after.node.taints ==> t.key != key)
  {
    OutdatedIsLegacy(key);
    if !(DOMAIN + "seq-" <= key) && !Outdated(key) {
      OtherKeysUntouched(cached, stored, Orphaned(ValidKeys(sequences)), inUse, labelPatch, taintPatch, key);
    } else if cached == stored && labelPatch != NotFound && taintPatch != NotFound {
      ReleaseSucceeds(stored, Orphaned(ValidKeys(sequences)), inUse, labelPatch, taintPatch);
      NoStaleTaints(stored.node, Orphaned(ValidKeys(sequences)), inUse);
    }
  }

  lemma {:induction false} NoStaleTaints(node: Node, stale: string -> bool, inUse: set<string>)
    ensures forall t :: t in Released(node, stale, inUse).taints ==> !stale(t.key)
  {
    forall t | t in Released(node, stale, inUse).taints
      ensures !stale(t.key)
    {
      CollectMember(NotStale(stale), node.taints, t);
    }
  }

  /** So a pod a deletion stranded through a stale copy is helped by the next cleanup, unless a sequence with that
      key has come back. */
  lemma {:induction false} CleanupRepairs(stored: Versioned, sequences: seq<PodSequence>, digest: Digest, pods: seq<Pod>, inUse: set<string>,
                                          taintPatch: PatchResult, p: Pod, k: nat)
    requires forall s :: s in sequences && EffectiveScope(s) == NodeScope ==> EligibilityKey(s.digest) != EligibilityKey(digest)
    requires 1 <= k <= 999999 && KeysInUse(inUse, pods) && p in pods && PendingOn(p, EligibilityKey(digest), k)
    requires EligibilityKey(digest) in stored.node.labels
    ensures var after := ReleaseOutcome(stored, stored, Orphaned(ValidKeys(sequences)), inUse, Applied, taintPatch).0.node;
            RequirementHolds(EligibilityRequirement(EligibilityKey(digest), k), after.labels)
  {
    EligibilityKeyIsNotLegacy(digest);
    LaterReleaseRepairs(stored, Orphaned(ValidKeys(sequences)), digest, pods, inUse, taintPatch, p, k);
  }
}
