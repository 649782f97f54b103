/** The node label and taint that tell the scheduler how far a node has come:
    syncNodeEligibility and setNodeKey of internal/controller/podsequence_controller.go. */
module Steering {
  import opened Options
  import opened Collections
  import opened Decimal
  import opened Kube
  import opened Sequence
  import opened NodePlanSpec

  // ---- one key of a node ----

  predicate LabelPatchNeeded(labels: Labels, key: string, want: string)
  {
    (want == "" && key in labels) || (want != "" && (if key in labels then labels[key] else "") != want)
  }

  function WithLabel(labels: Labels, key: string, want: string): Labels
  {
    if want == "" then labels - {key} else labels[key := want]
  }

  /** A merge patch on labels: a present value is written, an absent one deletes the key. */
  function MergeLabels(labels: Labels, patch: map<string, Option<string>>): Labels
  {
    map k | k in labels.Keys + patch.Keys && (k in patch ==> patch[k].Some?) :: if k in patch then patch[k].value else labels[k]
  }

  lemma {:induction false} MergeOneLabel(labels: Labels, key: string, want: string)
    ensures MergeLabels(labels, map[key := if want == "" then None else Some(want)]) == WithLabel(labels, key, want)
  {
  }

  /** The taints kept for a key, and whether the wanted one is among them. */
  function KeepTaints(taints: seq<Taint>, key: string, want: Option<Taint>): (seq<Taint>, bool)
  {
    if taints == [] then ([], false)
    else
      var (kept, found) := KeepTaints(taints[..|taints| - 1], key, want);
      var t := taints[|taints| - 1];
      if t.key != key then (kept + [t], found)
      else if want.Some? && !found && t.value == want.value.value && t.effect == want.value.effect then (kept + [t], true)
      else (kept, found)
  }

  function WithTaint(taints: seq<Taint>, key: string, want: Option<Taint>): seq<Taint>
  {
    var (kept, found) := KeepTaints(taints, key, want);
    if want.Some? && !found then kept + [want.value] else kept
  }

  function SetKey(node: Node, key: string, value: string, taint: Option<Taint>): Node
  {
    node.(labels := WithLabel(node.labels, key, value), taints := WithTaint(node.taints, key, taint))
  }

  function WantTaint(key: string, mode: Method, numGroups: nat, st: NodeState): Option<Taint>
  {
    if st.participating && mode == TaintMethod && st.satisfied < numGroups
    then Some(Taint(key, Itoa(st.satisfied), NoSchedule)) else None
  }

  function WantLabel(labels: Labels, key: string, mode: Method, st: NodeState, labelInUse: bool): string
  {
    if key in labels && labelInUse && mode == TaintMethod then RELEASED_VALUE
    else if st.participating && mode != TaintMethod then Itoa(st.satisfied)
    else ""
  }

  function Synced(node: Node, key: string, mode: Method, numGroups: nat, st: NodeState, labelInUse: bool): Node
  {
    SetKey(node, key, WantLabel(node.labels, key, mode, st, labelInUse), WantTaint(key, mode, numGroups, st))
  }

  function Foreign(key: string): Taint -> Option<Taint>
  {
    (t: Taint) => if t.key == key then None else Some(t)
  }

  function Own(key: string): Taint -> Option<Taint>
  {
    (t: Taint) => if t.key == key then Some(t) else None
  }

  lemma {:induction false} CollectAppend<T, U>(f: T -> Option<U>, s: seq<T>, t: T)
    ensures Collect(f, s + [t]) == Collect(f, s) + (match f(t) case None => [] case Some(y) => [y])
  {
    assert (s + [t])[..|s|] == s;
  }

  lemma {:induction false} KeepTaintsForeign(taints: seq<Taint>, key: string, want: Option<Taint>)
    ensures Collect(Foreign(key), KeepTaints(taints, key, want).0) == Collect(Foreign(key), taints)
  {
    if taints != [] {
      KeepTaintsForeign(taints[..|taints| - 1], key, want);
      CollectAppend(Foreign(key), KeepTaints(taints[..|taints| - 1], key, want).0, taints[|taints| - 1]);
    }
  }

  lemma {:induction false} KeepTaintsOwn(taints: seq<Taint>, key: string, want: Option<Taint>)
    requires want.Some? ==> want.value.key == key
    ensures KeepTaints(taints, key, want).1 <==> want.Some? && want.value in taints
    ensures Collect(Own(key), KeepTaints(taints, key, want).0) == if KeepTaints(taints, key, want).1 then [want.value] else []
  {
    if taints != [] {
      KeepTaintsOwn(taints[..|taints| - 1], key, want);
      CollectAppend(Own(key), KeepTaints(taints[..|taints| - 1], key, want).0, taints[|taints| - 1]);
      assert taints == taints[..|taints| - 1] + [taints[|taints| - 1]];
    }
  }

  lemma {:induction false} KeepTaintsSize(taints: seq<Taint>, key: string, want: Option<Taint>)
    ensures var kept := KeepTaints(taints, key, want).0;
            |kept| <= |taints| && (|kept| == |taints| ==> kept == taints)
  {
    if taints != [] {
      KeepTaintsSize(taints[..|taints| - 1], key, want);
    }
  }

  /** Exactly the wanted own taint remains, and the taints of others keep their order. */
  lemma {:induction false} WithTaintMeaning(taints: seq<Taint>, key: string, want: Option<Taint>)
    requires want.Some? ==> want.value.key == key
    ensures Collect(Own(key), WithTaint(taints, key, want)) == if want.Some? then [want.value] else []
    ensures Collect(Foreign(key), WithTaint(taints, key, want)) == Collect(Foreign(key), taints)
  {
    KeepTaintsForeign(taints, key, want);
    KeepTaintsOwn(taints, key, want);
    if want.Some? {
      CollectAppend(Own(key), KeepTaints(taints, key, want).0, want.value);
      CollectAppend(Foreign(key), KeepTaints(taints, key, want).0, want.value);
    }
  }

  lemma {:induction false} CountSplits(taints: seq<Taint>, key: string, t: Taint)
    ensures multiset(taints)[t] == if t.key == key then multiset(Collect(Own(key), taints))[t]
                                   else multiset(Collect(Foreign(key), taints))[t]
  {
    if taints != [] {
      CountSplits(taints[..|taints| - 1], key, t);
      assert taints == taints[..|taints| - 1] + [taints[|taints| - 1]];
    }
  }

  /** How often each taint is present afterwards. */
  lemma {:induction false} WithTaintCount(taints: seq<Taint>, key: string, want: Option<Taint>, t: Taint)
    requires want.Some? ==> want.value.key == key
    ensures multiset(WithTaint(taints, key, want))[t]
            == if t.key != key then multiset(taints)[t] else if want == Some(t) then 1 else 0
  {
    WithTaintMeaning(taints, key, want);
    CountSplits(WithTaint(taints, key, want), key, t);
    CountSplits(taints, key, t);
  }

  /** The node's key is exactly as wanted; all other labels and taints stay, the taints in their order. */
  lemma {:induction false} SetKeyIsExact(node: Node, key: string, value: string, taint: Option<Taint>)
    requires taint.Some? ==> taint.value.key == key
    ensures var after := SetKey(node, key, value, taint);
            && (key in after.labels <==> value != "") && (value != "" ==> after.labels[key] == value)
            && after.labels - {key} == node.labels - {key}
            && Collect(Own(key), after.taints) == (if taint.Some? then [taint.value] else [])
            && Collect(Foreign(key), after.taints) == Collect(Foreign(key), node.taints)
            && after.name == node.name && after.deleting == node.deleting
  {
    WithTaintMeaning(node.taints, key, taint);
  }

  lemma {:induction false} NoPatchMeansNoChange(labels: Labels, key: string, want: string)
    ensures LabelPatchNeeded(labels, key, want) <==> WithLabel(labels, key, want) != labels
  {
    if !LabelPatchNeeded(labels, key, want) {
      assert WithLabel(labels, key, want) == labels;
    } else if want == "" {
      assert key in labels && key !in WithLabel(labels, key, want);
    } else {
      assert WithLabel(labels, key, want)[key] == want;
    }
  }

  lemma {:induction false} KeepTaintsFixpoint(taints: seq<Taint>, key: string, want: Option<Taint>)
    requires want.Some? ==> want.value.key == key
    requires Collect(Own(key), taints) == [] || (want.Some? && Collect(Own(key), taints) == [want.value])
    ensures KeepTaints(taints, key, want) == (taints, Collect(Own(key), taints) != [])
  {
    if taints != [] {
      var rest, t := taints[..|taints| - 1], taints[|taints| - 1];
      if t.key == key {
        assert (Collect(Own(key), rest) + [t])[|Collect(Own(key), rest)|] == t == want.value;
        assert |Collect(Own(key), rest) + [t]| == 1;
      }
      KeepTaintsFixpoint(rest, key, want);
      assert taints == rest + [t];
    }
  }

  /** Asking for the same key state again changes nothing and needs no patch. */
  lemma {:induction false} SetKeyIsIdempotent(node: Node, key: string, value: string, taint: Option<Taint>)
    requires taint.Some? ==> taint.value.key == key
    ensures var once := SetKey(node, key, value, taint);
            SetKey(once, key, value, taint) == once && !LabelPatchNeeded(once.labels, key, value)
  {
    var once := SetKey(node, key, value, taint);
    WithTaintMeaning(node.taints, key, taint);
    KeepTaintsFixpoint(once.taints, key, taint);
    NoPatchMeansNoChange(once.labels, key, value);
  }

  lemma {:induction false} TaintCountCommutes(taints: seq<Taint>, key1: string, taint1: Option<Taint>, key2: string,
                                              taint2: Option<Taint>, t: Taint)
    requires key1 != key2
    requires (taint1.Some? ==> taint1.value.key == key1) && (taint2.Some? ==> taint2.value.key == key2)
    ensures multiset(WithTaint(WithTaint(taints, key1, taint1), key2, taint2))[t]
         == multiset(WithTaint(WithTaint(taints, key2, taint2), key1, taint1))[t]
  {
    var x, y := WithTaint(taints, key1, taint1), WithTaint(taints, key2, taint2);
    WithTaintCount(taints, key1, taint1, t);
    WithTaintCount(taints, key2, taint2, t);
    WithTaintCount(x, key2, taint2, t);
    WithTaintCount(y, key1, taint1, t);
  }

  lemma {:induction false} LabelsCommute(labels: Labels, key1: string, value1: string, key2: string, value2: string)
    requires key1 != key2
    ensures WithLabel(WithLabel(labels, key1, value1), key2, value2) == WithLabel(WithLabel(labels, key2, value2), key1, value1)
  {
  }

  /** Sequences maintain their keys without disturbing each other: the order of two syncs does not matter,
      up to the order of taints. */
  lemma {:induction false} DistinctKeysCommute(node: Node, key1: string, value1: string, taint1: Option<Taint>,
                            key2: string, value2: string, taint2: Option<Taint>)
    requires key1 != key2
    requires (taint1.Some? ==> taint1.value.key == key1) && (taint2.Some? ==> taint2.value.key == key2)
    ensures var a := SetKey(SetKey(node, key1, value1, taint1), key2, value2, taint2);
            var b := SetKey(SetKey(node, key2, value2, taint2), key1, value1, taint1);
            a.labels == b.labels && multiset(a.taints) == multiset(b.taints)
  {
    LabelsCommute(node.labels, key1, value1, key2, value2);
    forall t: Taint {
      TaintCountCommutes(node.taints, key1, taint1, key2, taint2, t);
    }
  }

  // ---- what the scheduler makes of it ----

  lemma {:induction false} GtOnLabel(labels: Labels, key: string, k: nat, value: nat)
    requires k >= 1 && key in labels && labels[key] == Itoa(value)
    ensures RequirementHolds(EligibilityRequirement(key, k), labels) <==> value >= k
  {
    ParseIntItoa(value);
    ParseIntItoa(k - 1);
  }

  /** After a sync in NodeLabel mode the requirement of group k holds on a node exactly when the node
      participates with at least k satisfied groups. */
  lemma {:induction false} LabelEncodesProgress(node: Node, key: string, mode: Method, numGroups: nat, st: NodeState,
                                                labelInUse: bool, k: nat)
    requires k >= 1 && mode != TaintMethod
    ensures RequirementHolds(EligibilityRequirement(key, k), Synced(node, key, mode, numGroups, st, labelInUse).labels)
            <==> st.participating && st.satisfied >= k
  {
    if st.participating {
      GtOnLabel(Synced(node, key, mode, numGroups, st, labelInUse).labels, key, k, st.satisfied);
    }
  }

  /** NodeLabel steering is exact: the steered pod matches the synced node iff it matched before steering
      and the node has come far enough. */
  lemma {:induction false} LabelSteeringIsExact(node: Node, key: string, mode: Method, numGroups: nat, st: NodeState, labelInUse: bool,
                             spec: PodSpec, k: nat)
    requires k >= 1 && mode != TaintMethod && !Degenerate(spec.required)
    ensures var after := Synced(node, key, mode, numGroups, st, labelInUse);
            AffinityMatches(spec.(required := WithRequirement(spec.required, EligibilityRequirement(key, k))), after)
            <==> AffinityMatches(spec, after) && st.participating && st.satisfied >= k
  {
    var after := Synced(node, key, mode, numGroups, st, labelInUse);
    LabelEncodesProgress(node, key, mode, numGroups, st, labelInUse, k);
    AffinityEditMeaning(spec.required, key, k, after);
  }

  /** All taints of the key on the node are tolerated. */
  predicate OwnTaintsTolerated(taints: seq<Taint>, key: string, tolerations: seq<Toleration>)
  {
    forall t :: t in taints && t.key == key ==> Tolerated(tolerations, t)
  }

  /** No toleration the pod came with admits taints of the key. */
  ghost predicate Intolerant(tolerations: seq<Toleration>, key: string)
  {
    forall v: string :: !Tolerated(tolerations, Taint(key, v, NoSchedule))
  }

  lemma {:induction false} OwnTaintsOfSynced(node: Node, key: string, numGroups: nat, st: NodeState,
                                             labelInUse: bool, tolerations: seq<Toleration>)
    ensures var after := Synced(node, key, TaintMethod, numGroups, st, labelInUse);
            OwnTaintsTolerated(after.taints, key, tolerations) <==>
            !st.participating || st.satisfied >= numGroups || Tolerated(tolerations, Taint(key, Itoa(st.satisfied), NoSchedule))
  {
    var after := Synced(node, key, TaintMethod, numGroups, st, labelInUse);
    var want := WantTaint(key, TaintMethod, numGroups, st);
    WithTaintMeaning(node.taints, key, want);
    forall t: Taint
      ensures t in after.taints && t.key == key <==> want == Some(t)
    {
      CollectMember(Own(key), after.taints, t);
      if want.Some? {
        assert t in [want.value] <==> t == want.value;
      }
    }
  }

  /** Taint steering is exact: a steered pod of group k tolerates the synced node's own taints iff the node
      does not participate or has come far enough. */
  lemma {:induction false} TaintSteeringIsExact(node: Node, key: string, numGroups: nat, st: NodeState, labelInUse: bool,
                             existing: seq<Toleration>, k: nat)
    requires 1 <= k < numGroups && Intolerant(existing, key)
    ensures var after := Synced(node, key, TaintMethod, numGroups, st, labelInUse);
            OwnTaintsTolerated(after.taints, key, WithTolerations(existing, EligibilityTolerations(key, k, numGroups)))
            <==> !st.participating || st.satisfied >= k
  {
    var tols := EligibilityTolerations(key, k, numGroups);
    var all := WithTolerations(existing, tols);
    var taint := Taint(key, Itoa(st.satisfied), NoSchedule);
    OwnTaintsOfSynced(node, key, numGroups, st, labelInUse, all);
    EligibilityTolerationsMeaning(key, k, numGroups, st.satisfied);
    forall t: Toleration
      ensures t in all <==> t in existing || t in tols
    {
      WithTolerationsContains(existing, tols, t);
    }
    assert !Tolerated(existing, taint);
    assert Tolerated(all, taint) <==> Tolerated(tols, taint);
  }

  /** Pods of the first group are never held off by the sequence's own taint. */
  lemma {:induction false} FirstGroupTolerates(node: Node, key: string, numGroups: nat, st: NodeState,
                                               labelInUse: bool, existing: seq<Toleration>)
    ensures OwnTaintsTolerated(Synced(node, key, TaintMethod, numGroups, st, labelInUse).taints, key,
                               WithTolerations(existing, EligibilityTolerations(key, 0, numGroups)))
  {
    var tols := EligibilityTolerations(key, 0, numGroups);
    OwnTaintsOfSynced(node, key, numGroups, st, labelInUse, WithTolerations(existing, tols));
    WithTolerationsContains(existing, tols, ExistsToleration(key));
    assert ToleratesTaint(ExistsToleration(key), Taint(key, Itoa(st.satisfied), NoSchedule));
  }

  // ---- both methods together ----

  predicate MentionsKey(spec: PodSpec, key: string)
  {
    || key in spec.nodeSelector
    || (spec.required.Some? && exists t :: t in spec.required.value && exists e :: e in t.expressions && e.key == key)
  }

  /** The labels agree on every other key. */
  ghost predicate SameElsewhere(a: Labels, b: Labels, key: string)
  {
    forall k :: k != key ==> (k in a <==> k in b) && (k in a ==> a[k] == b[k])
  }

  lemma {:induction false} AffinityIgnoresLabel(spec: PodSpec, key: string, a: Node, b: Node)
    requires !MentionsKey(spec, key) && a.name == b.name && SameElsewhere(a.labels, b.labels, key)
    ensures AffinityMatches(spec, a) == AffinityMatches(spec, b)
  {
    if spec.required.Some? {
      forall t | t in spec.required.value
        ensures TermMatches(t, a) == TermMatches(t, b)
      {
        assert forall e :: e in t.expressions ==> e.key != key;
        assert forall e :: e in t.expressions ==> RequirementHolds(e, a.labels) == RequirementHolds(e, b.labels);
      }
    }
  }

  lemma {:induction false} OtherTaintsStay(taints: seq<Taint>, key: string, want: Option<Taint>, t: Taint)
    requires (want.Some? ==> want.value.key == key) && t.key != key
    ensures t in WithTaint(taints, key, want) <==> t in taints
  {
    WithTaintMeaning(taints, key, want);
    CollectMember(Foreign(key), taints, t);
    CollectMember(Foreign(key), WithTaint(taints, key, want), t);
  }

  lemma {:induction false} SetKeyTouchesOwnKeyOnly(n: Node, key: string, value: string, taint: Option<Taint>)
    requires taint.Some? ==> taint.value.key == key
    ensures var after := SetKey(n, key, value, taint);
            && after.name == n.name && after.deleting == n.deleting
            && SameElsewhere(n.labels, after.labels, key)
            && (forall t: Taint :: t.key != key ==> (t in after.taints <==> t in n.taints))
  {
    forall t: Taint | t.key != key
      ensures t in WithTaint(n.taints, key, taint) <==> t in n.taints
    {
      OtherTaintsStay(n.taints, key, taint, t);
    }
  }

  /** The taints of other keys that keep pods off are tolerated. */
  predicate ForeignTolerated(taints: seq<Taint>, key: string, tolerations: seq<Toleration>)
  {
    forall t :: t in taints && t.key != key && (t.effect == NoSchedule || t.effect == NoExecute) ==> Tolerated(tolerations, t)
  }

  /** A scheduler may place a pod of that spec on the node. */
  predicate Admitted(spec: PodSpec, node: Node)
  {
    AffinityMatches(spec, node) && TaintsTolerated(node.taints, spec.tolerations)
  }

  lemma {:induction false} EligibilityIgnoresForeign(existing: seq<Toleration>, key: string, k: nat, numGroups: nat, t: Taint)
    requires k >= 1 && key != "" && t.key != key
    ensures Tolerated(WithTolerations(existing, EligibilityTolerations(key, k, numGroups)), t) <==> Tolerated(existing, t)
  {
    var tols := EligibilityTolerations(key, k, numGroups);
    forall e: Toleration
      ensures e in WithTolerations(existing, tols) <==> e in existing || e in tols
    {
      WithTolerationsContains(existing, tols, e);
    }
    forall e | e in tols
      ensures !ToleratesTaint(e, t)
    {
      var i :| 0 <= i < |tols| && tols[i] == e;
      assert k < numGroups && tols[i] == ValueToleration(key, k + i);
    }
  }

  /** On a synced node, tolerating all taints is tolerating those of others and the sequence's own. */
  lemma {:induction false} TaintsOfSynced(node: Node, key: string, mode: Method, numGroups: nat, st: NodeState, labelInUse: bool,
                                          tolerations: seq<Toleration>)
    ensures var taints := Synced(node, key, mode, numGroups, st, labelInUse).taints;
            && (TaintsTolerated(taints, tolerations)
                <==> ForeignTolerated(node.taints, key, tolerations) && OwnTaintsTolerated(taints, key, tolerations))
            && (mode != TaintMethod ==> OwnTaintsTolerated(taints, key, tolerations))
  {
    var want := WantTaint(key, mode, numGroups, st);
    var taints := Synced(node, key, mode, numGroups, st, labelInUse).taints;
    SetKeyTouchesOwnKeyOnly(node, key, WantLabel(node.labels, key, mode, st, labelInUse), want);
    WithTaintMeaning(node.taints, key, want);
    forall t | t in taints && t.key == key
      ensures want == Some(t) && t.effect == NoSchedule
    {
      CollectMember(Own(key), taints, t);
    }
  }

  /** Between participating nodes the two methods let a scheduler place a pod of a later group on the same ones,
      whatever else its affinity and its tolerations say, as long as they do not speak of the key themselves. */
  lemma {:induction false} MethodsAgree(node: Node, key: string, numGroups: nat, st: NodeState, labelInUse: bool, spec: PodSpec, k: nat)
    requires 1 <= k < numGroups && st.participating && key != ""
    requires Intolerant(spec.tolerations, key) && !MentionsKey(spec, key) && !Degenerate(spec.required)
    ensures Admitted(spec.(required := WithRequirement(spec.required, EligibilityRequirement(key, k))),
                     Synced(node, key, NodeLabel, numGroups, st, labelInUse))
            <==> Admitted(spec.(tolerations := WithTolerations(spec.tolerations, EligibilityTolerations(key, k, numGroups))),
                          Synced(node, key, TaintMethod, numGroups, st, labelInUse))
  {
    var labelled := Synced(node, key, NodeLabel, numGroups, st, labelInUse);
    var tainted := Synced(node, key, TaintMethod, numGroups, st, labelInUse);
    var tols := WithTolerations(spec.tolerations, EligibilityTolerations(key, k, numGroups));
    LabelSteeringIsExact(node, key, NodeLabel, numGroups, st, labelInUse, spec, k);
    TaintSteeringIsExact(node, key, numGroups, st, labelInUse, spec.tolerations, k);
    TaintsOfSynced(node, key, NodeLabel, numGroups, st, labelInUse, spec.tolerations);
    TaintsOfSynced(node, key, TaintMethod, numGroups, st, labelInUse, tols);
    assert ForeignTolerated(node.taints, key, tols) <==> ForeignTolerated(node.taints, key, spec.tolerations) by {
      forall t: Taint | t.key != key
        ensures Tolerated(tols, t) <==> Tolerated(spec.tolerations, t)
      {
        EligibilityIgnoresForeign(spec.tolerations, key, k, numGroups, t);
      }
    }
    AffinitySame(node, key, numGroups, st, labelInUse, spec);
    assert AffinityMatches(spec.(tolerations := tols), tainted) == AffinityMatches(spec, tainted);
  }

  lemma {:induction false} AffinitySame(node: Node, key: string, numGroups: nat, st: NodeState, labelInUse: bool, spec: PodSpec)
    requires !MentionsKey(spec, key)
    ensures AffinityMatches(spec, Synced(node, key, NodeLabel, numGroups, st, labelInUse))
         == AffinityMatches(spec, Synced(node, key, TaintMethod, numGroups, st, labelInUse))
  {
    AffinityIgnoresLabel(spec, key, Synced(node, key, NodeLabel, numGroups, st, labelInUse),
                         Synced(node, key, TaintMethod, numGroups, st, labelInUse));
  }

  // ---- the node object ----

  method RebuildTaints(taints: seq<Taint>, key: string, wantTaint: Option<Taint>) returns (newTaints: seq<Taint>, changed: bool)
    requires wantTaint.Some? ==> wantTaint.value.key == key
    ensures newTaints == WithTaint(taints, key, wantTaint)
    ensures changed <==> newTaints != taints
  {
    newTaints, changed := [], false;
    var found := false;
    for i := 0 to |taints|
      invariant (newTaints, found) == KeepTaints(taints[..i], key, wantTaint)
      invariant changed <==> |newTaints| < i
      invariant |newTaints| <= i
    {
      assert taints[..i + 1][..i] == taints[..i];
      var t := taints[i];
      if t.key != key {
        newTaints := newTaints + [t];
      } else if wantTaint.Some? && !found && t.value == wantTaint.value.value && t.effect == wantTaint.value.effect {
        newTaints := newTaints + [t];
        found := true;
      } else {
        changed := true;
      }
    }
    assert taints[..|taints|] == taints;
    KeepTaintsOwn(taints, key, wantTaint);
    KeepTaintsSize(taints, key, wantTaint);
    if wantTaint.Some? && !found {
      newTaints := newTaints + [wantTaint.value];
      changed := true;
      assert newTaints[|newTaints| - 1] == wantTaint.value && wantTaint.value !in taints;
    }
  }

  /** A node as the API server keeps it; every write counts the version up. */
  datatype Versioned = Versioned(node: Node, version: nat)

  /** What bringing a key to its wanted state leaves of the stored node, and whether it is an error. The cached
      copy decides what to patch. The label patch carries no lock and returns the stored node; the taint patch
      is rejected unless the copy it was computed from is current. */
  function KeyOutcome(cached: Versioned, stored: Versioned, key: string, value: string, taint: Option<Taint>,
                      labelPatch: PatchResult, taintPatch: PatchResult): (Versioned, bool)
  {
    var needed := LabelPatchNeeded(cached.node.labels, key, value);
    if needed && labelPatch == Rejected then (stored, true)
    else
      var labelled := needed && labelPatch == Applied;
      var now := if labelled then Versioned(stored.node.(labels := WithLabel(stored.node.labels, key, value)), stored.version + 1) else stored;
      var seen := if labelled then now else cached;
      var taints := WithTaint(seen.node.taints, key, taint);
      if taints == seen.node.taints then (now, false)
      else if taintPatch == Applied && seen.version == now.version then (Versioned(now.node.(taints := taints), now.version + 1), false)
      else (now, taintPatch != NotFound)
  }

  function SyncOutcome(cached: Versioned, stored: Versioned, key: string, mode: Method, numGroups: nat, st: NodeState, labelInUse: bool,
                       labelPatch: PatchResult, taintPatch: PatchResult): (Versioned, bool)
  {
    KeyOutcome(cached, stored, key, WantLabel(cached.node.labels, key, mode, st, labelInUse), WantTaint(key, mode, numGroups, st),
               labelPatch, taintPatch)
  }

  /** A copy of the version stored is what is stored. */
  predicate CopyOf(cached: Versioned, stored: Versioned)
  {
    cached.node.name == stored.node.name && (cached.version == stored.version ==> cached.node == stored.node)
  }

  /** From a current copy, with both patches applied, the key ends exactly as wanted. */
  lemma {:induction false} CurrentCopyIsExact(stored: Versioned, key: string, value: string, taint: Option<Taint>)
    ensures var (after, err) := KeyOutcome(stored, stored, key, value, taint, Applied, Applied);
            after.node == SetKey(stored.node, key, value, taint) && !err
  {
    NoPatchMeansNoChange(stored.node.labels, key, value);
  }

  /** Bringing a key to its wanted state errs exactly if a patch it needs is rejected, or if its taint patch is made
      from a copy that is not current; an object that is gone is no error. */
  lemma {:induction false} KeyFailsIff(cached: Versioned, stored: Versioned, key: string, value: string, taint: Option<Taint>,
                                       labelPatch: PatchResult, taintPatch: PatchResult)
    ensures var relabels := WithLabel(cached.node.labels, key, value) != cached.node.labels;
            var labelled := relabels && labelPatch == Applied;
            var taints := if labelled then stored.node.taints else cached.node.taints;
            KeyOutcome(cached, stored, key, value, taint, labelPatch, taintPatch).1 <==>
              || (relabels && labelPatch == Rejected)
              || (WithTaint(taints, key, taint) != taints
                  && (taintPatch == Rejected || (taintPatch == Applied && !labelled && cached.version != stored.version)))
  {
    NoPatchMeansNoChange(cached.node.labels, key, value);
  }

  /** From a current copy of a node that is still there, no error means that the key is as wanted. */
  lemma {:induction false} KeySucceeds(stored: Versioned, key: string, value: string, taint: Option<Taint>,
                                       labelPatch: PatchResult, taintPatch: PatchResult)
    requires labelPatch != NotFound && taintPatch != NotFound
    ensures var (after, err) := KeyOutcome(stored, stored, key, value, taint, labelPatch, taintPatch);
            && (!err ==> after.node == SetKey(stored.node, key, value, taint))
            && (labelPatch == Applied && taintPatch == Applied ==> !err)
  {
    NoPatchMeansNoChange(stored.node.labels, key, value);
  }

  lemma {:induction false} WithLabelElsewhere(labels: Labels, key: string, want: string)
    ensures WithLabel(labels, key, want) - {key} == labels - {key}
  {
  }

  lemma {:induction false} OutcomeShape(cached: Versioned, stored: Versioned, key: string, value: string, taint: Option<Taint>,
                                        labelPatch: PatchResult, taintPatch: PatchResult)
    requires CopyOf(cached, stored)
    ensures var after, node := KeyOutcome(cached, stored, key, value, taint, labelPatch, taintPatch).0.node, stored.node;
            && (after.labels == node.labels || after.labels == WithLabel(node.labels, key, value))
            && (after.taints == node.taints || after.taints == WithTaint(node.taints, key, taint))
            && after.name == node.name && after.deleting == node.deleting
  {
  }

  /** However stale the copy and whatever becomes of the patches, other labels and taints of the stored node
      survive, the taints in their order. */
  lemma {:induction false} OthersSurvive(cached: Versioned, stored: Versioned, key: string, value: string, taint: Option<Taint>,
                                         labelPatch: PatchResult, taintPatch: PatchResult)
    requires CopyOf(cached, stored) && (taint.Some? ==> taint.value.key == key)
    ensures var after := KeyOutcome(cached, stored, key, value, taint, labelPatch, taintPatch).0.node;
            && after.labels - {key} == stored.node.labels - {key}
            && Collect(Foreign(key), after.taints) == Collect(Foreign(key), stored.node.taints)
            && after.name == stored.node.name && after.deleting == stored.node.deleting
  {
    OutcomeShape(cached, stored, key, value, taint, labelPatch, taintPatch);
    WithTaintMeaning(stored.node.taints, key, taint);
    WithLabelElsewhere(stored.node.labels, key, value);
  }

  /** A node object: the copy the controller works on or the one the API server stores. */
  class NodeObject {
    const name: string
    var labels: Labels
    var taints: seq<Taint>
    var deleting: bool
    var version: nat

    function Value(): Node
      reads this
    {
      Node(name, labels, taints, deleting)
    }

    function Now(): Versioned
      reads this
    {
      Versioned(Value(), version)
    }

    constructor (v: Versioned)
      ensures Now() == v
    {
      name, labels, taints, deleting, version := v.node.name, v.node.labels, v.node.taints, v.node.deleting, v.version;
    }

    /** A merge patch of labels, without a lock; this copy becomes the stored node. */
    method PatchLabels(stored: NodeObject, patch: map<string, Option<string>>, outcome: PatchResult)
      requires stored != this && stored.name == name
      modifies this`labels, this`taints, this`deleting, this`version, stored`labels, stored`version
      ensures outcome == Applied ==>
                && stored.Now() == Versioned(old(stored.Value()).(labels := MergeLabels(old(stored.labels), patch)), old(stored.version) + 1)
                && Now() == stored.Now()
      ensures outcome != Applied ==> Now() == old(Now()) && stored.Now() == old(stored.Now())
    {
      if outcome == Applied {
        stored.labels, stored.version := MergeLabels(stored.labels, patch), stored.version + 1;
        labels, taints, deleting, version := stored.labels, stored.taints, stored.deleting, stored.version;
      }
    }

    /** The merge patch that writes one label, or deletes it. */
    method PatchLabel(stored: NodeObject, key: string, value: string, outcome: PatchResult)
      requires stored != this && stored.name == name
      modifies this`labels, this`taints, this`deleting, this`version, stored`labels, stored`version
      ensures outcome == Applied ==>
                && stored.Now() == Versioned(old(stored.Value()).(labels := WithLabel(old(stored.labels), key, value)), old(stored.version) + 1)
                && Now() == stored.Now()
      ensures outcome != Applied ==> Now() == old(Now()) && stored.Now() == old(stored.Now())
    {
      MergeOneLabel(stored.labels, key, value);
      PatchLabels(stored, map[key := if value == "" then None else Some(value)], outcome);
    }

    /** Replaces the stored taints, if this copy is current. */
    method PatchTaints(stored: NodeObject, newTaints: seq<Taint>, outcome: PatchResult) returns (err: bool)
      modifies stored`taints, stored`version
      ensures if outcome == Applied && old(version == stored.version) then
                stored.Now() == Versioned(old(stored.Value()).(taints := newTaints), old(stored.version) + 1) && !err
              else
                stored.Now() == old(stored.Now()) && (err <==> outcome != NotFound)
    {
      if outcome == Applied && version == stored.version {
        stored.taints, stored.version := newTaints, stored.version + 1;
        return false;
      }
      return outcome != NotFound;
    }

    /** Brings the label and the taint of the key to the wanted state with at most two patches. */
    method SetNodeKey(stored: NodeObject, key: string, wantLabel: string, wantTaint: Option<Taint>,
                      labelPatch: PatchResult, taintPatch: PatchResult) returns (err: bool, patches: nat)
      requires wantTaint.Some? ==> wantTaint.value.key == key
      requires stored != this && CopyOf(Now(), stored.Now())
      modifies this`labels, this`taints, this`deleting, this`version, stored`labels, stored`taints, stored`version
      ensures (stored.Now(), err) == KeyOutcome(old(Now()), old(stored.Now()), key, wantLabel, wantTaint, labelPatch, taintPatch)
      ensures patches == 0 <==> SetKey(old(Value()), key, wantLabel, wantTaint) == old(Value())
    {
      NoPatchMeansNoChange(labels, key, wantLabel);
      patches := 0;
      if LabelPatchNeeded(labels, key, wantLabel) {
        patches := 1;
        if labelPatch == Rejected {
          return true, patches;
        }
        PatchLabel(stored, key, wantLabel, labelPatch);
      }
      var newTaints, changed := RebuildTaints(taints, key, wantTaint);
      if !changed {
        return false, patches;
      }
      patches := patches + 1;
      err := PatchTaints(stored, newTaints, taintPatch);
    }

    /** Makes the stored node's label and taint reflect its state, as far as the patches are applied. */
    method SyncNodeEligibility(stored: NodeObject, key: string, mode: Method, numGroups: nat, st: NodeState, labelInUse: bool,
                               labelPatch: PatchResult, taintPatch: PatchResult) returns (err: bool, patches: nat)
      requires stored != this && CopyOf(Now(), stored.Now())
      modifies this`labels, this`taints, this`deleting, this`version, stored`labels, stored`taints, stored`version
      ensures (stored.Now(), err) == SyncOutcome(old(Now()), old(stored.Now()), key, mode, numGroups, st, labelInUse, labelPatch, taintPatch)
      ensures patches == 0 <==> Synced(old(Value()), key, mode, numGroups, st, labelInUse) == old(Value())
    {
      var wantLabel := "";
      var wantTaint: Option<Taint> := None;
      if st.participating {
        var value := Itoa(st.satisfied);
        if mode == TaintMethod {
          if st.satisfied < numGroups {
            wantTaint := Some(Taint(key, value, NoSchedule));
          }
        } else {
          wantLabel := value;
        }
      }
      if key in labels && labelInUse && mode == TaintMethod {
        wantLabel := RELEASED_VALUE;
      }
      err, patches := SetNodeKey(stored, key, wantLabel, wantTaint, labelPatch, taintPatch);
    }
  }
}
