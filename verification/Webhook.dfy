/** Preparing DaemonSets that opt in: MutateDaemonSet of internal/webhook/podsequence_webhook.go. */
module Webhook {
  import opened Options
  import opened Collections
  import opened Kube
  import opened Sequence
  import opened DaemonSets
  import opened NodePlanSpec
  import opened PodEdits

  /** Whether the sequence found for the DaemonSet taints nodes. */
  predicate Taints(found: Option<PodSequence>)
  {
    found.Some? && EffectiveScope(found.value) == NodeScope && EligibilityMethod(found.value) == TaintMethod
  }

  function LabelOrEmpty(labels: Labels, key: string): string
  {
    if key in labels then labels[key] else ""
  }

  function Mutated(ds: DaemonSet, found: Option<PodSequence>, seqName: string): DaemonSet
  {
    var labels := if LabelOrEmpty(ds.templateLabels, SEQUENCE_LABEL) != seqName
                  then ds.templateLabels[SEQUENCE_LABEL := seqName] else ds.templateLabels;
    var tolerations := if Taints(found)
                       then WithTolerations(ds.template.tolerations, [ExistsToleration(EligibilityKey(found.value.digest))])
                       else ds.template.tolerations;
    ds.(templateLabels := labels, template := ds.template.(tolerations := tolerations))
  }

  class DaemonSetObject {
    const name: string
    const uid: string
    var deleting: bool
    var templateLabels: Labels
    const template: PodObject

    function Value(): DaemonSet
      reads this, template
    {
      DaemonSet(name, uid, deleting, templateLabels, template.spec)
    }

    constructor (ds: DaemonSet)
      ensures Value() == ds && fresh(template)
    {
      name, uid, deleting, templateLabels := ds.name, ds.uid, ds.deleting, ds.templateLabels;
      template := new PodObject(ds.template, 0);
    }

    /** Copies the sequence label into the template and, in Taint mode, adds the toleration. A failed lookup
        is passed as None. */
    method Mutate(found: Option<PodSequence>, seqName: string) returns (changed: bool)
      modifies this`templateLabels, template`spec
      ensures Value() == Mutated(old(Value()), found, seqName)
      ensures changed <==> Value() != old(Value())
    {
      changed := false;
      if LabelOrEmpty(templateLabels, SEQUENCE_LABEL) != seqName {
        templateLabels := templateLabels[SEQUENCE_LABEL := seqName];
        changed := true;
        assert LabelOrEmpty(templateLabels, SEQUENCE_LABEL) == seqName;
      }
      if found.None? {
        return;
      }
      if EffectiveScope(found.value) == NodeScope && EligibilityMethod(found.value) == TaintMethod {
        var key := EligibilityKey(found.value.digest);
        var added := template.AddTolerations([ExistsToleration(key)]);
        if added {
          changed := true;
        }
      }
    }
  }

  /** After the mutation pods with the labels of the template opt in to a sequence of that name; the other labels,
      and the rest of the DaemonSet, are as before; and only a node-scoped sequence in Taint mode adds a toleration,
      that of its taint. */
  lemma {:induction false} MutationOptsIn(ds: DaemonSet, found: Option<PodSequence>, seqName: string, p: Pod, s: PodSequence)
    requires p.labels == Mutated(ds, found, seqName).templateLabels && s.name == seqName
    ensures OptedIn(s, p)
    ensures seqName != "" ==> SEQUENCE_LABEL in p.labels && p.labels[SEQUENCE_LABEL] == seqName
    ensures p.labels - {SEQUENCE_LABEL} == ds.templateLabels - {SEQUENCE_LABEL}
    ensures var after := Mutated(ds, found, seqName);
            && after == ds.(templateLabels := p.labels, template := ds.template.(tolerations := after.template.tolerations))
            && (after.template.tolerations != ds.template.tolerations ==>
                  && found.Some? && found.value.scope == NodeScope && found.value.nodeEligibility == TaintMethod
                  && after.template.tolerations == ds.template.tolerations + [ExistsToleration(EligibilityKey(found.value.digest))])
  {
    if Taints(found) {
      var t := ExistsToleration(EligibilityKey(found.value.digest));
      assert WithTolerations(ds.template.tolerations, [t]) == WithToleration(ds.template.tolerations, t) by {
        assert [t][..0] == [];
      }
    }
  }

  lemma {:induction false} MutatedTolerates(ds: DaemonSet, found: Option<PodSequence>, seqName: string)
    requires Taints(found)
    ensures ExistsToleration(EligibilityKey(found.value.digest)) in Mutated(ds, found, seqName).template.tolerations
  {
    var t := ExistsToleration(EligibilityKey(found.value.digest));
    WithTolerationsContains(ds.template.tolerations, [t], t);
  }

  /** A second mutation is a no-op. */
  lemma {:induction false} MutationIsIdempotent(ds: DaemonSet, found: Option<PodSequence>, seqName: string)
    ensures Mutated(Mutated(ds, found, seqName), found, seqName) == Mutated(ds, found, seqName)
  {
    if Taints(found) {
      MutatedTolerates(ds, found, seqName);
      var t := ExistsToleration(EligibilityKey(found.value.digest));
      WithTolerationsNoop(Mutated(ds, found, seqName).template.tolerations, [t]);
    }
  }

  /** A mutated DaemonSet runs on a node or not regardless of the sequence's own NoSchedule taints there. */
  lemma {:induction false} MutatedIgnoresOwnTaint(ds: DaemonSet, found: Option<PodSequence>, seqName: string,
                                                  node: Node, taints: seq<Taint>)
    requires Taints(found)
    requires forall t: Taint :: t.key != EligibilityKey(found.value.digest) || t.effect != NoSchedule ==> (t in taints <==> t in node.taints)
    ensures DaemonSetShouldRunOnNode(Mutated(ds, found, seqName), node.(taints := taints))
            == DaemonSetShouldRunOnNode(Mutated(ds, found, seqName), node)
  {
    var m := Mutated(ds, found, seqName);
    var key := EligibilityKey(found.value.digest);
    var all := DaemonTolerations(m.template);
    MutatedTolerates(ds, found, seqName);
    assert ExistsToleration(key) in all;
    assert forall v :: ToleratesTaint(ExistsToleration(key), Taint(key, v, NoSchedule));
    forall t: Taint | t.key == key && t.effect == NoSchedule
      ensures Tolerated(all, t)
    {
      assert ToleratesTaint(ExistsToleration(key), t);
    }
    var other := node.(taints := taints);
    assert AffinityMatches(m.template, other) == AffinityMatches(m.template, node) by {
      if m.template.required.Some? {
        assert forall t :: t in m.template.required.value ==> (TermMatches(t, other) <==> TermMatches(t, node));
      }
    }
  }

  lemma {:induction false} MissingFromMeaning(input: PlanInput, j: nat, name: string)
    requires j <= NumGroups(input)
    ensures name in MissingFrom(input, j) <==>
            exists i :: 0 <= i < j && NameLacks(input, name, i)
  {
    if j > 0 {
      MissingFromMeaning(input, j - 1, name);
      MissingIn(input, j - 1, name);
    }
  }

  /** The DaemonSet is selected by the group and does not tolerate the taint of a node that has satisfied none. */
  predicate Lacks(input: PlanInput, ds: DaemonSet, j: nat)
    requires j < NumGroups(input)
  {
    var selector := input.sequence.podGroups[j].selector;
    && !ds.deleting && selector.Selector? && selector.matches(ds.templateLabels)
    && !Tolerated(ds.template.tolerations, Taint(EligibilityKey(input.sequence.digest), "0", NoSchedule))
  }

  ghost predicate NameLacks(input: PlanInput, name: string, j: nat)
    requires j < NumGroups(input)
  {
    exists ds :: ds in input.daemonSets && ds.name == name && Lacks(input, ds, j)
  }

  lemma {:induction false} MissingIn(input: PlanInput, j: nat, name: string)
    requires j < NumGroups(input)
    ensures name in Collect(Untolerating(Key(input)), DaemonSetsForGroup(input.daemonSets, input.sequence.podGroups[j])) <==>
            NameLacks(input, name, j)
  {
    var g := input.sequence.podGroups[j];
    var sets := DaemonSetsForGroup(input.daemonSets, g);
    CollectMember(Untolerating(Key(input)), sets, name);
    forall ds
      ensures ds in sets <==> ds in input.daemonSets && !ds.deleting && SelectorMatches(g.selector, ds.templateLabels)
    {
      CollectMember(InGroup(g), input.daemonSets, ds);
    }
    if ds :| ds in input.daemonSets && ds.name == name && Lacks(input, ds, j) {
      assert ds in sets && Untolerating(Key(input))(ds) == Some(name);
    }
  }

  /** In Taint mode, and only then, exactly the DaemonSets that some group selects and that lack the toleration are
      reported. */
  lemma {:induction false} MissingTolerationMeaning(input: PlanInput, name: string)
    ensures name in MissingToleration(input) <==>
            && input.sequence.nodeEligibility == TaintMethod
            && exists j :: 0 <= j < NumGroups(input) && NameLacks(input, name, j)
  {
    MissingFromMeaning(input, NumGroups(input), name);
  }

  /** A mutated DaemonSet tolerates the taint the planner looks for. */
  lemma {:induction false} MutatedIsTolerating(input: PlanInput, ds: DaemonSet, seqName: string)
    requires Taints(Some(input.sequence))
    ensures forall j :: 0 <= j < NumGroups(input) ==> !Lacks(input, Mutated(ds, Some(input.sequence), seqName), j)
  {
    MutatedTolerates(ds, Some(input.sequence), seqName);
    assert ToleratesTaint(ExistsToleration(Key(input)), Taint(Key(input), "0", NoSchedule));
  }

  /** A name borne only by mutated DaemonSets of the sequence is never reported as lacking the toleration. */
  lemma {:induction false} MutatedIsNotReported(input: PlanInput, seqName: string, name: string)
    requires EffectiveScope(input.sequence) == NodeScope
    requires forall ds :: ds in input.daemonSets && ds.name == name ==> exists o :: ds == Mutated(o, Some(input.sequence), seqName)
    ensures name !in MissingToleration(input)
  {
    MissingTolerationMeaning(input, name);
    if EligibilityMethod(input.sequence) == TaintMethod {
      forall ds, j | ds in input.daemonSets && ds.name == name && 0 <= j < NumGroups(input)
        ensures !Lacks(input, ds, j)
      {
        var o :| ds == Mutated(o, Some(input.sequence), seqName);
        MutatedIsTolerating(input, o, seqName);
      }
    }
  }
}
