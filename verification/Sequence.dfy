/** Pod classification and the steering encoding: internal/sequence/sequence.go. */
module Sequence {
  import opened Options
  import opened Decimal
  import opened Kube

  const DOMAIN := "podsequence.example.com/"
  const SEQUENCE_LABEL := DOMAIN + "sequence"
  const BYPASS_ANNOTATION := DOMAIN + "bypass"
  const DEFAULT_GATE := DOMAIN + "sequence-gate"
  const KEY_PREFIX := DOMAIN + "seq-"
  const MAX_NODE_STATUS := 50
  const RELEASED_VALUE := "999999"

  /** A parsed label selector is an arbitrary predicate on labels; parsing may also fail. */
  datatype Selector = NoSelector | InvalidSelector | Selector(matches: Labels -> bool)

  datatype Wait = InvalidWait | Wait(duration: int)

  datatype Policy = DefaultPolicy | SkipIfNotScheduled | RequireOnNode

  datatype PodGroup = PodGroup(pods: seq<string>, selector: Selector, wait: Wait, policy: Policy)

  datatype Scope = DefaultScope | ClusterScope | NodeScope

  datatype Method = DefaultMethod | NodeLabel | TaintMethod

  /** The hexadecimal SHA-256 digest of "namespace/name". */
  type Digest = d: string | |d| == 64 && forall c :: c in d ==> IsHex(c) witness seq(64, _ => '0')

  datatype PodSequence = PodSequence(namespace: string, name: string, digest: Digest, podGroups: seq<PodGroup>,
                                     scope: Scope, targetNamespace: string, gateName: string, nodeSelector: Selector,
                                     nodeEligibility: Method, gateTimeout: Option<int>)

  predicate IsHex(c: char)
  {
    '0' <= c <= '9' || 'a' <= c <= 'f'
  }

  // ---- keys ----

  function EligibilityKey(digest: Digest): string
  {
    KEY_PREFIX + digest[..10]
  }

  predicate HasPrefix(s: string, prefix: string)
  {
    prefix <= s
  }

  predicate HasSuffix(s: string, suffix: string)
  {
    |suffix| <= |s| && s[|s| - |suffix|..] == suffix
  }

  predicate Contains(s: string, part: string)
  {
    exists i :: 0 <= i <= |s| - |part| && part <= s[i..]
  }

  predicate IsEligibilityKey(key: string)
  {
    HasPrefix(key, KEY_PREFIX)
  }

  predicate IsLegacyGroupTaintKey(key: string)
  {
    HasPrefix(key, DOMAIN) && Contains(key, "-group-") && HasSuffix(key, "-blocked")
  }

  /** No key of a sequence is mistaken for a taint of an earlier version: the suffix of such a taint
      would put a dash among the ten hexadecimal digits. */
  lemma {:induction false} EligibilityKeyIsNotLegacy(digest: Digest)
    ensures IsEligibilityKey(EligibilityKey(digest)) && !IsLegacyGroupTaintKey(EligibilityKey(digest))
  {
    var key := EligibilityKey(digest);
    assert key[|key| - 8..][0] == digest[2];
  }

  // ---- defaults ----

  function TargetNamespace(s: PodSequence): string
  {
    if s.targetNamespace != "" then s.targetNamespace else s.namespace
  }

  function GateName(s: PodSequence): string
  {
    if s.gateName != "" then s.gateName else DEFAULT_GATE
  }

  function EffectiveScope(s: PodSequence): Scope
  {
    if s.scope == DefaultScope then ClusterScope else s.scope
  }

  function EligibilityMethod(s: PodSequence): Method
  {
    if s.nodeEligibility == DefaultMethod then NodeLabel else s.nodeEligibility
  }

  function GroupPolicy(g: PodGroup): Policy
  {
    if g.policy == DefaultPolicy then SkipIfNotScheduled else g.policy
  }

  /** What unset fields of a sequence or a group stand for. */
  lemma {:induction false} UnsetFieldsDefault(s: PodSequence, g: PodGroup)
    ensures TargetNamespace(s.(targetNamespace := "")) == s.namespace && (s.targetNamespace != "" ==> TargetNamespace(s) == s.targetNamespace)
    ensures GateName(s.(gateName := "")) == "podsequence.example.com/sequence-gate" && (s.gateName != "" ==> GateName(s) == s.gateName)
    ensures EffectiveScope(s) == NodeScope <==> s.scope == NodeScope
    ensures EligibilityMethod(s) == TaintMethod <==> s.nodeEligibility == TaintMethod
    ensures EligibilityMethod(s) != DefaultMethod && GroupPolicy(g) != DefaultPolicy
    ensures GroupPolicy(g) == RequireOnNode <==> g.policy == RequireOnNode
  {
  }

  // ---- pods ----

  predicate SelectorMatches(s: Selector, labels: Labels)
  {
    s.Selector? && s.matches(labels)
  }

  predicate PodMatchesGroup(pod: Pod, g: PodGroup)
  {
    if g.pods != [] then pod.name in g.pods else SelectorMatches(g.selector, pod.labels)
  }

  predicate ForeignNamespace(s: PodSequence, pod: Pod)
  {
    pod.namespace != "" && pod.namespace != TargetNamespace(s)
  }

  function FirstGroup(groups: seq<PodGroup>, pod: Pod, from: nat): (r: int)
    requires from <= |groups|
    ensures r == -1 || from <= r < |groups|
    decreases |groups| - from
  {
    if from == |groups| then -1
    else if PodMatchesGroup(pod, groups[from]) then from
    else FirstGroup(groups, pod, from + 1)
  }

  function GroupIndexForPod(s: PodSequence, pod: Pod): (r: int)
    ensures -1 <= r < |s.podGroups|
  {
    if ForeignNamespace(s, pod) then -1 else FirstGroup(s.podGroups, pod, 0)
  }

  /** The index is that of the first matching group, and -1 exactly when no group matches. */
  lemma {:induction false} FirstGroupIsFirst(groups: seq<PodGroup>, pod: Pod, from: nat)
    requires from <= |groups|
    ensures var r := FirstGroup(groups, pod, from);
            if r == -1 then forall i :: from <= i < |groups| ==> !PodMatchesGroup(pod, groups[i])
            else PodMatchesGroup(pod, groups[r]) && forall i :: from <= i < r ==> !PodMatchesGroup(pod, groups[i])
    decreases |groups| - from
  {
    if from < |groups| && !PodMatchesGroup(pod, groups[from]) {
      FirstGroupIsFirst(groups, pod, from + 1);
    }
  }

  /** The group names the pod, or names none and selects its labels. */
  predicate Lists(g: PodGroup, pod: Pod)
  {
    && (g.pods != [] ==> pod.name in g.pods)
    && (g.pods == [] ==> g.selector.Selector? && g.selector.matches(pod.labels))
  }

  /** A pod belongs to group j exactly when it is not of a foreign namespace and j is the first group that lists it. */
  lemma {:induction false} GroupIndexMeaning(s: PodSequence, pod: Pod, j: nat)
    ensures GroupIndexForPod(s, pod) == j <==>
            && j < |s.podGroups| && Lists(s.podGroups[j], pod) && (forall i :: 0 <= i < j ==> !Lists(s.podGroups[i], pod))
            && (pod.namespace == "" || pod.namespace == if s.targetNamespace == "" then s.namespace else s.targetNamespace)
  {
    FirstGroupIsFirst(s.podGroups, pod, 0);
    forall i | 0 <= i < |s.podGroups|
      ensures PodMatchesGroup(pod, s.podGroups[i]) <==> Lists(s.podGroups[i], pod)
    {
    }
  }

  /** Group membership rests on name, namespace and labels only. */
  lemma {:induction false} SameFirstGroup(groups: seq<PodGroup>, p: Pod, q: Pod, from: nat)
    requires from <= |groups| && q.name == p.name && q.labels == p.labels
    ensures FirstGroup(groups, p, from) == FirstGroup(groups, q, from)
    decreases |groups| - from
  {
    if from < |groups| {
      SameFirstGroup(groups, p, q, from + 1);
    }
  }

  lemma {:induction false} SameGroup(s: PodSequence, p: Pod, q: Pod)
    requires q.name == p.name && q.labels == p.labels && q.namespace == p.namespace
    ensures GroupIndexForPod(s, q) == GroupIndexForPod(s, p)
  {
    SameFirstGroup(s.podGroups, p, q, 0);
  }

  method FindGroupIndex(s: PodSequence, pod: Pod) returns (r: int)
    ensures r == GroupIndexForPod(s, pod)
  {
    if ForeignNamespace(s, pod) {
      return -1;
    }
    for i := 0 to |s.podGroups|
      invariant FirstGroup(s.podGroups, pod, 0) == FirstGroup(s.podGroups, pod, i)
    {
      if PodMatchesGroup(pod, s.podGroups[i]) {
        return i;
      }
    }
    return -1;
  }

  predicate IsActive(pod: Pod)
  {
    !pod.deleting && pod.phase != Succeeded && pod.phase != Failed
  }

  predicate HasGate(spec: PodSpec, gate: string)
  {
    gate in spec.gates
  }

  predicate IsBypassed(pod: Pod)
  {
    BYPASS_ANNOTATION in pod.annotations && pod.annotations[BYPASS_ANNOTATION] == "true"
  }

  predicate OptedIn(s: PodSequence, pod: Pod)
  {
    (if SEQUENCE_LABEL in pod.labels then pod.labels[SEQUENCE_LABEL] else "") == s.name
  }

  predicate OwnedBy(pod: Pod, uid: string)
  {
    exists o :: o in pod.owners && o.controller && o.uid == uid
  }

  function FirstReady(conditions: seq<Condition>): Option<Condition>
  {
    if conditions == [] then None
    else if conditions[0].kind == "Ready" then Some(conditions[0])
    else FirstReady(conditions[1..])
  }

  function ReadyCondition(pod: Pod): Option<Condition>
  {
    FirstReady(pod.conditions)
  }

  predicate IsPodReady(pod: Pod)
  {
    ReadyCondition(pod).Some? && ReadyCondition(pod).value.status == ConditionTrue
  }

  function ReadyRemaining(pod: Pod, wait: int, now: int): nat
  {
    if wait <= 0 then 0
    else
      match ReadyCondition(pod)
      case None => 0
      case Some(c) =>
        match c.lastTransition
        case None => 0
        case Some(at) => if at + wait - now > 0 then at + wait - now else 0
  }

  /** The condition that counts: the first of kind Ready. */
  predicate ReadyAt(conditions: seq<Condition>, i: nat)
  {
    i < |conditions| && conditions[i].kind == "Ready" && forall j :: 0 <= j < i ==> conditions[j].kind != "Ready"
  }

  /** It is true, and has been for the wait, if there is one and the moment of its last transition is known. */
  predicate ReadyFor(pod: Pod, wait: int, now: int)
  {
    exists i :: 0 <= i < |pod.conditions| && ReadyAt(pod.conditions, i) && pod.conditions[i].status == ConditionTrue
                && (wait > 0 && pod.conditions[i].lastTransition.Some? ==> pod.conditions[i].lastTransition.value + wait <= now)
  }

  lemma {:induction false} FirstReadyMeaning(conditions: seq<Condition>, i: nat)
    requires ReadyAt(conditions, i)
    ensures FirstReady(conditions) == Some(conditions[i])
    decreases i
  {
    if i > 0 {
      FirstReadyMeaning(conditions[1..], i - 1);
    }
  }

  lemma {:induction false} FirstReadyExists(conditions: seq<Condition>) returns (i: nat)
    requires FirstReady(conditions).Some?
    ensures ReadyAt(conditions, i)
  {
    i := 0;
    if conditions[0].kind != "Ready" {
      var k := FirstReadyExists(conditions[1..]);
      i := k + 1;
    }
  }

  /** A pod has nothing left to wait for exactly when it has been ready long enough. */
  lemma {:induction false} ReadyForMeaning(pod: Pod, wait: int, now: int)
    ensures ReadyFor(pod, wait, now) <==> IsPodReady(pod) && ReadyRemaining(pod, wait, now) == 0
    ensures IsPodReady(pod) <==> ReadyFor(pod, 0, now)
  {
    forall i: nat | ReadyAt(pod.conditions, i)
      ensures FirstReady(pod.conditions) == Some(pod.conditions[i])
    {
      FirstReadyMeaning(pod.conditions, i);
    }
    if FirstReady(pod.conditions).Some? {
      var i := FirstReadyExists(pod.conditions);
    }
  }

  /** The longest time any of the pods still has to stay ready. */
  function MaxRemaining(pods: seq<Pod>, wait: int, now: int): nat
  {
    if pods == [] then 0
    else
      var rest := MaxRemaining(pods[..|pods| - 1], wait, now);
      var last := ReadyRemaining(pods[|pods| - 1], wait, now);
      if last > rest then last else rest
  }

  lemma {:induction false} MaxRemainingBound(pods: seq<Pod>, wait: int, now: int)
    ensures forall p :: p in pods ==> ReadyRemaining(p, wait, now) <= MaxRemaining(pods, wait, now)
    ensures MaxRemaining(pods, wait, now) > 0 ==> exists p :: p in pods && ReadyRemaining(p, wait, now) == MaxRemaining(pods, wait, now)
  {
    if pods != [] {
      MaxRemainingBound(pods[..|pods| - 1], wait, now);
      assert pods == pods[..|pods| - 1] + [pods[|pods| - 1]];
    }
  }

  lemma {:induction false} MaxRemainingMeaning(pods: seq<Pod>, wait: int, now: int)
    ensures MaxRemaining(pods, wait, now) == 0 <==> forall p :: p in pods ==> ReadyRemaining(p, wait, now) == 0
  {
    MaxRemainingBound(pods, wait, now);
  }

  lemma {:induction false} MaxRemainingElapses(pods: seq<Pod>, wait: int, now: int, t: int)
    requires t >= now
    ensures var r := MaxRemaining(pods, wait, now) - (t - now);
            MaxRemaining(pods, wait, t) == if r > 0 then r else 0
  {
    if pods != [] {
      MaxRemainingElapses(pods[..|pods| - 1], wait, now, t);
    }
  }

  // ---- the node a pod is pinned to ----

  predicate NamesNode(f: Requirement)
  {
    f.key == "metadata.name" && f.operator == In && |f.values| == 1
  }

  /** The last metadata.name field of the term decides. */
  function TermNode(fields: seq<Requirement>): string
  {
    if fields == [] then ""
    else if NamesNode(fields[|fields| - 1]) then fields[|fields| - 1].values[0]
    else TermNode(fields[..|fields| - 1])
  }

  /** The node all terms agree on, "" as soon as one names none or they disagree. */
  function TermsNode(terms: seq<NodeSelectorTerm>): string
  {
    if terms == [] then ""
    else
      var node := TermNode(terms[|terms| - 1].fields);
      if |terms| == 1 then node
      else if node == TermsNode(terms[..|terms| - 1]) then node else ""
  }

  function TargetNode(spec: PodSpec): string
  {
    if spec.nodeName != "" then spec.nodeName
    else if spec.required.None? then ""
    else TermsNode(spec.required.value)
  }

  method FindTargetNode(spec: PodSpec) returns (node: string)
    ensures node == TargetNode(spec)
  {
    if spec.nodeName != "" {
      return spec.nodeName;
    }
    if spec.required.None? {
      return "";
    }
    var terms := spec.required.value;
    node := "";
    for i := 0 to |terms|
      invariant node == TermsNode(terms[..i])
      invariant i > 0 ==> node != ""
    {
      var fields := terms[i].fields;
      var termNode := "";
      for j := 0 to |fields|
        invariant termNode == TermNode(fields[..j])
      {
        assert fields[..j + 1][..j] == fields[..j];
        if NamesNode(fields[j]) {
          termNode := fields[j].values[0];
        }
      }
      assert fields[..|fields|] == fields && terms[..i + 1][..i] == terms[..i];
      if termNode == "" || (node != "" && node != termNode) {
        TermsNodeStops(terms, i + 1);
        return "";
      }
      node := termNode;
    }
    assert terms[..|terms|] == terms;
  }

  /** Once a prefix of the terms determines no node, the whole list does not. */
  lemma {:induction false} TermsNodeStops(terms: seq<NodeSelectorTerm>, i: nat)
    requires 0 < i <= |terms| && TermsNode(terms[..i]) == ""
    ensures TermsNode(terms) == ""
  {
    if i < |terms| {
      assert terms[..|terms| - 1][..i] == terms[..i];
      TermsNodeStops(terms[..|terms| - 1], i);
    } else {
      assert terms[..i] == terms;
    }
  }

  lemma {:induction false} TermNodeBinds(fields: seq<Requirement>, name: string)
    requires forall f :: f in fields ==> FieldHolds(f, name)
    ensures TermNode(fields) == "" || TermNode(fields) == name
  {
    if fields != [] && NamesNode(fields[|fields| - 1]) {
      assert FieldHolds(fields[|fields| - 1], name);
    } else if fields != [] {
      TermNodeBinds(fields[..|fields| - 1], name);
    }
  }

  lemma {:induction false} TermsNodeIsEachTerms(terms: seq<NodeSelectorTerm>, t: NodeSelectorTerm)
    requires t in terms && TermsNode(terms) != ""
    ensures TermNode(t.fields) == TermsNode(terms)
  {
    if |terms| > 1 && t != terms[|terms| - 1] {
      assert terms == terms[..|terms| - 1] + [terms[|terms| - 1]];
      TermsNodeIsEachTerms(terms[..|terms| - 1], t);
    }
  }

  /** A pin is real: an unbound pod with a target node can be placed on no other node. */
  lemma {:induction false} PinIsExclusive(spec: PodSpec, node: Node)
    requires spec.nodeName == "" && TargetNode(spec) != ""
    requires RequiredMatches(spec.required, node)
    ensures node.name == TargetNode(spec)
  {
    var t :| t in spec.required.value && TermMatches(t, node);
    TermsNodeIsEachTerms(spec.required.value, t);
    TermNodeBinds(t.fields, node.name);
  }

  /** Field i is metadata.name In [name], and no later one of that kind has a single value. */
  predicate PinsAt(fields: seq<Requirement>, name: string, i: nat)
  {
    && i < |fields| && fields[i] == Requirement("metadata.name", In, [name])
    && forall j :: i < j < |fields| ==> fields[j].key != "metadata.name" || fields[j].operator != In || |fields[j].values| != 1
  }

  predicate PinsTo(fields: seq<Requirement>, name: string)
  {
    exists i :: 0 <= i < |fields| && PinsAt(fields, name, i)
  }

  lemma {:induction false} TermNodeMeaning(fields: seq<Requirement>, name: string)
    requires name != ""
    ensures TermNode(fields) == name <==> PinsTo(fields, name)
  {
    if fields != [] {
      var n := |fields| - 1;
      if NamesNode(fields[n]) {
        assert fields[n] == Requirement("metadata.name", In, [fields[n].values[0]]);
        assert PinsAt(fields, fields[n].values[0], n);
      } else {
        TermNodeMeaning(fields[..n], name);
        assert forall i :: 0 <= i < n ==> (PinsAt(fields[..n], name, i) <==> PinsAt(fields, name, i));
      }
    }
  }

  lemma {:induction false} TermsNodeMeaning(terms: seq<NodeSelectorTerm>, name: string)
    requires name != ""
    ensures TermsNode(terms) == name <==> terms != [] && forall t :: t in terms ==> PinsTo(t.fields, name)
  {
    if terms != [] {
      var n := |terms| - 1;
      TermsNodeMeaning(terms[..n], name);
      TermNodeMeaning(terms[n].fields, name);
      assert terms == terms[..n] + [terms[n]];
    }
  }

  /** A pod is pinned to a node exactly when it is bound there, or is not bound and each of its required terms, of
      which there is one at least, pins to that name; so it has no target if a term pins to none or two differ. */
  lemma {:induction false} TargetNodeIff(spec: PodSpec, name: string)
    requires name != ""
    ensures TargetNode(spec) == name <==>
            if spec.nodeName != "" then spec.nodeName == name
            else spec.required.Some? && spec.required.value != [] && forall t :: t in spec.required.value ==> PinsTo(t.fields, name)
  {
    if spec.required.Some? {
      TermsNodeMeaning(spec.required.value, name);
    }
  }

  /** In particular, a pod as the DaemonSet controller makes it: every term has the field, and no such field names
      another node. */
  lemma {:induction false} PinIsRecognised(spec: PodSpec, name: string)
    requires name != "" && spec.nodeName == "" && spec.required.Some? && spec.required.value != []
    requires forall t :: t in spec.required.value ==> Requirement("metadata.name", In, [name]) in t.fields
    requires forall t, f :: t in spec.required.value && f in t.fields && f.key == "metadata.name" && f.operator == In && |f.values| == 1
                            ==> f.values == [name]
    ensures TargetNode(spec) == name
  {
    forall t | t in spec.required.value
      ensures PinsTo(t.fields, name)
    {
      OnlyPinIsLast(t.fields, name);
    }
    TargetNodeIff(spec, name);
  }

  lemma {:induction false} OnlyPinIsLast(fields: seq<Requirement>, name: string)
    requires Requirement("metadata.name", In, [name]) in fields
    requires forall f :: f in fields && f.key == "metadata.name" && f.operator == In && |f.values| == 1 ==> f.values == [name]
    ensures PinsTo(fields, name)
  {
    var n := |fields| - 1;
    if fields[n] == Requirement("metadata.name", In, [name]) {
      assert PinsAt(fields, name, n);
    } else {
      assert fields[n] in fields && fields == fields[..n] + [fields[n]];
      OnlyPinIsLast(fields[..n], name);
      assert forall i :: 0 <= i < n && PinsAt(fields[..n], name, i) ==> PinsAt(fields, name, i);
    }
  }

  // ---- steering requirements and tolerations ----

  /** What steers a pod of a later group in NodeLabel mode. */
  function EligibilityRequirement(key: string, groupIndex: nat): Requirement
    requires groupIndex >= 1
  {
    Requirement(key, Gt, [Itoa(groupIndex - 1)])
  }

  function ExistsToleration(key: string): Toleration
  {
    Toleration(key, TolerateExists, "", NoSchedule)
  }

  function ValueToleration(key: string, v: nat): Toleration
  {
    Toleration(key, TolerateEqual, Itoa(v), NoSchedule)
  }

  function EligibilityTolerations(key: string, groupIndex: nat, numGroups: nat): seq<Toleration>
  {
    if groupIndex == 0 then [ExistsToleration(key)]
    else if groupIndex < numGroups then seq(numGroups - groupIndex, (i: nat) => ValueToleration(key, groupIndex + i))
    else []
  }

  method BuildEligibilityTolerations(key: string, groupIndex: nat, numGroups: nat) returns (tols: seq<Toleration>)
    ensures tols == EligibilityTolerations(key, groupIndex, numGroups)
  {
    if groupIndex == 0 {
      return [ExistsToleration(key)];
    }
    tols := [];
    var v := groupIndex;
    while v < numGroups
      invariant groupIndex <= v && (v <= numGroups || v == groupIndex)
      invariant |tols| == v - groupIndex
      invariant forall i :: 0 <= i < |tols| ==> tols[i] == ValueToleration(key, groupIndex + i)
    {
      tols := tols + [ValueToleration(key, v)];
      v := v + 1;
    }
  }

  /** A pod of a later group tolerates exactly the taint values from its own index up to the last group. */
  lemma {:induction false} EligibilityTolerationsMeaning(key: string, k: nat, numGroups: nat, v: nat)
    requires 1 <= k
    ensures Tolerated(EligibilityTolerations(key, k, numGroups), Taint(key, Itoa(v), NoSchedule)) <==> k <= v < numGroups
  {
    var tols := EligibilityTolerations(key, k, numGroups);
    if k <= v < numGroups {
      assert tols[v - k] == ValueToleration(key, v) && tols[v - k] in tols;
    }
    forall t | t in tols && ToleratesTaint(t, Taint(key, Itoa(v), NoSchedule))
      ensures k <= v < numGroups
    {
      assert k < numGroups;
      var i :| 0 <= i < |tols| && tols[i] == t;
      ItoaInjective(k + i, v);
    }
  }

  // ---- in-place edits of a pod spec, as functions ----

  function WithToleration(existing: seq<Toleration>, t: Toleration): seq<Toleration>
  {
    if exists e :: e in existing && MatchToleration(e, t) then existing else existing + [t]
  }

  function WithTolerations(existing: seq<Toleration>, tols: seq<Toleration>): seq<Toleration>
  {
    if tols == [] then existing
    else WithToleration(WithTolerations(existing, tols[..|tols| - 1]), tols[|tols| - 1])
  }

  function Join(values: seq<string>): string
  {
    if values == [] then ""
    else if |values| == 1 then values[0]
    else values[0] + "," + Join(values[1..])
  }

  /** Requirements are compared through their comma-joined values. */
  predicate SameRequirement(a: Requirement, b: Requirement)
  {
    a.key == b.key && a.operator == b.operator && Join(a.values) == Join(b.values)
  }

  predicate HasRequirement(reqs: seq<Requirement>, req: Requirement)
  {
    exists r :: r in reqs && SameRequirement(r, req)
  }

  function TermWith(t: NodeSelectorTerm, req: Requirement): NodeSelectorTerm
  {
    if HasRequirement(t.expressions, req) then t else t.(expressions := t.expressions + [req])
  }

  function TermsWith(terms: seq<NodeSelectorTerm>, req: Requirement): (r: seq<NodeSelectorTerm>)
    ensures |r| == |terms|
  {
    seq(|terms|, i requires 0 <= i < |terms| => TermWith(terms[i], req))
  }

  function WithRequirement(required: Option<seq<NodeSelectorTerm>>, req: Requirement): Option<seq<NodeSelectorTerm>>
  {
    if required.None? || required.value == [] then Some([NodeSelectorTerm([req], [])])
    else Some(TermsWith(required.value, req))
  }

  function WithoutGate(gates: seq<string>, gate: string): seq<string>
  {
    if gates == [] then []
    else
      var rest := WithoutGate(gates[..|gates| - 1], gate);
      if gates[|gates| - 1] != gate then rest + [gates[|gates| - 1]] else rest
  }

  lemma {:induction false} WithoutGateMember(gates: seq<string>, gate: string, g: string)
    ensures g in WithoutGate(gates, gate) <==> g in gates && g != gate
    ensures multiset(WithoutGate(gates, gate))[g] == if g == gate then 0 else multiset(gates)[g]
  {
    if gates != [] {
      WithoutGateMember(gates[..|gates| - 1], gate, g);
      assert gates == gates[..|gates| - 1] + [gates[|gates| - 1]];
    }
  }

  /** Joined values equal to a comma-free nonempty text come from that text alone, so comparing through
      Join never confuses another requirement with the controller's own. */
  lemma {:induction false} JoinWithoutComma(values: seq<string>, s: string)
    requires s != "" && ',' !in s
    ensures Join(values) == s <==> values == [s]
  {
    if |values| >= 2 {
      assert Join(values)[|values[0]|] == ',';
    }
  }

  lemma {:induction false} HasRequirementIsMembership(reqs: seq<Requirement>, key: string, k: nat)
    requires k >= 1
    ensures HasRequirement(reqs, EligibilityRequirement(key, k)) <==> EligibilityRequirement(key, k) in reqs
  {
    var req := EligibilityRequirement(key, k);
    assert ',' !in Itoa(k - 1);
    assert Join(req.values) == Itoa(k - 1);
    forall r | r in reqs && SameRequirement(r, req)
      ensures r == req
    {
      JoinWithoutComma(r.values, Itoa(k - 1));
    }
  }

  /** Every required term carries the requirement. */
  predicate Demands(required: Option<seq<NodeSelectorTerm>>, req: Requirement)
  {
    required.Some? && forall t :: t in required.value ==> req in t.expressions
  }

  lemma {:induction false} WithRequirementDemands(required: Option<seq<NodeSelectorTerm>>, key: string, k: nat)
    requires k >= 1
    ensures Demands(WithRequirement(required, EligibilityRequirement(key, k)), EligibilityRequirement(key, k))
  {
    if required.Some? {
      forall i | 0 <= i < |required.value|
        ensures EligibilityRequirement(key, k) in TermWith(required.value[i], EligibilityRequirement(key, k)).expressions
      {
        HasRequirementIsMembership(required.value[i].expressions, key, k);
      }
    }
  }

  /** What demanding a requirement buys: no node failing it is ever matched. */
  lemma {:induction false} DemandedRequirementHolds(required: Option<seq<NodeSelectorTerm>>, req: Requirement, node: Node)
    requires Demands(required, req) && RequiredMatches(required, node)
    ensures RequirementHolds(req, node.labels)
  {
    var t :| t in required.value && TermMatches(t, node);
  }

  /** The edited term matches a node exactly when the node meets the requirement and the term matched
      before or was empty. */
  lemma {:induction false} TermWithMeaning(t: NodeSelectorTerm, key: string, k: nat, node: Node)
    requires k >= 1
    ensures var req := EligibilityRequirement(key, k);
            TermMatches(TermWith(t, req), node)
            <==> RequirementHolds(req, node.labels) && (TermMatches(t, node) || EmptyTerm(t))
  {
    HasRequirementIsMembership(t.expressions, key, k);
    var req := EligibilityRequirement(key, k);
    var e := TermWith(t, req);
    assert req in e.expressions;
    if !HasRequirement(t.expressions, req) {
      assert forall r :: r in e.expressions <==> r in t.expressions || r == req;
    }
  }

  /** A required affinity that matches nothing for lack of a nonempty term somewhere. */
  predicate Degenerate(required: Option<seq<NodeSelectorTerm>>)
  {
    required.Some? && (required.value == [] || exists t :: t in required.value && EmptyTerm(t))
  }

  /** The affinity edit, for every affinity and node: it adds the requirement, except that terms that
      matched nothing because they were empty start to match. */
  lemma {:induction false} AffinityEditMeaning(required: Option<seq<NodeSelectorTerm>>, key: string, k: nat, node: Node)
    requires k >= 1
    ensures var req := EligibilityRequirement(key, k);
            RequiredMatches(WithRequirement(required, req), node)
            <==> RequirementHolds(req, node.labels) && (RequiredMatches(required, node) || Degenerate(required))
  {
    var req := EligibilityRequirement(key, k);
    var edited := WithRequirement(required, req).value;
    if required.None? || required.value == [] {
      var t := NodeSelectorTerm([req], []);
      assert edited == [t] && (TermMatches(t, node) <==> RequirementHolds(req, node.labels));
      assert t in edited;
    } else {
      var terms := required.value;
      forall i | 0 <= i < |terms|
        ensures TermMatches(edited[i], node)
                <==> RequirementHolds(req, node.labels) && (TermMatches(terms[i], node) || EmptyTerm(terms[i]))
      {
        TermWithMeaning(terms[i], key, k, node);
      }
      if t :| t in terms && (TermMatches(t, node) || EmptyTerm(t)) {
        var i :| 0 <= i < |terms| && terms[i] == t;
        assert edited[i] in edited;
      }
      if t :| t in edited && TermMatches(t, node) {
        var i :| 0 <= i < |edited| && edited[i] == t;
        assert terms[i] in terms;
      }
    }
  }

  /** Exactness on a node fails precisely when a degenerate affinity meets a node that fulfils the
      requirement and was not matched before. */
  lemma {:induction false} AffinityEditExactIff(required: Option<seq<NodeSelectorTerm>>, key: string, k: nat, node: Node)
    requires k >= 1
    ensures var req := EligibilityRequirement(key, k);
            (RequiredMatches(WithRequirement(required, req), node)
             <==> RequiredMatches(required, node) && RequirementHolds(req, node.labels))
            <==> !Degenerate(required) || RequiredMatches(required, node) || !RequirementHolds(req, node.labels)
  {
    AffinityEditMeaning(required, key, k, node);
  }

  /** The failing case is reachable: an empty term matched no node and afterwards matches an eligible one. */
  lemma {:induction false} EmptyTermIsWidened(key: string)
    ensures var required := Some([NodeSelectorTerm([], [])]);
            var node := Node("n", map[key := "3"], [], false);
            var req := EligibilityRequirement(key, 1);
            !RequiredMatches(required, node) && RequiredMatches(WithRequirement(required, req), node)
  {
    var required := Some([NodeSelectorTerm([], [])]);
    var node := Node("n", map[key := "3"], [], false);
    AffinityEditMeaning(required, key, 1, node);
    ParseIntItoa(0);
    ParseIntItoa(3);
    assert Itoa(3) == "3";
    assert EmptyTerm(required.value[0]) && required.value[0] in required.value;
    assert forall t :: t in required.value ==> EmptyTerm(t);
  }

  lemma {:induction false} AffinityEditIdempotent(required: Option<seq<NodeSelectorTerm>>, key: string, k: nat)
    requires k >= 1
    ensures var req := EligibilityRequirement(key, k);
            WithRequirement(WithRequirement(required, req), req) == WithRequirement(required, req)
  {
    var req := EligibilityRequirement(key, k);
    WithRequirementDemands(required, key, k);
    var once := WithRequirement(required, req).value;
    forall i | 0 <= i < |once|
      ensures TermWith(once[i], req) == once[i]
    {
      HasRequirementIsMembership(once[i].expressions, key, k);
    }
    assert TermsWith(once, req) == once;
  }

  lemma {:induction false} TermsNodeOfEdit(terms: seq<NodeSelectorTerm>, req: Requirement)
    ensures TermsNode(TermsWith(terms, req)) == TermsNode(terms)
  {
    if terms != [] {
      assert TermsWith(terms, req)[..|terms| - 1] == TermsWith(terms[..|terms| - 1], req);
      TermsNodeOfEdit(terms[..|terms| - 1], req);
    }
  }

  /** The edit moves no pin, so planning again sees the same target node. */
  lemma {:induction false} AffinityEditKeepsTarget(spec: PodSpec, req: Requirement)
    ensures TargetNode(spec.(required := WithRequirement(spec.required, req))) == TargetNode(spec)
  {
    if spec.required.Some? {
      TermsNodeOfEdit(spec.required.value, req);
    }
  }

  lemma {:induction false} WithTolerationsContains(existing: seq<Toleration>, tols: seq<Toleration>, t: Toleration)
    ensures t in WithTolerations(existing, tols) <==> t in existing || t in tols
    ensures existing <= WithTolerations(existing, tols)
  {
    if tols != [] {
      WithTolerationsContains(existing, tols[..|tols| - 1], t);
      assert tols == tols[..|tols| - 1] + [tols[|tols| - 1]];
    }
  }

  lemma {:induction false} WithTolerationsNoop(existing: seq<Toleration>, tols: seq<Toleration>)
    requires forall t :: t in tols ==> t in existing
    ensures WithTolerations(existing, tols) == existing
  {
    if tols != [] {
      WithTolerationsNoop(existing, tols[..|tols| - 1]);
      assert tols[|tols| - 1] in existing && MatchToleration(tols[|tols| - 1], tols[|tols| - 1]);
    }
  }

  // ---- keys still referenced by pending pods ----

  predicate PendingRequires(p: Pod, key: string)
  {
    && p.spec.nodeName == "" && IsActive(p) && p.spec.required.Some? && IsEligibilityKey(key)
    && exists t, e :: t in p.spec.required.value && e in t.expressions && e.key == key
  }

  predicate Referenced(pods: seq<Pod>, key: string)
  {
    exists p :: p in pods && PendingRequires(p, key)
  }

  /** The key of a sequence is held exactly by the pods that are not bound, not finished and not going, and name it
      in one of their required terms. */
  lemma {:induction false} ReferencedMeaning(pods: seq<Pod>, digest: Digest)
    ensures Referenced(pods, EligibilityKey(digest)) <==>
            exists p, t, e :: p in pods && p.spec.nodeName == "" && !p.deleting && p.phase != Succeeded && p.phase != Failed
                              && p.spec.required.Some? && t in p.spec.required.value && e in t.expressions && e.key == EligibilityKey(digest)
  {
    EligibilityKeyIsNotLegacy(digest);
  }

  method PendingRequiredKeys(pods: seq<Pod>) returns (keys: set<string>)
    ensures forall k :: k in keys <==> Referenced(pods, k)
  {
    keys := {};
    for i := 0 to |pods|
      invariant forall k :: k in keys <==> Referenced(pods[..i], k)
    {
      var p := pods[i];
      var before := keys;
      if !(p.spec.nodeName != "" || !IsActive(p) || p.spec.required.None?) {
        var terms := p.spec.required.value;
        for j := 0 to |terms|
          invariant forall k :: k in keys <==> k in before || (IsEligibilityKey(k) && exists t, e :: t in terms[..j] && e in t.expressions && e.key == k)
        {
          var exprs := terms[j].expressions;
          var outer := keys;
          for l := 0 to |exprs|
            invariant forall k :: k in keys <==> k in outer || (IsEligibilityKey(k) && exists e :: e in exprs[..l] && e.key == k)
          {
            if IsEligibilityKey(exprs[l].key) {
              keys := keys + {exprs[l].key};
            }
            assert exprs[..l + 1] == exprs[..l] + [exprs[l]];
          }
          assert exprs[..|exprs|] == exprs;
          assert terms[..j + 1] == terms[..j] + [terms[j]];
        }
        assert terms[..|terms|] == terms;
      }
      assert forall k :: k in keys <==> k in before || PendingRequires(p, k);
      assert pods[..i + 1] == pods[..i] + [p];
    }
    assert pods[..|pods|] == pods;
  }
}
