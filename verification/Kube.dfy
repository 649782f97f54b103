/** The Kubernetes objects the controller reads and writes, and what a scheduler makes of them. */
module Kube {
  import opened Options
  import opened Decimal

  type Labels = map<string, string>

  datatype Effect = AnyEffect | NoSchedule | PreferNoSchedule | NoExecute

  datatype Taint = Taint(key: string, value: string, effect: Effect)

  datatype TolerationOperator = UnsetOperator | TolerateEqual | TolerateExists | OtherOperator

  datatype Toleration = Toleration(key: string, operator: TolerationOperator, value: string, effect: Effect)

  datatype NodeSelectorOperator = In | NotIn | Exists | DoesNotExist | Gt | Lt

  datatype Requirement = Requirement(key: string, operator: NodeSelectorOperator, values: seq<string>)

  datatype NodeSelectorTerm = NodeSelectorTerm(expressions: seq<Requirement>, fields: seq<Requirement>)

  /** required is the required node affinity; None when any of the nested pointers is nil. */
  datatype PodSpec = PodSpec(nodeName: string, gates: seq<string>, nodeSelector: Labels,
                             required: Option<seq<NodeSelectorTerm>>, tolerations: seq<Toleration>, hostNetwork: bool)

  datatype PodPhase = Pending | Running | Succeeded | Failed | UnknownPhase

  datatype ConditionStatus = ConditionTrue | ConditionFalse | ConditionUnknown

  /** lastTransition is None for the zero time. */
  datatype Condition = Condition(kind: string, status: ConditionStatus, lastTransition: Option<int>)

  datatype OwnerRef = OwnerRef(uid: string, controller: bool)

  datatype Pod = Pod(namespace: string, name: string, uid: string, version: nat, labels: Labels, annotations: Labels,
                     owners: seq<OwnerRef>, deleting: bool, created: int, spec: PodSpec, phase: PodPhase,
                     conditions: seq<Condition>)

  datatype Node = Node(name: string, labels: Labels, taints: seq<Taint>, deleting: bool)

  datatype DaemonSet = DaemonSet(name: string, uid: string, deleting: bool, templateLabels: Labels, template: PodSpec)

  /** The outcome of one patch: it is applied as a whole, or the object is gone, or it fails. */
  datatype PatchResult = Applied | NotFound | Rejected

  predicate ToleratesTaint(t: Toleration, taint: Taint)
  {
    && (t.effect == AnyEffect || t.effect == taint.effect)
    && (t.key == "" || t.key == taint.key)
    && match t.operator
       case UnsetOperator => t.value == taint.value
       case TolerateEqual => t.value == taint.value
       case TolerateExists => true
       case OtherOperator => false
  }

  predicate Tolerated(tolerations: seq<Toleration>, taint: Taint)
  {
    exists t :: t in tolerations && ToleratesTaint(t, taint)
  }

  /** No taint that keeps pods off the node is left untolerated. */
  predicate TaintsTolerated(taints: seq<Taint>, tolerations: seq<Toleration>)
  {
    forall t :: t in taints && (t.effect == NoSchedule || t.effect == NoExecute) ==> Tolerated(tolerations, t)
  }

  predicate MatchToleration(a: Toleration, b: Toleration)
  {
    a.key == b.key && a.effect == b.effect && a.operator == b.operator && a.value == b.value
  }

  /** Gt and Lt compare integers: exactly one value, and both sides must parse. */
  function Compared(r: Requirement, labels: Labels): Option<(int, int)>
  {
    if |r.values| != 1 || r.key !in labels then None
    else
      match (ParseInt(labels[r.key]), ParseInt(r.values[0]))
      case (Some(l), Some(v)) => Some((l, v))
      case _ => None
  }

  /** A malformed requirement makes its whole term match nothing, as does a requirement that fails. */
  predicate RequirementHolds(r: Requirement, labels: Labels)
  {
    match r.operator
    case In => r.values != [] && r.key in labels && labels[r.key] in r.values
    case NotIn => r.values != [] && (r.key !in labels || labels[r.key] !in r.values)
    case Exists => r.values == [] && r.key in labels
    case DoesNotExist => r.values == [] && r.key !in labels
    case Gt => (match Compared(r, labels) case None => false case Some(p) => p.0 > p.1)
    case Lt => (match Compared(r, labels) case None => false case Some(p) => p.0 < p.1)
  }

  function FieldValue(key: string, nodeName: string): string
  {
    if key == "metadata.name" then nodeName else ""
  }

  predicate FieldHolds(r: Requirement, nodeName: string)
  {
    match r.operator
    case In => |r.values| == 1 && FieldValue(r.key, nodeName) == r.values[0]
    case NotIn => |r.values| == 1 && FieldValue(r.key, nodeName) != r.values[0]
    case _ => false
  }

  predicate EmptyTerm(t: NodeSelectorTerm)
  {
    t.expressions == [] && t.fields == []
  }

  /** A term is the conjunction of its requirements; an empty term matches nothing. */
  predicate TermMatches(t: NodeSelectorTerm, node: Node)
  {
    && !EmptyTerm(t)
    && (forall r :: r in t.expressions ==> RequirementHolds(r, node.labels))
    && (forall r :: r in t.fields ==> FieldHolds(r, node.name))
  }

  /** The required terms are a disjunction. */
  predicate RequiredMatches(required: Option<seq<NodeSelectorTerm>>, node: Node)
  {
    required.Some? ==> exists t :: t in required.value && TermMatches(t, node)
  }

  predicate AffinityMatches(spec: PodSpec, node: Node)
  {
    && (forall k :: k in spec.nodeSelector ==> k in node.labels && node.labels[k] == spec.nodeSelector[k])
    && RequiredMatches(spec.required, node)
  }
}
