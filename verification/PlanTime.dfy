/** Time alone: when a plan for an unchanged cluster next changes, and that the controller wakes up then. */
module PlanTime {
  import opened Options
  import opened Collections
  import opened Kube
  import opened Sequence
  import opened NodePlanSpec
  import opened NodePlans
  import opened PlanMeaning
  import opened PlanOrder

  /** NodeResync, in nanoseconds. */
  const NODE_RESYNC: int := 60_000_000_000

  function At(input: PlanInput, t: int): PlanInput
  {
    input.(now := t)
  }

  /** The results of a plan that steer pods or status, leaving out texts. */
  datatype Observed = Observed(nodes: seq<NodeState>, ungate: seq<PodAction>, gated: nat, timedOut: seq<TimedOutPod>)

  function WithoutText(states: seq<NodeState>): (r: seq<NodeState>)
    ensures |r| == |states|
    ensures forall i :: 0 <= i < |states| ==> r[i] == states[i].(message := Clear)
  {
    seq(|states|, i requires 0 <= i < |states| => states[i].(message := Clear))
  }

  function Observe(input: PlanInput): Observed
  {
    Observed(WithoutText(FinalStates(input)), Ungate(input), GatedPods(input), TimedOut(input))
  }

  /** Nothing but texts would be different at time t. */
  ghost predicate Unchanged(input: PlanInput, t: int)
  {
    Observe(At(input, t)) == Observe(input)
  }

  function Elapse(b: Block, passed: int): Block
  {
    if b.Waiting? then (if b.remaining > passed then Waiting(b.remaining - passed) else Clear) else b
  }

  lemma {:induction false} MembersTimeless(input: PlanInput, t: int)
    ensures Members(At(input, t)) == Members(input)
    ensures Collect(StrayAction(At(input, t)), input.pods) == Collect(StrayAction(input), input.pods)
  {
    CollectAgree(AsMember(At(input, t)), AsMember(input), input.pods);
    CollectAgree(StrayAction(At(input, t)), StrayAction(input), input.pods);
  }

  lemma {:induction false} BlockElapses(input: PlanInput, node: Node, j: nat, t: int)
    requires t >= input.now && j < NumGroups(input)
    ensures BlockOf(At(input, t), node, j) == Elapse(BlockOf(input, node, j), t - input.now)
  {
    MembersTimeless(input, t);
    MaxRemainingElapses(PodsOn(input, node.name, j), WaitOf(input.sequence.podGroups[j]), input.now, t);
  }

  /** Waiting never loses ground, and exactly the expiry of the current wait gains some. */
  lemma {:induction false} ClearElapses(blocks: seq<Block>, later: seq<Block>, j: nat, passed: int)
    requires j <= |blocks| == |later| && passed >= 0 && forall i :: 0 <= i < |blocks| ==> later[i] == Elapse(blocks[i], passed)
    ensures var s, r := ClearUntil(blocks, j), ClearUntil(later, j);
            s <= |blocks| && if s < |blocks| && Elapse(blocks[s], passed) == Clear then r > s else r == s
    decreases |blocks| - j
  {
    if j < |blocks| {
      ClearElapses(blocks, later, j + 1, passed);
      ClearUntilMeaning(later, j);
    }
  }

  lemma {:induction false} SatisfiedElapses(input: PlanInput, node: Node, t: int)
    requires t >= input.now
    ensures var s := SatisfiedFrom(input, node, 0);
            var later := SatisfiedFrom(At(input, t), node, 0);
            if s < NumGroups(input) && Elapse(BlockOf(input, node, s), t - input.now) == Clear then later > s else later == s
  {
    var blocks, later := Blocks(input, node), Blocks(At(input, t), node);
    forall i | 0 <= i < |blocks|
      ensures later[i] == Elapse(blocks[i], t - input.now)
    {
      BlockElapses(input, node, i, t);
    }
    ClearElapses(blocks, later, 0, t - input.now);
    BlocksGiveCount(input, node, blocks, 0);
    BlocksGiveCount(At(input, t), node, later, 0);
  }

  /** How a node's state ages: exactly an expired wait moves its satisfied count, and upwards. */
  predicate Aged(st: NodeState, later: NodeState, passed: int)
  {
    && later.name == st.name && later.participating == st.participating && later.failed == st.failed
    && (if st.message.Waiting? && st.message.remaining <= passed then later.satisfied > st.satisfied
        else later.satisfied == st.satisfied)
    && (st.message.Waiting? ==> st.message.remaining > 0)
  }

  lemma {:induction false} StateElapses(input: PlanInput, node: Node, t: int)
    requires t >= input.now
    ensures Aged(BaseState(input, node), BaseState(At(input, t), node), t - input.now)
  {
    SatisfiedElapses(input, node, t);
    SatisfiedFromMeaning(input, node);
    var s := SatisfiedFrom(input, node, 0);
    if s < NumGroups(input) {
      BlockMeaning(input, node, s);
    }
  }

  lemma {:induction false} StatesElapse(input: PlanInput, t: int, i: nat)
    requires t >= input.now && i < |BaseStates(input)|
    ensures |BaseStates(At(input, t))| == |BaseStates(input)|
    ensures Aged(BaseStates(input)[i], BaseStates(At(input, t))[i], t - input.now)
  {
    var nodes := SortByName(input.nodes);
    StatesOfAt(input, nodes, i);
    StatesOfAt(At(input, t), nodes, i);
    StateElapses(input, nodes[i], t);
  }

  // ---- the wake-up list ----

  lemma {:induction false} WaitIsDue(states: seq<NodeState>, i: nat)
    requires i < |states| && states[i].message.Waiting?
    ensures states[i].message.remaining in Collect(NodeWait(), states)
  {
    CollectMember(NodeWait(), states, states[i].message.remaining);
    assert NodeWait()(states[i]) == Some(states[i].message.remaining);
  }

  lemma {:induction false} WaitOfDue(states: seq<NodeState>, d: int) returns (i: nat)
    requires d in Collect(NodeWait(), states)
    ensures i < |states| && states[i].message == Waiting(d)
  {
    CollectMember(NodeWait(), states, d);
    var st :| st in states && NodeWait()(st) == Some(d);
    i :| 0 <= i < |states| && states[i] == st;
  }

  lemma {:induction false} DeadlineIsDue(input: PlanInput, states: seq<NodeState>, members: seq<Member>, m: Member)
    requires m in members && DeadlineWait(input, states)(m).Some?
    ensures DeadlineWait(input, states)(m).value in Collect(DeadlineWait(input, states), members)
  {
    CollectMember(DeadlineWait(input, states), members, DeadlineWait(input, states)(m).value);
  }

  lemma {:induction false} DeadlineOfDue(input: PlanInput, states: seq<NodeState>, members: seq<Member>, d: int) returns (m: Member)
    requires d in Collect(DeadlineWait(input, states), members)
    ensures m in members && DeadlineWait(input, states)(m) == Some(d)
  {
    CollectMember(DeadlineWait(input, states), members, d);
    m :| m in members && DeadlineWait(input, states)(m) == Some(d);
  }

  /** No node wait and no deadline of the plan falls before t. */
  ghost predicate NothingDue(input: PlanInput, t: int)
  {
    && t >= input.now
    && (forall d :: d in Collect(NodeWait(), BaseStates(input)) ==> t - input.now < d)
    && (forall d :: d in Collect(DeadlineWait(input, BaseStates(input)), Members(input)) ==> t - input.now < d)
  }

  lemma {:induction false} QuietState(input: PlanInput, t: int, i: nat)
    requires NothingDue(input, t) && i < |BaseStates(input)|
    ensures |BaseStates(At(input, t))| == |BaseStates(input)|
    ensures BaseStates(At(input, t))[i].(message := Clear) == BaseStates(input)[i].(message := Clear)
  {
    StatesElapse(input, t, i);
    if BaseStates(input)[i].message.Waiting? {
      WaitIsDue(BaseStates(input), i);
    }
  }

  /** Two lists of states agree but for the texts. */
  ghost predicate SameButText(a: seq<NodeState>, b: seq<NodeState>)
  {
    |a| == |b| && forall i :: 0 <= i < |a| ==> a[i].(message := Clear) == b[i].(message := Clear)
  }

  lemma {:induction false} QuietStates(input: PlanInput, t: int)
    requires NothingDue(input, t)
    ensures SameButText(BaseStates(At(input, t)), BaseStates(input))
  {
    forall i | 0 <= i < |BaseStates(input)|
      ensures BaseStates(At(input, t))[i].(message := Clear) == BaseStates(input)[i].(message := Clear)
    {
      QuietState(input, t, i);
    }
  }

  lemma {:induction false} QuietDecision(input: PlanInput, t: int, a: seq<NodeState>, b: seq<NodeState>, m: Member)
    requires SameButText(a, b) && t >= input.now
    requires DeadlineWait(input, b)(m).Some? ==> t - input.now < DeadlineWait(input, b)(m).value
    ensures MemberAction(At(input, t), a)(m) == MemberAction(input, b)(m)
    ensures KeptPod(At(input, t), a)(m) == KeptPod(input, b)(m)
    ensures TimeoutEntry(At(input, t), a)(m) == TimeoutEntry(input, b)(m)
    ensures Lookup(a, m.node) == Lookup(b, m.node)
  {
    SameFacts(a, b);
    SameDecisions(At(input, t), input, a, b, m);
    SameLookup(a, b, m.node);
  }

  lemma {:induction false} QuietMember(input: PlanInput, t: int, m: Member)
    requires NothingDue(input, t) && m in Members(input)
    ensures var a, b := BaseStates(At(input, t)), BaseStates(input);
            && MemberAction(At(input, t), a)(m) == MemberAction(input, b)(m)
            && KeptPod(At(input, t), a)(m) == KeptPod(input, b)(m)
            && TimeoutEntry(At(input, t), a)(m) == TimeoutEntry(input, b)(m)
            && Lookup(a, m.node) == Lookup(b, m.node)
  {
    QuietStates(input, t);
    if DeadlineWait(input, BaseStates(input))(m).Some? {
      DeadlineIsDue(input, BaseStates(input), Members(input), m);
    }
    QuietDecision(input, t, BaseStates(At(input, t)), BaseStates(input), m);
  }

  lemma {:induction false} SameFacts(a: seq<NodeState>, b: seq<NodeState>)
    requires SameButText(a, b)
    ensures forall i :: 0 <= i < |a| ==>
              a[i].name == b[i].name && a[i].participating == b[i].participating && a[i].satisfied == b[i].satisfied && a[i].failed == b[i].failed
  {
    forall i | 0 <= i < |a|
      ensures a[i].name == b[i].name && a[i].participating == b[i].participating && a[i].satisfied == b[i].satisfied && a[i].failed == b[i].failed
    {
      assert a[i].(message := Clear) == b[i].(message := Clear);
    }
  }

  /** Without a fresh timeout, the same nodes are failed. */
  lemma {:induction false} SameFailures(x: PlanInput, y: PlanInput, a: seq<NodeState>, b: seq<NodeState>, members: seq<Member>, i: nat)
    requires SameButText(a, b) && i < |a|
    requires forall m :: m in members ==> TimeoutEntry(x, a)(m) == TimeoutEntry(y, b)(m) && Lookup(a, m.node) == Lookup(b, m.node)
    ensures MarkFailed(x, a, members)[i].(message := Clear) == MarkFailed(y, b, members)[i].(message := Clear)
  {
    MarkFailedMeaning(x, a, members, i);
    MarkFailedMeaning(y, b, members, i);
    MarkFailedKeeps(x, a, members);
    MarkFailedKeeps(y, b, members);
    forall m | m in members
      ensures (Kept(x, a, m) && Expired(x, m.pod)) == (Kept(y, b, m) && Expired(y, m.pod))
    {
      assert TimeoutEntry(x, a)(m).Some? == TimeoutEntry(y, b)(m).Some?;
    }
    assert a[i].(message := Clear) == b[i].(message := Clear);
    assert MarkFailed(x, a, members)[i].(failed := a[i].failed) == a[i];
    assert MarkFailed(y, b, members)[i].(failed := b[i].failed) == b[i];
  }

  lemma {:induction false} QuietNodes(input: PlanInput, t: int)
    requires NothingDue(input, t)
    ensures WithoutText(FinalStates(At(input, t))) == WithoutText(FinalStates(input))
  {
    var a, b, members := BaseStates(At(input, t)), BaseStates(input), Members(input);
    MembersTimeless(input, t);
    QuietStates(input, t);
    forall m | m in members
      ensures TimeoutEntry(At(input, t), a)(m) == TimeoutEntry(input, b)(m) && Lookup(a, m.node) == Lookup(b, m.node)
    {
      QuietMember(input, t, m);
    }
    forall i | 0 <= i < |b|
      ensures MarkFailed(At(input, t), a, members)[i].(message := Clear) == MarkFailed(input, b, members)[i].(message := Clear)
    {
      SameFailures(At(input, t), input, a, b, members, i);
    }
  }

  /** Until the first due moment nothing the plan decides changes. */
  lemma {:induction false} QuietUntilDue(input: PlanInput, t: int)
    requires NothingDue(input, t)
    ensures Unchanged(input, t)
  {
    var later, a, b, members := At(input, t), BaseStates(At(input, t)), BaseStates(input), Members(input);
    MembersTimeless(input, t);
    QuietNodes(input, t);
    forall m | m in members
      ensures MemberAction(later, a)(m) == MemberAction(input, b)(m) && KeptPod(later, a)(m) == KeptPod(input, b)(m)
      ensures TimeoutEntry(later, a)(m) == TimeoutEntry(input, b)(m)
    {
      QuietMember(input, t, m);
    }
    CollectAgree(MemberAction(later, a), MemberAction(input, b), members);
    CollectAgree(KeptPod(later, a), KeptPod(input, b), members);
    CollectAgree(TimeoutEntry(later, a), TimeoutEntry(input, b), members);
  }

  lemma {:induction false} WakeUpsArePositive(input: PlanInput, d: int)
    requires d in WakeUps(input)
    ensures d > 0
  {
    if d in Collect(NodeWait(), BaseStates(input)) {
      var i := WaitOfDue(BaseStates(input), d);
      StatesElapse(input, input.now, i);
    } else {
      var m := DeadlineOfDue(input, BaseStates(input), Members(input), d);
    }
  }

  lemma {:induction false} GainIsSeen(x: PlanInput, y: PlanInput, i: nat)
    requires i < |BaseStates(x)| == |BaseStates(y)| && BaseStates(x)[i].satisfied != BaseStates(y)[i].satisfied
    ensures WithoutText(FinalStates(x)) != WithoutText(FinalStates(y))
  {
    FailedIsBlocked(x, i);
    FailedIsBlocked(y, i);
    assert WithoutText(FinalStates(x))[i].satisfied != WithoutText(FinalStates(y))[i].satisfied;
  }

  lemma {:induction false} NodeWaitFires(input: PlanInput, i: nat, d: int)
    requires i < |BaseStates(input)| && BaseStates(input)[i].message == Waiting(d)
    ensures !Unchanged(input, input.now + d)
  {
    StatesElapse(input, input.now, i);
    StatesElapse(input, input.now + d, i);
    GainIsSeen(At(input, input.now + d), input, i);
  }

  lemma {:induction false} SameFinalSameBase(x: PlanInput, y: PlanInput)
    requires WithoutText(FinalStates(x)) == WithoutText(FinalStates(y))
    ensures SameButText(BaseStates(x), BaseStates(y))
  {
    assert |WithoutText(FinalStates(x))| == |WithoutText(FinalStates(y))|;
    forall i | 0 <= i < |BaseStates(x)|
      ensures BaseStates(x)[i].(message := Clear) == BaseStates(y)[i].(message := Clear)
    {
      FailedIsBlocked(x, i);
      FailedIsBlocked(y, i);
      assert WithoutText(FinalStates(x))[i] == WithoutText(FinalStates(y))[i];
    }
  }

  lemma {:induction false} DeadlineFires(input: PlanInput, m: Member, d: int)
    requires m in Members(input) && DeadlineWait(input, BaseStates(input))(m) == Some(d)
    ensures !Unchanged(input, input.now + d)
  {
    var later := At(input, input.now + d);
    MembersTimeless(input, later.now);
    var entry := TimedOutPod(m.pod, m.node, m.group);
    CollectMember(TimeoutEntry(input, BaseStates(input)), Members(input), entry);
    if Observe(later) == Observe(input) {
      SameFinalSameBase(later, input);
      SameFacts(BaseStates(later), BaseStates(input));
      SameDecisions(later, input, BaseStates(later), BaseStates(input), m);
      assert TimeoutEntry(later, BaseStates(later))(m) == Some(entry);
      CollectMember(TimeoutEntry(later, BaseStates(later)), Members(input), entry);
    }
  }

  lemma {:induction false} NothingDueBefore(input: PlanInput, t: int)
    requires input.now <= t && (RequeueAfter(input) == 0 || t < input.now + RequeueAfter(input))
    ensures NothingDue(input, t)
  {
    var waits, deadlines := Collect(NodeWait(), BaseStates(input)), Collect(DeadlineWait(input, BaseStates(input)), Members(input));
    SoonestMeaning(waits + deadlines);
    forall d | d in waits || d in deadlines
      ensures t - input.now < d
    {
      assert d in waits + deadlines;
      WakeUpsArePositive(input, d);
    }
  }

  lemma {:induction false} DueWaitFires(input: PlanInput, states: seq<NodeState>, d: int)
    requires states == BaseStates(input) && d in Collect(NodeWait(), states)
    ensures !Unchanged(input, input.now + d)
  {
    var i := WaitOfDue(states, d);
    NodeWaitFires(input, i, d);
  }

  lemma {:induction false} DueDeadlineFires(input: PlanInput, states: seq<NodeState>, members: seq<Member>, d: int)
    requires states == BaseStates(input) && members == Members(input) && d in Collect(DeadlineWait(input, states), members)
    ensures !Unchanged(input, input.now + d)
  {
    var m := DeadlineOfDue(input, states, members, d);
    DeadlineFires(input, m, d);
  }

  lemma {:induction false} DueMomentFires(input: PlanInput, d: int)
    requires d in WakeUps(input)
    ensures !Unchanged(input, input.now + d)
  {
    var states, members := BaseStates(input), Members(input);
    if d in Collect(NodeWait(), states) {
      DueWaitFires(input, states, d);
    } else {
      DueDeadlineFires(input, states, members, d);
    }
  }

  lemma {:induction false} QuietBefore(input: PlanInput, t: int)
    requires input.now <= t && (RequeueAfter(input) == 0 || t < input.now + RequeueAfter(input))
    ensures Unchanged(input, t)
  {
    NothingDueBefore(input, t);
    QuietUntilDue(input, t);
  }

  lemma {:induction false} RequeueIsDue(input: PlanInput)
    ensures RequeueAfter(input) >= 0 && (RequeueAfter(input) > 0 ==> RequeueAfter(input) in WakeUps(input))
  {
    SoonestMeaning(WakeUps(input));
  }

  /** The requested delay is exact: every earlier evaluation decides the same, and at that moment something
      differs; without a request nothing ever changes by itself. */
  lemma {:induction false} WakeUpIsExact(input: PlanInput, t: int)
    requires input.now <= t
    ensures RequeueAfter(input) >= 0
    ensures RequeueAfter(input) == 0 || t < input.now + RequeueAfter(input) ==> Unchanged(input, t)
    ensures RequeueAfter(input) > 0 && t == input.now + RequeueAfter(input) ==> !Unchanged(input, t)
  {
    RequeueIsDue(input);
    if RequeueAfter(input) == 0 || t < input.now + RequeueAfter(input) {
      QuietBefore(input, t);
    } else if t == input.now + RequeueAfter(input) {
      DueMomentFires(input, RequeueAfter(input));
    }
  }

  ghost predicate QuietUntil(input: PlanInput, end: int)
  {
    forall t :: input.now <= t < end ==> Unchanged(input, t)
  }

  /** A sound sleep: it ends, after a minute at the latest; it ends sooner only if a decision changes then; and none
      changes before. */
  ghost predicate SleepsSoundly(input: PlanInput, delay: int)
  {
    && 0 < delay <= 60_000_000_000
    && (delay == 60_000_000_000 || !Unchanged(input, input.now + delay))
    && QuietUntil(input, input.now + delay)
  }

  lemma {:induction false} QuietUntilRequested(input: PlanInput, delay: int)
    requires RequeueAfter(input) == 0 || delay <= RequeueAfter(input)
    ensures QuietUntil(input, input.now + delay)
  {
    forall t | input.now <= t < input.now + delay
      ensures Unchanged(input, t)
    {
      WakeUpIsExact(input, t);
    }
  }

  lemma {:induction false} ChangesWhenRequested(input: PlanInput, delay: int)
    requires delay == RequeueAfter(input) > 0
    ensures !Unchanged(input, input.now + delay)
  {
    RequeueIsDue(input);
    DueMomentFires(input, delay);
  }

  lemma {:induction false} SoundIfRequested(input: PlanInput, delay: int)
    requires 0 < delay < NODE_RESYNC && !Unchanged(input, input.now + delay) && QuietUntil(input, input.now + delay)
    ensures SleepsSoundly(input, delay)
  {
  }

  lemma {:induction false} SoundIfResync(input: PlanInput, delay: int)
    requires delay == NODE_RESYNC && QuietUntil(input, input.now + delay)
    ensures SleepsSoundly(input, delay)
  {
  }

  /** Asleep for the time the plan requests, or for a minute if that is sooner or nothing is requested, the
      controller misses no decision that time alone would change, and it does wake up. */
  lemma {:induction false} NothingMissedAsleep(input: PlanInput, delay: int)
    requires delay == if 0 < RequeueAfter(input) < NODE_RESYNC then RequeueAfter(input) else NODE_RESYNC
    ensures SleepsSoundly(input, delay)
  {
    RequeueIsDue(input);
    QuietUntilRequested(input, delay);
    if delay == RequeueAfter(input) && delay < NODE_RESYNC {
      ChangesWhenRequested(input, delay);
      SoundIfRequested(input, delay);
    } else {
      SoundIfResync(input, delay);
    }
  }
}
