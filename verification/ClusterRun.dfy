/** Whole runs of a cluster-scoped sequence. Passes read any earlier status and any earlier pods; what they do
    lands in any order, late or not at all; conflicting status writes are dropped. Meanwhile pods come, change,
    are bound and go. A pod still never loses its gate before the groups below its own have passed. */
module ClusterRun {
  import opened Options
  import opened Collections
  import opened Kube
  import opened Sequence
  import opened PodEdits
  import opened Status
  import opened ClusterScoped
  import opened ClusterMeaning

  /** A stored advance of the index: the pods the group was seen with, and when. */
  datatype Advance = Advance(pods: seq<Pod>, now: int)

  /** history holds every stored status, the latest last, and advances the passes whose advance was stored.
      pods are stored by uid and versions holds every pod ever stored. known are all uids ever used, and held
      those of the pods created with the gate. */
  datatype State = State(history: seq<SequenceStatus>, advances: seq<Advance>, pods: map<string, Pod>, versions: set<Pod>,
                         known: set<string>, held: set<string>)

  /** A pass is given by the version of the status it read, the answers it got and its clock. */
  datatype Pass = Pass(version: nat, answers: Answers, now: int)

  datatype Step =
    | StoreStatus(pass: Pass)
    | RemoveGate(pass: Pass, pod: Pod)
    | Bind(uid: string, node: string)
    | CreatePod(created: Pod)
    | ChangePod(changed: Pod)
    | DeletePod(deleted: string)

  ghost predicate Init(st: State)
  {
    && |st.history| == 1 && st.history[0].currentIndex == 0 && st.history[0].processedPods == [] && st.history[0].phase == NoPhase
    && st.advances == [] && st.pods == map[] && st.versions == {} && st.known == {} && st.held == {}
  }

  /** The reads of a pass name pods that belong to the groups asked for. */
  ghost predicate HonestAnswers(s: PodSequence, idx: nat, a: Answers)
  {
    && |a.others| == |s.podGroups|
    && (idx < |s.podGroups| ==> Honest(s, s.podGroups[idx], a.current))
    && (forall k :: 0 <= k < |s.podGroups| ==> Honest(s, s.podGroups[k], a.others[k]))
  }

  ghost predicate Possible(s: PodSequence, st: State, pass: Pass)
  {
    pass.version < |st.history| && HonestAnswers(s, st.history[pass.version].currentIndex, pass.answers)
  }

  function Outcome(s: PodSequence, st: State, pass: Pass): PassResult
    requires pass.version < |st.history| && |pass.answers.others| == |s.podGroups|
  {
    ClusterPass(s, st.history[pass.version], pass.answers, pass.now)
  }

  /** The pods a pass read in its own group had been stored by then. */
  ghost predicate ReadStored(s: PodSequence, st: State, pass: Pass)
    requires pass.version < |st.history|
  {
    var idx := st.history[pass.version].currentIndex;
    idx < |s.podGroups| && PodsInGroup(s.podGroups[idx], pass.answers.current).Some? ==>
      forall p :: p in PodsInGroup(s.podGroups[idx], pass.answers.current).value ==> p in st.versions
  }

  /** A status is stored only if the one read is still the latest, and a gate removed only if the pod read is
      still the stored one. Others leave the gate and the group of a held pod alone, and the scheduler binds
      only pods without gates. */
  ghost predicate Enabled(s: PodSequence, st: State, step: Step)
  {
    match step
    case StoreStatus(pass) =>
      Possible(s, st, pass) && ReadStored(s, st, pass) && pass.version == |st.history| - 1 && Outcome(s, st, pass).stores
    case RemoveGate(pass, p) => Possible(s, st, pass) && p in Outcome(s, st, pass).removed && p.uid in st.pods && st.pods[p.uid] == p
    case Bind(uid, n) => uid in st.pods && st.pods[uid].spec.gates == []
    case CreatePod(p) => p.uid !in st.known
    case ChangePod(q) =>
      && q.uid in st.pods
      && (q.uid in st.held ==>
            && GroupIndexForPod(s, q) == GroupIndexForPod(s, st.pods[q.uid])
            && HasGate(q.spec, GateName(s)) == HasGate(st.pods[q.uid].spec, GateName(s)))
    case DeletePod(uid) => uid in st.pods
  }

  function Current(st: State): nat
    requires st.history != []
  {
    st.history[|st.history| - 1].currentIndex
  }

  /** The advance a stored status makes, if any. */
  function Gained(s: PodSequence, st: State, pass: Pass): seq<Advance>
    requires pass.version < |st.history| && |pass.answers.others| == |s.podGroups|
  {
    var read := st.history[pass.version];
    if Outcome(s, st, pass).status.currentIndex > read.currentIndex && read.currentIndex < |s.podGroups|
       && PodsInGroup(s.podGroups[read.currentIndex], pass.answers.current).Some?
    then [Advance(PodsInGroup(s.podGroups[read.currentIndex], pass.answers.current).value, pass.now)] else []
  }

  function Put(st: State, uid: string, p: Pod): State
  {
    st.(pods := st.pods[uid := p], versions := st.versions + {p})
  }

  ghost function Apply(s: PodSequence, st: State, step: Step): State
    requires Enabled(s, st, step)
  {
    match step
    case StoreStatus(pass) =>
      st.(history := st.history + [Outcome(s, st, pass).status], advances := st.advances + Gained(s, st, pass))
    case RemoveGate(pass, p) => Put(st, p.uid, p.(spec := Ungated(p.spec, GateName(s)), version := p.version + 1))
    case Bind(uid, n) => Put(st, uid, st.pods[uid].(spec := st.pods[uid].spec.(nodeName := n)))
    case CreatePod(p) =>
      Put(st, p.uid, p).(known := st.known + {p.uid}, held := if HasGate(p.spec, GateName(s)) then st.held + {p.uid} else st.held)
    case ChangePod(q) => Put(st, q.uid, q)
    case DeletePod(uid) => st.(pods := st.pods - {uid})
  }

  // ---- the invariant ----

  /** The names seen at the advances, in order. */
  function Processed(advances: seq<Advance>): seq<string>
  {
    if advances == [] then [] else Processed(advances[..|advances| - 1]) + Names(advances[|advances| - 1].pods)
  }

  /** The group was not empty, had all its named pods, and each pod was ready with no wait remaining. */
  ghost predicate Passed(g: PodGroup, adv: Advance)
  {
    GroupPassed(g, adv.pods, adv.now) && (g.pods != [] ==> Names(adv.pods) == g.pods)
  }

  ghost predicate GroupHasPassed(s: PodSequence, advances: seq<Advance>, i: nat)
  {
    i < |advances| && i < |s.podGroups| && Passed(s.podGroups[i], advances[i])
  }

  ghost predicate EarlierGroupsPassed(s: PodSequence, advances: seq<Advance>, p: Pod)
  {
    forall i :: 0 <= i < GroupIndexForPod(s, p) ==> GroupHasPassed(s, advances, i)
  }

  ghost predicate AdvancesRight(s: PodSequence, advances: seq<Advance>)
  {
    |advances| <= |s.podGroups| && forall i :: 0 <= i < |advances| ==> GroupHasPassed(s, advances, i)
  }

  /** Every stored status reflects a prefix of the advances. */
  ghost predicate VersionRight(s: PodSequence, advances: seq<Advance>, v: SequenceStatus)
  {
    && v.currentIndex <= |advances|
    && v.processedPods == Processed(advances[..v.currentIndex])
    && (v.phase == PhaseCompleted ==> v.currentIndex == |s.podGroups|)
  }

  /** From one stored status to the next: the index never falls and rises by at most one, and Completed stays. */
  ghost predicate Succeeds(before: SequenceStatus, after: SequenceStatus)
  {
    && before.currentIndex <= after.currentIndex <= before.currentIndex + 1
    && (before.phase == PhaseCompleted ==> after.phase == PhaseCompleted && after.currentIndex == before.currentIndex)
  }

  ghost predicate HistoryRight(s: PodSequence, history: seq<SequenceStatus>, advances: seq<Advance>)
  {
    && history != [] && |advances| == history[|history| - 1].currentIndex
    && (forall i :: 0 <= i < |history| ==> VersionRight(s, advances, history[i]))
    && (forall i :: 0 < i < |history| ==> Succeeds(history[i - 1], history[i]))
  }

  ghost predicate PodRight(s: PodSequence, st: State, uid: string)
    requires uid in st.pods
  {
    && st.pods[uid].uid == uid && uid in st.known
    && (uid in st.held && !HasGate(st.pods[uid].spec, GateName(s)) ==> EarlierGroupsPassed(s, st.advances, st.pods[uid]))
  }

  ghost predicate PodsRight(s: PodSequence, st: State)
  {
    st.held <= st.known && forall uid :: uid in st.pods ==> PodRight(s, st, uid)
  }

  ghost predicate Safe(s: PodSequence, st: State)
  {
    AdvancesRight(s, st.advances) && HistoryRight(s, st.history, st.advances) && PodsRight(s, st)
  }

  // ---- every step keeps it ----

  /** A pod whose gate a pass removes lies in no later group than the one the pass read as current. */
  lemma {:induction false} RemovedIsInReach(s: PodSequence, read: SequenceStatus, a: Answers, now: int, p: Pod)
    requires HonestAnswers(s, read.currentIndex, a) && p in ClusterPass(s, read, a, now).removed
    ensures 0 <= GroupIndexForPod(s, p) <= read.currentIndex
  {
    RemovedWasRead(s, read, a, now, p);
    FirstGroupIsFirst(s.podGroups, p, 0);
    if read.currentIndex < |s.podGroups| && ReadGatedNow(s, read.currentIndex, a, p) {
      ReadMembers(s, s.podGroups[read.currentIndex], a.current);
    } else {
      var k :| 0 <= k < |s.podGroups| && k < read.currentIndex && ReadGated(s, a, k, p);
      ReadMembers(s, s.podGroups[k], a.others[k]);
    }
  }

  /** A stored version, however old, only lets a pass act on groups whose predecessors have passed. */
  lemma {:induction false} RemovalIsEarned(s: PodSequence, st: State, pass: Pass, p: Pod)
    requires Safe(s, st) && Enabled(s, st, RemoveGate(pass, p))
    ensures EarlierGroupsPassed(s, st.advances, p)
  {
    RemovedIsInReach(s, st.history[pass.version], pass.answers, pass.now, p);
    assert VersionRight(s, st.advances, st.history[pass.version]);
  }

  /** What a pass over the latest status stores. */
  lemma {:induction false} StoredIsRight(s: PodSequence, advances: seq<Advance>, read: SequenceStatus, a: Answers, now: int)
    requires AdvancesRight(s, advances) && VersionRight(s, advances, read) && |advances| == read.currentIndex
    requires HonestAnswers(s, read.currentIndex, a)
    ensures var after := ClusterPass(s, read, a, now).status;
            Succeeds(read, after) && (after.phase == PhaseCompleted ==> after.currentIndex == |s.podGroups|)
    ensures var after, idx := ClusterPass(s, read, a, now).status, read.currentIndex;
            if idx < |s.podGroups| && Advances(s, idx, a, now) then
              var adv := Advance(PodsInGroup(s.podGroups[idx], a.current).value, now);
              after.currentIndex == idx + 1 && Passed(s.podGroups[idx], adv) && after.processedPods == Processed(advances + [adv])
            else
              after.currentIndex == idx && after.processedPods == Processed(advances)
  {
    var idx := read.currentIndex;
    CompletedIff(s, read, a, now);
    assert advances[..idx] == advances;
    if idx < |s.podGroups| {
      PassAdvancesIff(s, read, a, now);
    }
    if idx < |s.podGroups| && Advances(s, idx, a, now) {
      ReadMembers(s, s.podGroups[idx], a.current);
      var adv := Advance(PodsInGroup(s.podGroups[idx], a.current).value, now);
      assert (advances + [adv])[..idx] == advances;
    }
  }

  /** Appending to history and advances in step. */
  lemma {:induction false} HistoryGrows(s: PodSequence, history: seq<SequenceStatus>, advances: seq<Advance>,
                                        more: seq<Advance>, after: SequenceStatus)
    requires HistoryRight(s, history, advances) && Succeeds(history[|history| - 1], after)
    requires after.currentIndex == |advances + more| && after.processedPods == Processed(advances + more)
    requires after.phase == PhaseCompleted ==> after.currentIndex == |s.podGroups|
    ensures HistoryRight(s, history + [after], advances + more)
  {
    var all, grown := advances + more, history + [after];
    assert all[..|all|] == all;
    forall i | 0 <= i < |grown|
      ensures VersionRight(s, all, grown[i])
    {
      if i < |history| {
        assert VersionRight(s, advances, history[i]);
        assert all[..history[i].currentIndex] == advances[..history[i].currentIndex];
      }
    }
  }

  lemma {:induction false} AdvancesGrow(s: PodSequence, advances: seq<Advance>, adv: Advance)
    requires AdvancesRight(s, advances) && |advances| < |s.podGroups| && Passed(s.podGroups[|advances|], adv)
    ensures AdvancesRight(s, advances + [adv])
    ensures forall p :: EarlierGroupsPassed(s, advances, p) ==> EarlierGroupsPassed(s, advances + [adv], p)
  {
    forall i | 0 <= i && GroupHasPassed(s, advances, i)
      ensures GroupHasPassed(s, advances + [adv], i)
    {
    }
  }

  /** Storing a status that adds nothing, or one advance of the next group, keeps the invariant. */
  lemma {:induction false} GrownIsSafe(s: PodSequence, st: State, after: SequenceStatus, more: seq<Advance>)
    requires Safe(s, st) && Succeeds(st.history[|st.history| - 1], after)
    requires after.currentIndex == |st.advances + more| && after.processedPods == Processed(st.advances + more)
    requires after.phase == PhaseCompleted ==> after.currentIndex == |s.podGroups|
    requires more == [] || (|more| == 1 && |st.advances| < |s.podGroups| && Passed(s.podGroups[|st.advances|], more[0]))
    ensures Safe(s, st.(history := st.history + [after], advances := st.advances + more))
  {
    HistoryGrows(s, st.history, st.advances, more, after);
    if more == [] {
      assert st.advances + more == st.advances;
    } else {
      assert more == [more[0]];
      AdvancesGrow(s, st.advances, more[0]);
    }
    PodsStayRight(s, st, st.(history := st.history + [after], advances := st.advances + more));
  }

  lemma {:induction false} GainedIs(s: PodSequence, st: State, pass: Pass)
    requires Possible(s, st, pass)
    ensures var read, a := st.history[pass.version], pass.answers;
            Gained(s, st, pass) == if read.currentIndex < |s.podGroups| && Advances(s, read.currentIndex, a, pass.now)
                                   then [Advance(PodsInGroup(s.podGroups[read.currentIndex], a.current).value, pass.now)] else []
  {
    var read := st.history[pass.version];
    if read.currentIndex < |s.podGroups| {
      PassAdvancesIff(s, read, pass.answers, pass.now);
    }
  }

  lemma {:induction false} StoredSucceeds(s: PodSequence, st: State, pass: Pass)
    requires Safe(s, st) && Possible(s, st, pass) && pass.version == |st.history| - 1
    ensures var after, more := Outcome(s, st, pass).status, Gained(s, st, pass);
            && Succeeds(st.history[|st.history| - 1], after)
            && after.currentIndex == |st.advances + more| && after.processedPods == Processed(st.advances + more)
            && (after.phase == PhaseCompleted ==> after.currentIndex == |s.podGroups|)
            && (more == [] || (|more| == 1 && |st.advances| < |s.podGroups| && Passed(s.podGroups[|st.advances|], more[0])))
  {
    StoredIsRight(s, st.advances, st.history[pass.version], pass.answers, pass.now);
    GainedIs(s, st, pass);
    assert st.advances + [] == st.advances;
  }

  lemma {:induction false} StoreKeeps(s: PodSequence, st: State, pass: Pass)
    requires Safe(s, st) && Enabled(s, st, StoreStatus(pass))
    ensures Safe(s, Apply(s, st, StoreStatus(pass)))
  {
    StoredSucceeds(s, st, pass);
    GrownIsSafe(s, st, Outcome(s, st, pass).status, Gained(s, st, pass));
  }

  /** More advances only help. */
  lemma {:induction false} PodsStayRight(s: PodSequence, st: State, next: State)
    requires PodsRight(s, st) && next.pods == st.pods && next.known == st.known && next.held == st.held
    requires forall p :: EarlierGroupsPassed(s, st.advances, p) ==> EarlierGroupsPassed(s, next.advances, p)
    ensures PodsRight(s, next)
  {
    forall uid | uid in next.pods
      ensures PodRight(s, next, uid)
    {
      assert PodRight(s, st, uid);
    }
  }

  /** Storing one pod keeps the invariant if that pod is right. */
  lemma {:induction false} PodStoreKeeps(s: PodSequence, st: State, next: State, p: Pod)
    requires Safe(s, st) && next.history == st.history && next.advances == st.advances
    requires next.pods == st.pods[p.uid := p] && st.known <= next.known && next.held <= next.known
    requires forall uid :: uid in next.held && uid != p.uid ==> uid in st.held
    requires PodRight(s, next, p.uid)
    ensures Safe(s, next)
  {
    forall uid | uid in next.pods
      ensures PodRight(s, next, uid)
    {
      if uid != p.uid {
        assert PodRight(s, st, uid);
      }
    }
  }

  lemma {:induction false} RemoveKeeps(s: PodSequence, st: State, pass: Pass, p: Pod)
    requires Safe(s, st) && Enabled(s, st, RemoveGate(pass, p))
    ensures Safe(s, Apply(s, st, RemoveGate(pass, p)))
  {
    RemovalIsEarned(s, st, pass, p);
    var next := Apply(s, st, RemoveGate(pass, p));
    SameGroup(s, p, next.pods[p.uid]);
    assert PodRight(s, st, p.uid);
    PodStoreKeeps(s, st, next, next.pods[p.uid]);
  }

  lemma {:induction false} OthersKeep(s: PodSequence, st: State, step: Step)
    requires Safe(s, st) && Enabled(s, st, step) && !step.StoreStatus? && !step.RemoveGate?
    ensures Safe(s, Apply(s, st, step))
  {
    var next := Apply(s, st, step);
    match step {
      case Bind(uid, n) =>
        assert PodRight(s, st, uid);
        SameGroup(s, st.pods[uid], next.pods[uid]);
        PodStoreKeeps(s, st, next, next.pods[uid]);
      case CreatePod(p) => PodStoreKeeps(s, st, next, p);
      case ChangePod(q) =>
        assert PodRight(s, st, q.uid);
        PodStoreKeeps(s, st, next, q);
      case DeletePod(uid) =>
        assert forall u :: u in next.pods ==> PodRight(s, st, u);
    }
  }

  // ---- runs ----

  ghost predicate Run(s: PodSequence, states: seq<State>, steps: seq<Step>)
  {
    && |states| == |steps| + 1 && Init(states[0])
    && forall i :: 0 <= i < |steps| ==> Enabled(s, states[i], steps[i]) && states[i + 1] == Apply(s, states[i], steps[i])
  }

  lemma {:induction false} RunsAreSafe(s: PodSequence, states: seq<State>, steps: seq<Step>, i: nat)
    requires Run(s, states, steps) && i < |states|
    ensures Safe(s, states[i])
  {
    if i > 0 {
      RunsAreSafe(s, states, steps, i - 1);
      match steps[i - 1] {
        case StoreStatus(pass) => StoreKeeps(s, states[i - 1], pass);
        case RemoveGate(pass, p) => RemoveKeeps(s, states[i - 1], pass, p);
        case _ => OthersKeep(s, states[i - 1], steps[i - 1]);
      }
    }
  }

  /** The pod was stored in that very version at some moment up to state i. */
  ghost predicate WasStored(states: seq<State>, i: nat, p: Pod)
  {
    exists e, uid :: 0 <= e <= i && e < |states| && uid in states[e].pods && states[e].pods[uid] == p
  }

  /** versions holds nothing but pods once stored. */
  lemma {:induction false} VersionsWereStored(s: PodSequence, states: seq<State>, steps: seq<Step>, i: nat, p: Pod)
    requires Run(s, states, steps) && i < |states| && p in states[i].versions
    ensures WasStored(states, i, p)
  {
    if p !in states[i - 1].versions {
      var uid := StoresOnePod(s, states[i - 1], steps[i - 1], p);
      assert states[i].pods[uid] == p;
    } else {
      VersionsWereStored(s, states, steps, i - 1, p);
    }
  }

  lemma {:induction false} StoresOnePod(s: PodSequence, st: State, step: Step, p: Pod) returns (uid: string)
    requires Enabled(s, st, step) && p in Apply(s, st, step).versions && p !in st.versions
    ensures uid in Apply(s, st, step).pods && Apply(s, st, step).pods[uid] == p
  {
    match step {
      case RemoveGate(pass, q) => uid := q.uid;
      case Bind(u, n) => uid := u;
      case CreatePod(q) => uid := q.uid;
      case ChangePod(q) => uid := q.uid;
      case _ =>
    }
  }

  lemma {:induction false} VersionsGrow(s: PodSequence, st: State, step: Step)
    requires Enabled(s, st, step)
    ensures st.versions <= Apply(s, st, step).versions
  {
  }

  /** The pods of a gained advance are those the pass read. */
  lemma {:induction false} GainedIsStored(s: PodSequence, st: State, pass: Pass)
    requires Possible(s, st, pass) && ReadStored(s, st, pass)
    ensures forall adv, p :: adv in Gained(s, st, pass) && p in adv.pods ==> p in st.versions
  {
  }

  /** Every advance saw pods that had been stored. */
  ghost predicate SawStored(states: seq<State>, i: nat, adv: Advance)
  {
    forall p :: p in adv.pods ==> WasStored(states, i, p)
  }

  lemma {:induction false} AdvancesSawVersions(s: PodSequence, states: seq<State>, steps: seq<Step>, i: nat)
    requires Run(s, states, steps) && i < |states|
    ensures forall adv, p :: adv in states[i].advances && p in adv.pods ==> p in states[i].versions
  {
    if i > 0 {
      AdvancesSawVersions(s, states, steps, i - 1);
      VersionsGrow(s, states[i - 1], steps[i - 1]);
      if steps[i - 1].StoreStatus? {
        GainedIsStored(s, states[i - 1], steps[i - 1].pass);
      }
    }
  }

  lemma {:induction false} AdvancesSawStored(s: PodSequence, states: seq<State>, steps: seq<Step>, i: nat, adv: Advance)
    requires Run(s, states, steps) && i < |states| && adv in states[i].advances
    ensures SawStored(states, i, adv)
  {
    AdvancesSawVersions(s, states, steps, i);
    forall p | p in adv.pods
      ensures WasStored(states, i, p)
    {
      VersionsWereStored(s, states, steps, i, p);
    }
  }

  /** Whenever a pass, however stale, removes the gate of a pod, every group below the first one containing the
      pod had an earlier stored advance in which it was not empty, had all its named pods, and each of its pods,
      all of them versions stored before, was ready with no wait remaining. */
  lemma {:induction false} GatesFallInOrder(s: PodSequence, states: seq<State>, steps: seq<Step>, i: nat)
    requires Run(s, states, steps) && i < |steps|
    ensures steps[i].RemoveGate? ==>
              forall j :: 0 <= j < GroupIndexForPod(s, steps[i].pod) ==>
                GroupHasPassed(s, states[i].advances, j) && SawStored(states, i, states[i].advances[j])
  {
    if steps[i].RemoveGate? {
      RunsAreSafe(s, states, steps, i);
      RemovalIsEarned(s, states[i], steps[i].pass, steps[i].pod);
      forall j | 0 <= j < GroupIndexForPod(s, steps[i].pod)
        ensures GroupHasPassed(s, states[i].advances, j) && SawStored(states, i, states[i].advances[j])
      {
        assert GroupHasPassed(s, states[i].advances, j);
        AdvancesSawStored(s, states, steps, i, states[i].advances[j]);
      }
    }
  }

  /** A pod created with the gate is bound only after the groups below its own have passed. */
  lemma {:induction false} HeldPodsBindInOrder(s: PodSequence, states: seq<State>, steps: seq<Step>, i: nat, j: nat)
    requires Run(s, states, steps) && i < |steps| && steps[i].Bind? && steps[i].uid in states[i].held
    requires j < GroupIndexForPod(s, states[i].pods[steps[i].uid])
    ensures GroupHasPassed(s, states[i].advances, j) && SawStored(states, i, states[i].advances[j])
  {
    RunsAreSafe(s, states, steps, i);
    assert PodRight(s, states[i], steps[i].uid);
    assert GroupHasPassed(s, states[i].advances, j);
    AdvancesSawStored(s, states, steps, i, states[i].advances[j]);
  }

  /** Between any two stored statuses the index never falls, it rises by at most one per write, a completed
      sequence stays completed, and the processed pods are the names seen at the advances, group by group. */
  lemma {:induction false} StatusOnlyMovesForward(s: PodSequence, states: seq<State>, steps: seq<Step>, i: nat, u: nat, v: nat)
    requires Run(s, states, steps) && i < |states| && u <= v < |states[i].history|
    ensures var earlier, later := states[i].history[u], states[i].history[v];
            && earlier.currentIndex <= later.currentIndex <= earlier.currentIndex + (v - u)
            && (earlier.phase == PhaseCompleted ==> later.phase == PhaseCompleted && later.currentIndex == |s.podGroups|)
            && later.currentIndex <= |states[i].advances| && later.processedPods == Processed(states[i].advances[..later.currentIndex])
    decreases v
  {
    RunsAreSafe(s, states, steps, i);
    assert VersionRight(s, states[i].advances, states[i].history[v]);
    if u < v {
      StatusOnlyMovesForward(s, states, steps, i, u, v - 1);
      assert Succeeds(states[i].history[v - 1], states[i].history[v]);
    }
  }

  // ---- progress ----

  /** A pass, the pods that exist when it runs, and whether the status it asks to store is stored. */
  datatype Round = Round(pods: set<Pod>, answers: Answers, now: int, stored: bool)

  ghost predicate IsMember(s: PodSequence, g: PodGroup, p: Pod)
  {
    p.namespace == TargetNamespace(s) && PodMatchesGroup(p, g)
  }

  /** All pods a group names exist, or at least one its selector matches. */
  ghost predicate GroupExists(s: PodSequence, g: PodGroup, pods: set<Pod>)
  {
    if g.pods != [] then forall name :: name in g.pods ==> exists p :: p in pods && p.namespace == TargetNamespace(s) && p.name == name
    else exists p :: p in pods && IsMember(s, g, p)
  }

  predicate HasWaited(g: PodGroup, p: Pod, now: int)
  {
    g.wait.Wait? && ReadyFor(p, g.wait.duration, now)
  }

  /** Every existing pod of the group is ready and has been for the group's wait. */
  ghost predicate GroupReady(s: PodSequence, g: PodGroup, pods: set<Pod>, now: int)
  {
    g.wait.Wait? && forall p :: p in pods && IsMember(s, g, p) ==> HasWaited(g, p, now)
  }

  /** q is what reading the existing pod p returns: p itself, or p with its gate removed earlier in the same pass. */
  predicate Sees(p: Pod, q: Pod, gate: string)
  {
    q == p || q == p.(spec := Ungated(p.spec, gate), version := p.version + 1)
  }

  /** A read without errors returns the existing pods asked for, and all of them. */
  ghost predicate Faithful(s: PodSequence, g: PodGroup, pods: set<Pod>, r: GroupRead)
  {
    && Honest(s, g, r) && PodsInGroup(g, r).Some?
    && (forall i :: 0 <= i < |r.fetches| && r.fetches[i].Found? ==> exists p :: p in pods && Sees(p, r.fetches[i].pod, GateName(s)))
    && (forall i, p :: 0 <= i < |r.fetches| && p in pods && p.namespace == TargetNamespace(s) && p.name == g.pods[i] ==> r.fetches[i].Found?)
    && (r.listing.Some? ==>
          && (forall q :: q in r.listing.value ==> exists p :: p in pods && Sees(p, q, GateName(s)))
          && (g.pods == [] ==> forall p :: p in pods && IsMember(s, g, p) ==> exists q :: q in r.listing.value && Sees(p, q, GateName(s))))
  }

  ghost predicate OnePodPerName(pods: set<Pod>)
  {
    forall p, q :: p in pods && q in pods && p.namespace == q.namespace && p.name == q.name ==> p == q
  }

  /** A pass at idx goes unhindered: the groups before are read and released without error, the existing pods of
      the previous one are ready, the group itself exists and is read faithfully, its patches are applied, and
      the status is stored. */
  ghost predicate Smooth(s: PodSequence, idx: nat, r: Round)
    requires idx < |s.podGroups| == |r.answers.others|
  {
    var a, g := r.answers, s.podGroups[idx];
    && r.stored && (forall k :: 0 <= k < idx ==> !GroupFails(s, a, k))
    && (idx > 0 ==>
          && Faithful(s, s.podGroups[idx - 1], r.pods, a.previous)
          && forall p :: p in r.pods && IsMember(s, s.podGroups[idx - 1], p) ==> IsPodReady(p))
    && GroupExists(s, g, r.pods) && Faithful(s, g, r.pods, a.current) && OnePodPerName(r.pods)
    && forall i :: a.patches(idx)(i) == Applied
  }

  /** And the existing pods of the group itself are ready and have waited; of later groups nothing is asked. */
  ghost predicate Successful(s: PodSequence, idx: nat, r: Round)
    requires idx < |s.podGroups| == |r.answers.others|
  {
    Smooth(s, idx, r) && GroupReady(s, s.podGroups[idx], r.pods, r.now)
  }

  lemma {:induction false} SeenAlike(s: PodSequence, g: PodGroup, p: Pod, q: Pod)
    requires Sees(p, q, GateName(s))
    ensures IsMember(s, g, q) == IsMember(s, g, p) && IsPodReady(q) == IsPodReady(p) && q.uid == p.uid
    ensures forall now :: HasWaited(g, q, now) == HasWaited(g, p, now)
    ensures q == p || !HasGate(q.spec, GateName(s))
  {
    WithoutGateMember(p.spec.gates, GateName(s), GateName(s));
  }

  /** A faithful read of a group that exists and has been ready long enough shows just that. */
  lemma {:induction false} FaithfulReadPasses(s: PodSequence, g: PodGroup, pods: set<Pod>, r: GroupRead, now: int)
    requires Faithful(s, g, pods, r) && GroupExists(s, g, pods) && GroupReady(s, g, pods, now)
    ensures GroupPassed(g, PodsInGroup(g, r).value, now)
  {
    var read := PodsInGroup(g, r).value;
    if g.pods != [] {
      AllFound(s, g, pods, r);
    } else {
      var p :| p in pods && IsMember(s, g, p);
      var q :| q in r.listing.value && Sees(p, q, GateName(s));
    }
    forall q | q in read
      ensures HasWaited(g, q, now)
    {
      var p := ReadExists(s, g, pods, r, q);
    }
  }

  /** Every pod read is an existing member. */
  lemma {:induction false} ReadExists(s: PodSequence, g: PodGroup, pods: set<Pod>, r: GroupRead, q: Pod) returns (p: Pod)
    requires Faithful(s, g, pods, r) && q in PodsInGroup(g, r).value
    ensures p in pods && Sees(p, q, GateName(s)) && IsMember(s, g, p)
    ensures IsPodReady(q) == IsPodReady(p) && forall now :: HasWaited(g, q, now) == HasWaited(g, p, now)
  {
    ReadMembers(s, g, r);
    if g.pods != [] {
      CollectMember(FoundPod(), r.fetches, q);
      var f :| f in r.fetches && FoundPod()(f) == Some(q);
      var i :| 0 <= i < |r.fetches| && r.fetches[i] == f;
      p :| p in pods && Sees(p, r.fetches[i].pod, GateName(s));
    } else {
      p :| p in pods && Sees(p, q, GateName(s));
    }
    SeenAlike(s, g, p, q);
  }

  lemma {:induction false} AllFound(s: PodSequence, g: PodGroup, pods: set<Pod>, r: GroupRead)
    requires Faithful(s, g, pods, r) && GroupExists(s, g, pods) && g.pods != []
    ensures |PodsInGroup(g, r).value| == |g.pods|
  {
    forall i | 0 <= i < |r.fetches|
      ensures r.fetches[i].Found?
    {
      assert g.pods[i] in g.pods;
    }
    CollectAll(FoundPod(), r.fetches);
  }

  lemma {:induction false} CollectAll<T, U>(f: T -> Option<U>, xs: seq<T>)
    requires forall i :: 0 <= i < |xs| ==> f(xs[i]).Some?
    ensures |Collect(f, xs)| == |xs|
  {
    if xs != [] {
      CollectAll(f, xs[..|xs| - 1]);
    }
  }

  /** A faithful read misses no existing pod of the group. */
  lemma {:induction false} FaithfulReadMissesNone(s: PodSequence, g: PodGroup, pods: set<Pod>, r: GroupRead, p: Pod) returns (q: Pod)
    requires Faithful(s, g, pods, r) && OnePodPerName(pods) && p in pods && IsMember(s, g, p)
    ensures q in PodsInGroup(g, r).value && Sees(p, q, GateName(s))
  {
    if g.pods != [] {
      var i :| 0 <= i < |g.pods| && g.pods[i] == p.name;
      q := r.fetches[i].pod;
      var other :| other in pods && Sees(other, q, GateName(s));
      assert other == p;
      CollectMember(FoundPod(), r.fetches, q);
      assert FoundPod()(r.fetches[i]) == Some(q);
    } else {
      q :| q in r.listing.value && Sees(p, q, GateName(s));
    }
  }

  lemma {:induction false} SmoothIsUndisturbed(s: PodSequence, idx: nat, r: Round)
    requires idx < |s.podGroups| == |r.answers.others| && Smooth(s, idx, r)
    ensures Undisturbed(s, idx, r.answers)
  {
    if idx > 0 {
      var g := s.podGroups[idx - 1];
      forall q | q in PodsInGroup(g, r.answers.previous).value
        ensures IsPodReady(q)
      {
        var p := ReadExists(s, g, r.pods, r.answers.previous, q);
      }
    }
  }

  /** What a round leaves of the stored status. */
  function RoundStatus(s: PodSequence, st: SequenceStatus, r: Round): SequenceStatus
    requires |r.answers.others| == |s.podGroups|
  {
    var pass := ClusterPass(s, st, r.answers, r.now);
    if pass.stores && r.stored then pass.status else st
  }

  ghost function Gain(s: PodSequence, st: SequenceStatus, r: Round): nat
    requires |r.answers.others| == |s.podGroups|
  {
    if st.currentIndex < |s.podGroups| && Successful(s, st.currentIndex, r) then 1 else 0
  }

  /** No round takes the index back or past the end, and a successful one moves it. */
  lemma {:induction false} RoundMoves(s: PodSequence, st: SequenceStatus, r: Round)
    requires st.currentIndex <= |s.podGroups| == |r.answers.others|
    ensures var after := RoundStatus(s, st, r).currentIndex;
            st.currentIndex + Gain(s, st, r) <= after <= |s.podGroups|
  {
    var idx := st.currentIndex;
    CompletedIff(s, st, r.answers, r.now);
    if idx < |s.podGroups| {
      PassAdvancesIff(s, st, r.answers, r.now);
      if Successful(s, idx, r) {
        SmoothIsUndisturbed(s, idx, r);
        FaithfulReadPasses(s, s.podGroups[idx], r.pods, r.answers.current, r.now);
        AdvanceIsStored(s, st, r.answers, r.now);
      }
    }
  }

  /** Passes one after the other, and the stored statuses between them. */
  ghost predicate Passes(s: PodSequence, statuses: seq<SequenceStatus>, rounds: seq<Round>)
  {
    && |statuses| == |rounds| + 1 && statuses[0].currentIndex <= |s.podGroups|
    && (forall x :: 0 <= x < |rounds| ==> |rounds[x].answers.others| == |s.podGroups|)
    && (forall x :: 0 <= x < |rounds| ==> statuses[x + 1] == RoundStatus(s, statuses[x], rounds[x]))
  }

  /** How many of the first n rounds are successful at the index they meet. */
  ghost function Successes(s: PodSequence, statuses: seq<SequenceStatus>, rounds: seq<Round>, n: nat): nat
    requires Passes(s, statuses, rounds) && n <= |rounds|
  {
    if n == 0 then 0
    else Successes(s, statuses, rounds, n - 1) + Gain(s, statuses[n - 1], rounds[n - 1])
  }

  lemma {:induction false} IndexBefore(s: PodSequence, statuses: seq<SequenceStatus>, rounds: seq<Round>, n: nat)
    requires Passes(s, statuses, rounds) && n <= |rounds|
    ensures statuses[0].currentIndex + Successes(s, statuses, rounds, n) <= statuses[n].currentIndex <= |s.podGroups|
  {
    if n > 0 {
      IndexBefore(s, statuses, rounds, n - 1);
      assert statuses[n] == RoundStatus(s, statuses[n - 1], rounds[n - 1]);
      RoundMoves(s, statuses[n - 1], rounds[n - 1]);
    }
  }

  /** The pod does not have the gate any more: this pass removed it, or the pod was read without it. */
  ghost predicate Freed(s: PodSequence, p: Pod, read: seq<Pod>, removed: seq<Pod>)
  {
    p in removed || exists q :: q in read && q.uid == p.uid && !HasGate(q.spec, GateName(s))
  }

  lemma {:induction false} LetGoFrees(s: PodSequence, g: PodGroup, r: GroupRead, pods: set<Pod>, patch: nat -> PatchResult,
                                      removed: seq<Pod>, p: Pod)
    requires Faithful(s, g, pods, r) && OnePodPerName(pods) && p in pods && IsMember(s, g, p)
    requires AllLetGo(PodsInGroup(g, r).value, GateName(s), patch, removed) && forall i :: patch(i) == Applied
    ensures Freed(s, p, PodsInGroup(g, r).value, removed)
  {
    var q := FaithfulReadMissesNone(s, g, pods, r, p);
    SeenAlike(s, g, p, q);
  }

  /** A completed pass reads the group faithfully and its patches are applied. */
  ghost predicate Served(s: PodSequence, r: Round, k: nat)
    requires k < |s.podGroups| == |r.answers.others|
  {
    Faithful(s, s.podGroups[k], r.pods, r.answers.others[k]) && OnePodPerName(r.pods) && forall i :: r.answers.patches(k)(i) == Applied
  }

  /** A completed pass leaves no existing member of a group it serves behind the gate, ready or not, whatever
      happens to the other groups. */
  lemma {:induction false} CompletedFrees(s: PodSequence, st: SequenceStatus, r: Round, k: nat, p: Pod)
    requires |s.podGroups| <= st.currentIndex && k < |s.podGroups| == |r.answers.others| && Served(s, r, k)
    requires p in r.pods && IsMember(s, s.podGroups[k], p)
    ensures Freed(s, p, PodsInGroup(s.podGroups[k], r.answers.others[k]).value, ClusterPass(s, st, r.answers, r.now).removed)
  {
    var a := r.answers;
    CompletedPassLetsAllGo(s, st, a, r.now);
    var removed := ClusterPass(s, st, a, r.now).removed;
    assert !GroupFails(s, a, k) && GroupLetGo(s, a, k, removed);
    LetGoFrees(s, s.podGroups[k], a.others[k], r.pods, a.patches(k), removed, p);
  }

  /** Among any passes, once as many were successful as groups were left, the index is at the end; one more pass
      marks the sequence completed, and leaves no existing member pod of a group it serves behind the gate. */
  lemma {:induction false} SequenceCompletes(s: PodSequence, statuses: seq<SequenceStatus>, rounds: seq<Round>, last: Round)
    requires Passes(s, statuses, rounds) && |last.answers.others| == |s.podGroups|
    requires statuses[0].currentIndex + Successes(s, statuses, rounds, |rounds|) >= |s.podGroups|
    ensures statuses[|rounds|].currentIndex == |s.podGroups|
    ensures var pass := ClusterPass(s, statuses[|rounds|], last.answers, last.now);
            && pass.stores && pass.status.phase == PhaseCompleted
            && forall k, p :: 0 <= k < |s.podGroups| && Served(s, last, k) && p in last.pods && IsMember(s, s.podGroups[k], p) ==>
                 Freed(s, p, PodsInGroup(s.podGroups[k], last.answers.others[k]).value, pass.removed)
  {
    IndexBefore(s, statuses, rounds, |rounds|);
    var reached := statuses[|rounds|];
    CompletedIff(s, reached, last.answers, last.now);
    forall k, p | 0 <= k < |s.podGroups| && Served(s, last, k) && p in last.pods && IsMember(s, s.podGroups[k], p)
      ensures Freed(s, p, PodsInGroup(s.podGroups[k], last.answers.others[k]).value,
                    ClusterPass(s, reached, last.answers, last.now).removed)
    {
      CompletedFrees(s, reached, last, k, p);
    }
  }

  /** What the cluster makes of a pass at idx until the next one: no gated pod joins its group, the pods the pass
      let go have lost their gate, and those without a gate have become ready and have waited. */
  ghost predicate Follows(s: PodSequence, idx: nat, st: SequenceStatus, r: Round, next: Round)
    requires idx < |s.podGroups| == |r.answers.others| && PodsInGroup(s.podGroups[idx], r.answers.current).Some?
  {
    var g := s.podGroups[idx];
    && g.wait.Wait?
    && forall q :: q in next.pods && IsMember(s, g, q) ==>
         if HasGate(q.spec, GateName(s)) then
           exists p :: p in r.pods && p.uid == q.uid && IsMember(s, g, p)
                       && !Freed(s, p, PodsInGroup(g, r.answers.current).value, ClusterPass(s, st, r.answers, r.now).removed)
         else HasWaited(g, q, next.now)
  }

  /** A smooth pass lets all pods of its group go, so the next smooth one finds them ready. */
  lemma {:induction false} FollowedIsSuccessful(s: PodSequence, st: SequenceStatus, r: Round, next: Round)
    requires st.currentIndex < |s.podGroups| == |r.answers.others| == |next.answers.others|
    requires Smooth(s, st.currentIndex, r) && Smooth(s, st.currentIndex, next) && Follows(s, st.currentIndex, st, r, next)
    ensures Successful(s, st.currentIndex, next)
  {
    var idx, a := st.currentIndex, r.answers;
    var g := s.podGroups[idx];
    SmoothIsUndisturbed(s, idx, r);
    WaitedGroupIsLetGo(s, st, a, r.now);
    forall q | q in next.pods && IsMember(s, g, q)
      ensures HasWaited(g, q, next.now)
    {
      if HasGate(q.spec, GateName(s)) {
        var p :| p in r.pods && p.uid == q.uid && IsMember(s, g, p)
                 && !Freed(s, p, PodsInGroup(g, a.current).value, ClusterPass(s, st, a, r.now).removed);
        LetGoFrees(s, g, a.current, r.pods, a.patches(idx), ClusterPass(s, st, a, r.now).removed, p);
        assert false;
      }
    }
  }

  /** While groups are left, the pass is smooth and the cluster follows it, and so is the next if it meets the same
      index. */
  ghost predicate Paired(s: PodSequence, st: SequenceStatus, r: Round, next: Round)
    requires |s.podGroups| == |r.answers.others| == |next.answers.others|
  {
    var idx := st.currentIndex;
    idx < |s.podGroups| ==>
      && Smooth(s, idx, r) && Follows(s, idx, st, r, next)
      && (RoundStatus(s, st, r).currentIndex == idx ==> Smooth(s, idx, next))
  }

  /** While released pods become ready, every second pass moves on, so twice as many passes as groups are left
      bring the index to the end. */
  lemma {:induction false} ReleasedPodsBringProgress(s: PodSequence, statuses: seq<SequenceStatus>, rounds: seq<Round>, m: nat)
    requires Passes(s, statuses, rounds) && 2 * m <= |rounds|
    requires forall x :: 0 <= x < |rounds| - 1 ==> Paired(s, statuses[x], rounds[x], rounds[x + 1])
    ensures var idx := statuses[2 * m].currentIndex;
            idx <= |s.podGroups| && (idx == |s.podGroups| || idx >= statuses[0].currentIndex + m)
  {
    if m > 0 {
      ReleasedPodsBringProgress(s, statuses, rounds, m - 1);
      var x := 2 * (m - 1);
      PairMoves(s, statuses[x], rounds[x], rounds[x + 1]);
      assert statuses[x + 2] == RoundStatus(s, statuses[x + 1], rounds[x + 1]);
    }
  }

  lemma {:induction false} PairMoves(s: PodSequence, st: SequenceStatus, r: Round, next: Round)
    requires st.currentIndex <= |s.podGroups| == |r.answers.others| == |next.answers.others| && Paired(s, st, r, next)
    ensures var after := RoundStatus(s, RoundStatus(s, st, r), next).currentIndex;
            st.currentIndex <= after <= |s.podGroups| && (after == |s.podGroups| || after >= st.currentIndex + 1)
  {
    var between := RoundStatus(s, st, r);
    RoundMoves(s, st, r);
    RoundMoves(s, between, next);
    if st.currentIndex < |s.podGroups| && between.currentIndex == st.currentIndex {
      FollowedIsSuccessful(s, st, r, next);
    }
  }
}
