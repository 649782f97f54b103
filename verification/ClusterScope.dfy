/** One pass over a cluster-scoped sequence: reconcileClusterScoped and getPodsInGroup of
    internal/controller/podsequence_controller.go. */
module ClusterScoped {
  import opened Options
  import opened Collections
  import opened Kube
  import opened Sequence
  import opened Status

  /** RequeueDelay, in nanoseconds. */
  const REQUEUE_DELAY: int := 5_000_000_000

  datatype Requeue = NoRequeue | Immediately | After(delay: int)

  /** What reading one pod by name returns. */
  datatype Fetch = FetchFailed | Missing | Found(pod: Pod)

  /** What reading a group returns: one fetch per name, or the answer to a list call. */
  datatype GroupRead = GroupRead(fetches: seq<Fetch>, listing: Option<seq<Pod>>)

  /** Everything a pass is told: the group it works on, the groups it releases (all of them once the sequence
      is done), a second look at the previous group, and the outcome of each gate patch. patches(k)(i) is for
      the i-th pod read of group k. */
  datatype Answers = Answers(current: GroupRead, others: seq<GroupRead>, previous: GroupRead, patches: nat -> nat -> PatchResult)

  /** What a pass leaves: the status it holds, whether it asks for that status to be stored, the pods whose
      gate patch was applied, when to come back, and whether it returns an error. */
  datatype PassResult = PassResult(status: SequenceStatus, stores: bool, removed: seq<Pod>, requeue: Requeue, failed: bool)

  /** Gate patches applied, and whether one was rejected. */
  datatype Sweep = Sweep(removed: seq<Pod>, failed: bool)

  // ---- reading a group ----

  /** The API server answers with pods of the target namespace that bear the name or match the selector. */
  ghost predicate Honest(s: PodSequence, g: PodGroup, r: GroupRead)
  {
    && |r.fetches| == |g.pods|
    && (forall i :: 0 <= i < |g.pods| && r.fetches[i].Found? ==>
          r.fetches[i].pod.name == g.pods[i] && r.fetches[i].pod.namespace == TargetNamespace(s))
    && (r.listing.Some? ==> forall p :: p in r.listing.value ==> p.namespace == TargetNamespace(s) && SelectorMatches(g.selector, p.labels))
  }

  function FoundPod(): Fetch -> Option<Pod>
  {
    (f: Fetch) => if f.Found? then Some(f.pod) else None
  }

  /** The pods of a group in the order they are read; None is an error. */
  function PodsInGroup(g: PodGroup, r: GroupRead): Option<seq<Pod>>
  {
    if g.pods != [] then (if FetchFailed in r.fetches then None else Some(Collect(FoundPod(), r.fetches)))
    else if g.selector.Selector? then r.listing
    else None
  }

  method GetPodsInGroup(g: PodGroup, r: GroupRead) returns (pods: Option<seq<Pod>>)
    ensures pods == PodsInGroup(g, r)
  {
    if |g.pods| > 0 {
      var got: seq<Pod> := [];
      for i := 0 to |r.fetches|
        invariant got == Collect(FoundPod(), r.fetches[..i])
        invariant FetchFailed !in r.fetches[..i]
      {
        CollectSnoc(FoundPod(), r.fetches, i);
        match r.fetches[i] {
          case FetchFailed => return None;
          case Missing =>
          case Found(pod) => got := got + [pod];
        }
      }
      CollectWhole(FoundPod(), r.fetches);
      assert r.fetches[..|r.fetches|] == r.fetches;
      return Some(got);
    }
    match g.selector {
      case NoSelector => return None;
      case InvalidSelector => return None;
      case Selector(_) => return r.listing;
    }
  }

  // ---- removing gates ----

  function SweepGates(pods: seq<Pod>, gate: string, patch: nat -> PatchResult, stop: bool): Sweep
  {
    if pods == [] then Sweep([], false)
    else
      var n := |pods| - 1;
      var rest := SweepGates(pods[..n], gate, patch, stop);
      if (stop && rest.failed) || !HasGate(pods[n].spec, gate) then rest
      else
        match patch(n)
        case Applied => Sweep(rest.removed + [pods[n]], rest.failed)
        case NotFound => rest
        case Rejected => Sweep(rest.removed, true)
  }

  function SweepGroup(s: PodSequence, a: Answers, k: nat, stop: bool): Sweep
    requires k < |s.podGroups| == |a.others|
  {
    match PodsInGroup(s.podGroups[k], a.others[k])
    case None => Sweep([], true)
    case Some(pods) => SweepGates(pods, GateName(s), a.patches(k), stop)
  }

  /** The first k groups, stopping at the first error when stop is set. */
  function SweepGroups(s: PodSequence, a: Answers, k: nat, stop: bool): Sweep
    requires k <= |s.podGroups| == |a.others|
  {
    if k == 0 then Sweep([], false)
    else
      var rest := SweepGroups(s, a, k - 1, stop);
      if stop && rest.failed then rest
      else
        var more := SweepGroup(s, a, k - 1, stop);
        Sweep(rest.removed + more.removed, rest.failed || more.failed)
  }

  method ReleasePods(pods: seq<Pod>, gate: string, patch: nat -> PatchResult, stop: bool) returns (removed: seq<Pod>, failed: bool)
    ensures Sweep(removed, failed) == SweepGates(pods, gate, patch, stop)
  {
    removed, failed := [], false;
    for i := 0 to |pods|
      invariant Sweep(removed, failed) == SweepGates(pods[..i], gate, patch, stop)
      invariant stop ==> !failed
    {
      assert pods[..i + 1][..i] == pods[..i];
      if HasGate(pods[i].spec, gate) {
        var result := patch(i);
        if result == Rejected {
          failed := true;
          if stop {
            SweepStops(pods, gate, patch, i + 1);
            return;
          }
        } else if result == Applied {
          removed := removed + [pods[i]];
        }
      }
    }
    assert pods[..|pods|] == pods;
  }

  lemma {:induction false} SweepStops(pods: seq<Pod>, gate: string, patch: nat -> PatchResult, i: nat)
    requires i <= |pods| && SweepGates(pods[..i], gate, patch, true).failed
    ensures SweepGates(pods, gate, patch, true) == SweepGates(pods[..i], gate, patch, true)
    decreases |pods|
  {
    if i == |pods| {
      assert pods[..i] == pods;
    } else {
      assert pods[..|pods| - 1][..i] == pods[..i];
      SweepStops(pods[..|pods| - 1], gate, patch, i);
    }
  }

  // ---- the group in progress ----

  function Names(pods: seq<Pod>): seq<string>
  {
    seq(|pods|, i requires 0 <= i < |pods| => pods[i].name)
  }

  function ReadyCount(pods: seq<Pod>): nat
  {
    if pods == [] then 0
    else ReadyCount(pods[..|pods| - 1]) + if IsPodReady(pods[|pods| - 1]) then 1 else 0
  }

  predicate AllReady(pods: seq<Pod>)
  {
    forall p :: p in pods ==> IsPodReady(p)
  }

  function ExpectedCount(g: PodGroup, pods: seq<Pod>): nat
  {
    if |g.pods| > 0 then |g.pods| else |pods|
  }

  /** The status and requeue once the pods of the group have been let go. */
  function Judge(st: SequenceStatus, g: PodGroup, pods: seq<Pod>, now: int): (SequenceStatus, Requeue)
  {
    var seen := st.(currentGroupPods := Names(pods), readyPods := ReadyCount(pods));
    if |pods| == 0 || |pods| < ExpectedCount(g, pods) || ReadyCount(pods) < |pods| then (seen, After(REQUEUE_DELAY))
    else
      match g.wait
      case InvalidWait => (seen.(phase := PhaseFailed), NoRequeue)
      case Wait(wait) =>
        var remaining := MaxRemaining(pods, wait, now);
        if remaining > 0 then (seen, After(remaining))
        else (seen.(currentIndex := st.currentIndex + 1, processedPods := st.processedPods + Names(pods)), Immediately)
  }

  function WorkOnGroup(s: PodSequence, st: SequenceStatus, a: Answers, now: int): PassResult
    requires st.currentIndex < |s.podGroups| == |a.others|
  {
    var idx := st.currentIndex;
    match PodsInGroup(s.podGroups[idx], a.current)
    case None => PassResult(st.(phase := PhaseFailed), true, [], NoRequeue, true)
    case Some(pods) =>
      var passed := SweepGroups(s, a, idx, true);
      if passed.failed then PassResult(st, false, passed.removed, NoRequeue, true)
      else if idx > 0 && PodsInGroup(s.podGroups[idx - 1], a.previous).None? then PassResult(st, false, passed.removed, NoRequeue, true)
      else if idx > 0 && !AllReady(PodsInGroup(s.podGroups[idx - 1], a.previous).value) then
        PassResult(st, true, passed.removed, After(REQUEUE_DELAY), false)
      else
        var own := SweepGates(pods, GateName(s), a.patches(idx), true);
        if own.failed then PassResult(st, false, passed.removed + own.removed, NoRequeue, true)
        else
          var (after, requeue) := Judge(st, s.podGroups[idx], pods, now);
          PassResult(after, true, passed.removed + own.removed, requeue, false)
  }

  /** A whole pass, given the status it read. */
  function ClusterPass(s: PodSequence, read: SequenceStatus, a: Answers, now: int): PassResult
    requires |a.others| == |s.podGroups|
  {
    var st := if read.phase == NoPhase then read.(phase := PhasePending) else read;
    if st.currentIndex >= |s.podGroups| then
      var all := SweepGroups(s, a, |s.podGroups|, false);
      PassResult(st.(phase := PhaseCompleted), true, all.removed, NoRequeue, all.failed)
    else WorkOnGroup(s, st.(phase := PhaseInProgress), a, now)
  }

  // ---- the pass as the program runs it ----

  method LongestRemaining(pods: seq<Pod>, wait: int, now: int) returns (remaining: nat)
    ensures remaining == MaxRemaining(pods, wait, now)
  {
    remaining := 0;
    for i := 0 to |pods|
      invariant remaining == MaxRemaining(pods[..i], wait, now)
    {
      assert pods[..i + 1][..i] == pods[..i];
      var rem := ReadyRemaining(pods[i], wait, now);
      if rem > remaining {
        remaining := rem;
      }
    }
    assert pods[..|pods|] == pods;
  }

  /** Lets the members of all groups go; errors are collected. */
  method ReleaseEverything(s: PodSequence, a: Answers) returns (removed: seq<Pod>, failed: bool)
    requires |a.others| == |s.podGroups|
    ensures Sweep(removed, failed) == SweepGroups(s, a, |s.podGroups|, false)
  {
    removed, failed := [], false;
    for k := 0 to |s.podGroups|
      invariant Sweep(removed, failed) == SweepGroups(s, a, k, false)
    {
      var pods := GetPodsInGroup(s.podGroups[k], a.others[k]);
      if pods.None? {
        failed := true;
      } else {
        var more, err := ReleasePods(pods.value, GateName(s), a.patches(k), false);
        removed, failed := removed + more, failed || err;
      }
    }
  }

  lemma {:induction false} GroupSweepStops(s: PodSequence, a: Answers, k: nat, n: nat)
    requires k <= n <= |s.podGroups| == |a.others| && SweepGroups(s, a, k, true).failed
    ensures SweepGroups(s, a, n, true) == SweepGroups(s, a, k, true)
    decreases n
  {
    if k < n {
      GroupSweepStops(s, a, k, n - 1);
    }
  }

  /** Lets recreated members of the groups before idx go, up to the first error. */
  method ReleasePassed(s: PodSequence, a: Answers, idx: nat) returns (removed: seq<Pod>, failed: bool)
    requires idx <= |s.podGroups| == |a.others|
    ensures Sweep(removed, failed) == SweepGroups(s, a, idx, true)
  {
    removed, failed := [], false;
    for k := 0 to idx
      invariant Sweep(removed, failed) == SweepGroups(s, a, k, true) && !failed
    {
      var pods := GetPodsInGroup(s.podGroups[k], a.others[k]);
      if pods.None? {
        GroupSweepStops(s, a, k + 1, idx);
        return removed, true;
      }
      var more, err := ReleasePods(pods.value, GateName(s), a.patches(k), true);
      removed := removed + more;
      if err {
        GroupSweepStops(s, a, k + 1, idx);
        return removed, true;
      }
    }
  }

  method CheckReady(pods: seq<Pod>) returns (ready: bool)
    ensures ready == AllReady(pods)
  {
    for i := 0 to |pods|
      invariant forall j :: 0 <= j < i ==> IsPodReady(pods[j])
    {
      if !IsPodReady(pods[i]) {
        assert pods[i] in pods;
        return false;
      }
    }
    return true;
  }

  /** The last part of a pass: counts the pods of the group, and advances when all have been ready long enough. */
  method AdvanceWhenReady(sequence: SequenceObject, g: PodGroup, pods: seq<Pod>, now: int) returns (requeue: Requeue)
    modifies sequence
    ensures (sequence.status, requeue) == Judge(old(sequence.status), g, pods, now)
  {
    var readyCount := 0;
    var names: seq<string> := [];
    for i := 0 to |pods|
      invariant names == Names(pods[..i]) && readyCount == ReadyCount(pods[..i])
    {
      assert pods[..i + 1][..i] == pods[..i];
      names := names + [pods[i].name];
      if IsPodReady(pods[i]) {
        readyCount := readyCount + 1;
      }
    }
    assert pods[..|pods|] == pods;
    sequence.status := sequence.status.(currentGroupPods := names, readyPods := readyCount);
    var expected := |pods|;
    if |g.pods| > 0 {
      expected := |g.pods|;
    }
    if |pods| == 0 || |pods| < expected {
      return After(REQUEUE_DELAY);
    }
    if readyCount < |pods| {
      return After(REQUEUE_DELAY);
    }
    if g.wait == InvalidWait {
      sequence.status := sequence.status.(phase := PhaseFailed);
      return NoRequeue;
    }
    var remaining := LongestRemaining(pods, g.wait.duration, now);
    if remaining > 0 {
      return After(remaining);
    }
    sequence.status := sequence.status.(currentIndex := sequence.status.currentIndex + 1,
                                        processedPods := sequence.status.processedPods + names);
    return Immediately;
  }

  method ReconcileClusterScoped(s: PodSequence, sequence: SequenceObject, a: Answers, now: int)
    returns (stores: bool, removed: seq<Pod>, requeue: Requeue, failed: bool)
    requires |a.others| == |s.podGroups|
    modifies sequence
    ensures PassResult(sequence.status, stores, removed, requeue, failed) == ClusterPass(s, old(sequence.status), a, now)
  {
    if sequence.status.phase == NoPhase {
      sequence.status := sequence.status.(phase := PhasePending);
    }
    var idx := sequence.status.currentIndex;
    if idx >= |s.podGroups| {
      sequence.status := sequence.status.(phase := PhaseCompleted);
      removed, failed := ReleaseEverything(s, a);
      return true, removed, NoRequeue, failed;
    }
    sequence.status := sequence.status.(phase := PhaseInProgress);
    var pods := GetPodsInGroup(s.podGroups[idx], a.current);
    if pods.None? {
      sequence.status := sequence.status.(phase := PhaseFailed);
      return true, [], NoRequeue, true;
    }
    removed := [];
    if idx > 0 {
      var err;
      removed, err := ReleasePassed(s, a, idx);
      if err {
        return false, removed, NoRequeue, true;
      }
      var prevPods := GetPodsInGroup(s.podGroups[idx - 1], a.previous);
      if prevPods.None? {
        return false, removed, NoRequeue, true;
      }
      var ready := CheckReady(prevPods.value);
      if !ready {
        return true, removed, After(REQUEUE_DELAY), false;
      }
    }
    var more, err := ReleasePods(pods.value, GateName(s), a.patches(idx), true);
    removed := removed + more;
    if err {
      return false, removed, NoRequeue, true;
    }
    requeue := AdvanceWhenReady(sequence, s.podGroups[idx], pods.value, now);
    return true, removed, requeue, false;
  }
}
