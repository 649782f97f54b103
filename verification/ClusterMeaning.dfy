/** What one pass over a cluster-scoped sequence means: when it advances, whom it lets go, and when the next
    pass is due. */
module ClusterMeaning {
  import opened Options
  import opened Collections
  import opened Kube
  import opened Sequence
  import opened Status
  import opened ClusterScoped

  // ---- reading a group ----

  /** A read goes wrong: one of the named pods could not be fetched, or there is no usable selector, or the list
      call failed. A pod that is missing is no error. */
  predicate ReadFails(g: PodGroup, r: GroupRead)
  {
    if g.pods != [] then exists i :: 0 <= i < |r.fetches| && r.fetches[i] == FetchFailed
    else !g.selector.Selector? || r.listing == None
  }

  /** The pod is among the answers. */
  predicate Answered(g: PodGroup, r: GroupRead, p: Pod)
  {
    if g.pods != [] then exists i :: 0 <= i < |r.fetches| && r.fetches[i] == Found(p)
    else r.listing.Some? && p in r.listing.value
  }

  lemma {:induction false} ReadMeaning(g: PodGroup, r: GroupRead)
    ensures PodsInGroup(g, r) == None <==> ReadFails(g, r)
    ensures !ReadFails(g, r) ==> forall p :: p in PodsInGroup(g, r).value <==> Answered(g, r, p)
  {
    assert FetchFailed in r.fetches <==> exists i :: 0 <= i < |r.fetches| && r.fetches[i] == FetchFailed;
    if g.pods != [] && !ReadFails(g, r) {
      forall p
        ensures p in PodsInGroup(g, r).value <==> Answered(g, r, p)
      {
        CollectMember(FoundPod(), r.fetches, p);
        if f :| f in r.fetches && FoundPod()(f) == Some(p) {
          assert f == Found(p);
        }
        if i :| 0 <= i < |r.fetches| && r.fetches[i] == Found(p) {
          assert FoundPod()(r.fetches[i]) == Some(p);
        }
      }
    }
  }

  // ---- removing gates ----

  ghost predicate Refused(pods: seq<Pod>, gate: string, patch: nat -> PatchResult)
  {
    exists i :: 0 <= i < |pods| && HasGate(pods[i].spec, gate) && patch(i) == Rejected
  }

  /** Every pod read with the gate had it removed, or turned out to be gone. */
  ghost predicate AllLetGo(pods: seq<Pod>, gate: string, patch: nat -> PatchResult, removed: seq<Pod>)
  {
    forall i :: 0 <= i < |pods| && HasGate(pods[i].spec, gate) ==> pods[i] in removed || patch(i) == NotFound
  }

  lemma {:induction false} SweepMeaning(pods: seq<Pod>, gate: string, patch: nat -> PatchResult, stop: bool)
    ensures var sweep := SweepGates(pods, gate, patch, stop);
            && (forall p :: p in sweep.removed ==> p in pods && HasGate(p.spec, gate))
            && (sweep.failed <==> Refused(pods, gate, patch))
            && (!sweep.failed || !stop ==>
                  forall i :: 0 <= i < |pods| && HasGate(pods[i].spec, gate) && patch(i) == Applied ==> pods[i] in sweep.removed)
  {
    if pods != [] {
      var n := |pods| - 1;
      SweepMeaning(pods[..n], gate, patch, stop);
      assert forall i :: 0 <= i < n ==> pods[..n][i] == pods[i];
    }
  }

  lemma {:induction false} SweptIsLetGo(pods: seq<Pod>, gate: string, patch: nat -> PatchResult, stop: bool)
    requires !SweepGates(pods, gate, patch, stop).failed
    ensures AllLetGo(pods, gate, patch, SweepGates(pods, gate, patch, stop).removed)
  {
    SweepMeaning(pods, gate, patch, stop);
    forall i | 0 <= i < |pods| && HasGate(pods[i].spec, gate)
      ensures pods[i] in SweepGates(pods, gate, patch, stop).removed || patch(i) == NotFound
    {
      assert patch(i) != Rejected;
    }
  }

  /** Reading group k, or patching one of its pods, goes wrong. */
  ghost predicate GroupFails(s: PodSequence, a: Answers, k: nat)
    requires k < |s.podGroups| == |a.others|
  {
    var pods := PodsInGroup(s.podGroups[k], a.others[k]);
    pods.None? || Refused(pods.value, GateName(s), a.patches(k))
  }

  ghost predicate GroupLetGo(s: PodSequence, a: Answers, k: nat, removed: seq<Pod>)
    requires k < |s.podGroups| == |a.others|
  {
    var pods := PodsInGroup(s.podGroups[k], a.others[k]);
    pods.Some? && AllLetGo(pods.value, GateName(s), a.patches(k), removed)
  }

  /** The pod was read with its gate as a member of group k. */
  ghost predicate ReadGated(s: PodSequence, a: Answers, k: nat, p: Pod)
    requires k < |s.podGroups| == |a.others|
  {
    var pods := PodsInGroup(s.podGroups[k], a.others[k]);
    pods.Some? && p in pods.value && HasGate(p.spec, GateName(s))
  }

  lemma {:induction false} GroupSweepMeaning(s: PodSequence, a: Answers, n: nat, stop: bool)
    requires n <= |s.podGroups| == |a.others|
    ensures var sweep := SweepGroups(s, a, n, stop);
            && (sweep.failed <==> exists k :: 0 <= k < n && GroupFails(s, a, k))
            && (forall p :: p in sweep.removed ==> exists k :: 0 <= k < n && ReadGated(s, a, k, p))
            && (!sweep.failed ==> forall k :: 0 <= k < n ==> GroupLetGo(s, a, k, sweep.removed))
  {
    if n > 0 {
      GroupSweepMeaning(s, a, n - 1, stop);
      var rest, sweep := SweepGroups(s, a, n - 1, stop), SweepGroups(s, a, n, stop);
      var pods := PodsInGroup(s.podGroups[n - 1], a.others[n - 1]);
      assert sweep.failed <==> rest.failed || GroupFails(s, a, n - 1) by {
        LastGroupSweep(s, a, n, stop);
      }
      if pods.Some? && !(stop && rest.failed) {
        LastGroupSweep(s, a, n, stop);
        if !sweep.failed {
          forall k | 0 <= k < n - 1
            ensures GroupLetGo(s, a, k, sweep.removed)
          {
            assert GroupLetGo(s, a, k, rest.removed);
          }
        }
      }
    }
  }

  /** One more group. */
  lemma {:induction false} LastGroupSweep(s: PodSequence, a: Answers, n: nat, stop: bool)
    requires 0 < n <= |s.podGroups| == |a.others|
    ensures var rest, sweep := SweepGroups(s, a, n - 1, stop), SweepGroups(s, a, n, stop);
            && (sweep.failed <==> rest.failed || GroupFails(s, a, n - 1))
            && rest.removed <= sweep.removed
            && (forall p :: p in sweep.removed ==> p in rest.removed || ReadGated(s, a, n - 1, p))
            && (!sweep.failed ==> GroupLetGo(s, a, n - 1, sweep.removed))
  {
    var pods := PodsInGroup(s.podGroups[n - 1], a.others[n - 1]);
    if pods.Some? {
      SweepMeaning(pods.value, GateName(s), a.patches(n - 1), stop);
      if !SweepGates(pods.value, GateName(s), a.patches(n - 1), stop).failed {
        SweptIsLetGo(pods.value, GateName(s), a.patches(n - 1), stop);
      }
    }
  }

  // ---- when a pass advances ----

  lemma {:induction false} ReadyCountMeaning(pods: seq<Pod>)
    ensures ReadyCount(pods) <= |pods|
    ensures ReadyCount(pods) == |pods| <==> AllReady(pods)
  {
    if pods != [] {
      ReadyCountMeaning(pods[..|pods| - 1]);
      assert pods == pods[..|pods| - 1] + [pods[|pods| - 1]];
    }
  }

  lemma {:induction false} ReadyOnesSnoc(pods: seq<Pod>, p: Pod)
    ensures ReadyOnes(pods + [p]) == ReadyOnes(pods) + if IsPodReady(p) then {|pods|} else {}
    ensures |pods| !in ReadyOnes(pods)
  {
  }

  lemma {:induction false} ReadyCountIsNumber(pods: seq<Pod>)
    ensures ReadyCount(pods) == |ReadyOnes(pods)|
  {
    if pods == [] {
      assert ReadyOnes(pods) == {};
    } else {
      var n := |pods| - 1;
      ReadyCountIsNumber(pods[..n]);
      assert pods == pods[..n] + [pods[n]];
      ReadyOnesSnoc(pods[..n], pods[n]);
    }
  }

  /** The positions of the ready pods. */
  function ReadyOnes(pods: seq<Pod>): set<nat>
  {
    set i: nat | i < |pods| && IsPodReady(pods[i])
  }

  /** All named pods are there, at least one in any case, and each has been ready for the group's wait. */
  ghost predicate GroupPassed(g: PodGroup, pods: seq<Pod>, now: int)
  {
    && pods != [] && |pods| >= |g.pods|
    && g.wait.Wait? && forall p :: p in pods ==> ReadyFor(p, g.wait.duration, now)
  }

  lemma {:induction false} GroupPassedIff(g: PodGroup, pods: seq<Pod>, now: int)
    ensures GroupPassed(g, pods, now) <==>
            pods != [] && |pods| >= |g.pods| && AllReady(pods) && g.wait.Wait? && MaxRemaining(pods, g.wait.duration, now) == 0
  {
    if g.wait.Wait? {
      MaxRemainingMeaning(pods, g.wait.duration, now);
      forall p | p in pods
        ensures ReadyFor(p, g.wait.duration, now) <==> IsPodReady(p) && ReadyRemaining(p, g.wait.duration, now) == 0
      {
        ReadyForMeaning(p, g.wait.duration, now);
      }
    }
  }

  lemma {:induction false} JudgeMeaning(st: SequenceStatus, g: PodGroup, pods: seq<Pod>, now: int)
    ensures var (after, requeue) := Judge(st, g, pods, now);
            && after.currentIndex == (if GroupPassed(g, pods, now) then st.currentIndex + 1 else st.currentIndex)
            && after.processedPods == (if GroupPassed(g, pods, now) then st.processedPods + Names(pods) else st.processedPods)
            && (requeue == Immediately <==> GroupPassed(g, pods, now))
            && after.phase == (if g.wait.InvalidWait? && pods != [] && |pods| >= |g.pods| && AllReady(pods) then PhaseFailed else st.phase)
  {
    ReadyCountMeaning(pods);
    GroupPassedIff(g, pods, now);
  }

  /** The previous group, looked at again, is ready. */
  ghost predicate PreviousReady(s: PodSequence, idx: nat, a: Answers)
    requires idx <= |s.podGroups|
  {
    idx > 0 ==>
      var pods := PodsInGroup(s.podGroups[idx - 1], a.previous);
      pods.Some? && AllReady(pods.value)
  }

  /** Nothing goes wrong in a pass at idx up to and including the removal of gates in its own group. */
  ghost predicate Undisturbed(s: PodSequence, idx: nat, a: Answers)
    requires idx < |s.podGroups| == |a.others|
  {
    var pods := PodsInGroup(s.podGroups[idx], a.current);
    && pods.Some? && (forall k :: 0 <= k < idx ==> !GroupFails(s, a, k))
    && PreviousReady(s, idx, a) && !Refused(pods.value, GateName(s), a.patches(idx))
  }

  ghost predicate Advances(s: PodSequence, idx: nat, a: Answers, now: int)
    requires idx < |s.podGroups| == |a.others|
  {
    Undisturbed(s, idx, a) && GroupPassed(s.podGroups[idx], PodsInGroup(s.podGroups[idx], a.current).value, now)
  }

  function Started(read: SequenceStatus): SequenceStatus
  {
    read.(phase := PhaseInProgress)
  }

  lemma {:induction false} UndisturbedMeaning(s: PodSequence, idx: nat, a: Answers)
    requires idx < |s.podGroups| == |a.others|
    ensures var pods := PodsInGroup(s.podGroups[idx], a.current);
            Undisturbed(s, idx, a) <==>
              && pods.Some? && !SweepGroups(s, a, idx, true).failed
              && PreviousReady(s, idx, a) && !SweepGates(pods.value, GateName(s), a.patches(idx), true).failed
  {
    GroupSweepMeaning(s, a, idx, true);
    var pods := PodsInGroup(s.podGroups[idx], a.current);
    if pods.Some? {
      SweepMeaning(pods.value, GateName(s), a.patches(idx), true);
    }
  }

  lemma {:induction false} JudgedWork(s: PodSequence, st: SequenceStatus, a: Answers, now: int)
    requires st.currentIndex < |s.podGroups| == |a.others| && Undisturbed(s, st.currentIndex, a)
    ensures var work, idx := WorkOnGroup(s, st, a, now), st.currentIndex;
            var pods := PodsInGroup(s.podGroups[idx], a.current).value;
            && (work.status, work.requeue) == Judge(st, s.podGroups[idx], pods, now) && work.stores && !work.failed
            && work.removed == SweepGroups(s, a, idx, true).removed + SweepGates(pods, GateName(s), a.patches(idx), true).removed
  {
    UndisturbedMeaning(s, st.currentIndex, a);
  }

  lemma {:induction false} DisturbedWork(s: PodSequence, st: SequenceStatus, a: Answers, now: int)
    requires st.currentIndex < |s.podGroups| == |a.others| && !Undisturbed(s, st.currentIndex, a)
    ensures var work := WorkOnGroup(s, st, a, now);
            work.requeue != Immediately && (work.status == st || work.status == st.(phase := PhaseFailed))
  {
    UndisturbedMeaning(s, st.currentIndex, a);
  }

  /** An undisturbed pass judges its group; any other leaves index and processed pods alone. */
  lemma {:induction false} PassIsJudged(s: PodSequence, read: SequenceStatus, a: Answers, now: int)
    requires |a.others| == |s.podGroups| && read.currentIndex < |s.podGroups|
    ensures var pass, idx := ClusterPass(s, read, a, now), read.currentIndex;
            if Undisturbed(s, idx, a) then
              var pods := PodsInGroup(s.podGroups[idx], a.current).value;
              && (pass.status, pass.requeue) == Judge(Started(read), s.podGroups[idx], pods, now)
              && pass.stores && !pass.failed
              && pass.removed == SweepGroups(s, a, idx, true).removed + SweepGates(pods, GateName(s), a.patches(idx), true).removed
            else
              pass.requeue != Immediately && (pass.status == Started(read) || pass.status == Started(read).(phase := PhaseFailed))
  {
    if Undisturbed(s, read.currentIndex, a) {
      JudgedWork(s, Started(read), a, now);
    } else {
      DisturbedWork(s, Started(read), a, now);
    }
  }

  /** A pass moves the index exactly when its group has passed, the previous group is still ready, and every
      read and patch it makes on the way succeeds; it then adds one to the index and the names of the group to
      the processed pods. */
  lemma {:induction false} PassAdvancesIff(s: PodSequence, read: SequenceStatus, a: Answers, now: int)
    requires |a.others| == |s.podGroups| && read.currentIndex < |s.podGroups|
    ensures var after, idx := ClusterPass(s, read, a, now).status, read.currentIndex;
            if Advances(s, idx, a, now) then
              && after.currentIndex == idx + 1
              && after.processedPods == read.processedPods + Names(PodsInGroup(s.podGroups[idx], a.current).value)
            else
              after.currentIndex == idx && after.processedPods == read.processedPods
  {
    var idx := read.currentIndex;
    PassIsJudged(s, read, a, now);
    if Undisturbed(s, idx, a) {
      JudgeMeaning(Started(read), s.podGroups[idx], PodsInGroup(s.podGroups[idx], a.current).value, now);
    }
  }

  /** An advance is stored and followed up at once. */
  lemma {:induction false} AdvanceIsStored(s: PodSequence, read: SequenceStatus, a: Answers, now: int)
    requires |a.others| == |s.podGroups| && read.currentIndex < |s.podGroups| && Advances(s, read.currentIndex, a, now)
    ensures var pass := ClusterPass(s, read, a, now);
            pass.stores && !pass.failed && pass.requeue == Immediately
  {
    PassIsJudged(s, read, a, now);
    JudgeMeaning(Started(read), s.podGroups[read.currentIndex], PodsInGroup(s.podGroups[read.currentIndex], a.current).value, now);
  }

  /** The sequence is marked completed exactly when no group is left, and nothing else about it changes then. */
  lemma {:induction false} CompletedIff(s: PodSequence, read: SequenceStatus, a: Answers, now: int)
    requires |a.others| == |s.podGroups|
    ensures var pass := ClusterPass(s, read, a, now);
            && (pass.status.phase == PhaseCompleted <==> read.currentIndex >= |s.podGroups|)
            && (read.currentIndex >= |s.podGroups| ==>
                  pass.stores && pass.status == read.(phase := PhaseCompleted) && pass.requeue == NoRequeue)
  {
    if read.currentIndex < |s.podGroups| {
      PassIsJudged(s, read, a, now);
      if Undisturbed(s, read.currentIndex, a) {
        var g := s.podGroups[read.currentIndex];
        JudgeMeaning(Started(read), g, PodsInGroup(g, a.current).value, now);
      }
    }
  }

  /** How a pass over an open group ends. It errs exactly if its group, an earlier one or the second look at the
      previous one cannot be read, or a gate patch it makes is rejected; then it does not ask to come back. If the
      previous group is no longer ready it polls. A status it cannot vouch for is not stored. */
  lemma {:induction false} PassOutcome(s: PodSequence, read: SequenceStatus, a: Answers, now: int)
    requires |a.others| == |s.podGroups| && read.currentIndex < |s.podGroups|
    ensures var pass, idx := ClusterPass(s, read, a, now), read.currentIndex;
            var unreadable := ReadFails(s.podGroups[idx], a.current);
            && (pass.failed <==>
                  || unreadable || (exists k :: 0 <= k < idx && GroupFails(s, a, k))
                  || (idx > 0 && ReadFails(s.podGroups[idx - 1], a.previous))
                  || (PreviousReady(s, idx, a) && Refused(PodsInGroup(s.podGroups[idx], a.current).value, GateName(s), a.patches(idx))))
            && (pass.failed ==>
                  pass.requeue == NoRequeue && pass.status == if unreadable then Started(read).(phase := PhaseFailed) else Started(read))
            && (pass.stores <==> !pass.failed || unreadable) && (unreadable ==> pass.removed == [])
            && (!pass.failed && !PreviousReady(s, idx, a) ==> pass.requeue == After(5_000_000_000) && pass.status == Started(read))
  {
    var idx := read.currentIndex;
    ReadMeaning(s.podGroups[idx], a.current);
    GroupSweepMeaning(s, a, idx, true);
    if idx > 0 {
      ReadMeaning(s.podGroups[idx - 1], a.previous);
    }
    var pods := PodsInGroup(s.podGroups[idx], a.current);
    if pods.Some? {
      SweepMeaning(pods.value, GateName(s), a.patches(idx), true);
    }
  }

  /** One of the reads a pass needs goes wrong. */
  ghost predicate SomeReadFails(s: PodSequence, idx: nat, a: Answers)
    requires idx < |s.podGroups| == |a.others|
  {
    || ReadFails(s.podGroups[idx], a.current) || (idx > 0 && ReadFails(s.podGroups[idx - 1], a.previous))
    || exists k :: 0 <= k < idx && ReadFails(s.podGroups[k], a.others[k])
  }

  /** A failed read is never taken for an absent pod: the pass errs, index and processed pods stay, and no pod of
      the current group is let go, unless it was also among the answers for an earlier one. */
  lemma {:induction false} FailedReadHoldsBack(s: PodSequence, read: SequenceStatus, a: Answers, now: int)
    requires |a.others| == |s.podGroups| && read.currentIndex < |s.podGroups| && SomeReadFails(s, read.currentIndex, a)
    ensures var pass, idx := ClusterPass(s, read, a, now), read.currentIndex;
            && pass.failed && pass.status.currentIndex == idx && pass.status.processedPods == read.processedPods
            && forall p :: p in pass.removed ==> exists k :: 0 <= k < idx && Answered(s.podGroups[k], a.others[k], p)
  {
    var idx := read.currentIndex;
    if k :| 0 <= k < idx && ReadFails(s.podGroups[k], a.others[k]) {
      ReadMeaning(s.podGroups[k], a.others[k]);
      assert GroupFails(s, a, k);
    }
    PassOutcome(s, read, a, now);
    UnreadPassKeepsGroup(s, Started(read), a, now);
    forall p | p in ClusterPass(s, read, a, now).removed
      ensures exists k :: 0 <= k < idx && Answered(s.podGroups[k], a.others[k], p)
    {
      GroupSweepMeaning(s, a, idx, true);
      var k :| 0 <= k < idx && ReadGated(s, a, k, p);
      ReadMeaning(s.podGroups[k], a.others[k]);
    }
  }

  lemma {:induction false} UnreadPassKeepsGroup(s: PodSequence, st: SequenceStatus, a: Answers, now: int)
    requires st.currentIndex < |s.podGroups| == |a.others| && SomeReadFails(s, st.currentIndex, a)
    ensures var removed := WorkOnGroup(s, st, a, now).removed;
            removed == [] || removed == SweepGroups(s, a, st.currentIndex, true).removed
  {
    var idx := st.currentIndex;
    ReadMeaning(s.podGroups[idx], a.current);
    GroupSweepMeaning(s, a, idx, true);
    if idx > 0 {
      ReadMeaning(s.podGroups[idx - 1], a.previous);
    }
    if k :| 0 <= k < idx && ReadFails(s.podGroups[k], a.others[k]) {
      ReadMeaning(s.podGroups[k], a.others[k]);
      assert GroupFails(s, a, k);
    }
  }

  /** All pods the group needs are there and ready. */
  ghost predicate AllThere(g: PodGroup, pods: seq<Pod>)
  {
    pods != [] && |pods| >= |g.pods| && AllReady(pods)
  }

  /** What an undisturbed pass reports: the pods of its group and how many are ready; it polls until all are
      there and ready, fails on an invalid wait, and otherwise comes back when the wait is over. */
  lemma {:induction false} PassReports(s: PodSequence, read: SequenceStatus, a: Answers, now: int)
    requires |a.others| == |s.podGroups| && read.currentIndex < |s.podGroups| && Undisturbed(s, read.currentIndex, a)
    ensures var pass, g := ClusterPass(s, read, a, now), s.podGroups[read.currentIndex];
            var pods := PodsInGroup(g, a.current).value;
            && pass.status.currentGroupPods == Names(pods)
            && pass.status.readyPods == |ReadyOnes(pods)| <= |pods| && (pass.status.readyPods == |pods| <==> AllReady(pods))
            && (!AllThere(g, pods) ==> pass.requeue == After(5_000_000_000) && pass.status.phase == PhaseInProgress)
            && (AllThere(g, pods) && g.wait.InvalidWait? ==> pass.requeue == NoRequeue && pass.status.phase == PhaseFailed)
            && (AllThere(g, pods) && g.wait.Wait? && !GroupPassed(g, pods, now) ==>
                  && pass.requeue.After? && pass.status.phase == PhaseInProgress
                  && exists p :: p in pods && ReadyRemaining(p, g.wait.duration, now) == pass.requeue.delay)
  {
    var g := s.podGroups[read.currentIndex];
    var pods := PodsInGroup(g, a.current).value;
    PassIsJudged(s, read, a, now);
    ReadyCountMeaning(pods);
    ReadyCountIsNumber(pods);
    GroupPassedIff(g, pods, now);
    if g.wait.Wait? {
      MaxRemainingBound(pods, g.wait.duration, now);
    }
  }

  /** What a pass does to the status does not depend on the pods of groups before the previous one, as long as
      they can be read and released. */
  lemma {:induction false} EarlierGroupsAreNotRechecked(s: PodSequence, read: SequenceStatus, a: Answers, others: seq<GroupRead>, now: int)
    requires |a.others| == |s.podGroups| == |others| && read.currentIndex < |s.podGroups|
    requires forall k :: 0 <= k < read.currentIndex ==> !GroupFails(s, a, k) && !GroupFails(s, a.(others := others), k)
    ensures var b := a.(others := others);
            && ClusterPass(s, read, a, now).status == ClusterPass(s, read, b, now).status
            && ClusterPass(s, read, a, now).requeue == ClusterPass(s, read, b, now).requeue
  {
    GroupSweepMeaning(s, a, read.currentIndex, true);
    GroupSweepMeaning(s, a.(others := others), read.currentIndex, true);
  }

  // ---- whom a pass lets go ----

  /** The pod was read with its gate in the group the pass works on. */
  ghost predicate ReadGatedNow(s: PodSequence, idx: nat, a: Answers, p: Pod)
    requires idx < |s.podGroups|
  {
    var pods := PodsInGroup(s.podGroups[idx], a.current);
    pods.Some? && p in pods.value && HasGate(p.spec, GateName(s))
  }

  /** A pass only removes gates of pods it read as members of the current group or one before it. */
  lemma {:induction false} RemovedWasRead(s: PodSequence, read: SequenceStatus, a: Answers, now: int, p: Pod)
    requires |a.others| == |s.podGroups| && p in ClusterPass(s, read, a, now).removed
    ensures (read.currentIndex < |s.podGroups| && ReadGatedNow(s, read.currentIndex, a, p))
            || exists k :: 0 <= k < |s.podGroups| && k < read.currentIndex && ReadGated(s, a, k, p)
  {
    var idx := read.currentIndex;
    if idx >= |s.podGroups| {
      GroupSweepMeaning(s, a, |s.podGroups|, false);
    } else {
      GroupSweepMeaning(s, a, idx, true);
      var pods := PodsInGroup(s.podGroups[idx], a.current);
      if pods.Some? {
        SweepMeaning(pods.value, GateName(s), a.patches(idx), true);
        assert p in SweepGroups(s, a, idx, true).removed || p in SweepGates(pods.value, GateName(s), a.patches(idx), true).removed;
      }
    }
  }

  lemma {:induction false} RegressedWork(s: PodSequence, st: SequenceStatus, a: Answers, now: int)
    requires st.currentIndex < |s.podGroups| == |a.others| && !PreviousReady(s, st.currentIndex, a)
    ensures var removed := WorkOnGroup(s, st, a, now).removed;
            removed == [] || removed == SweepGroups(s, a, st.currentIndex, true).removed
  {
  }

  /** When the previous group is no longer ready, no pod of the current group is let go, unless it was also
      read in an earlier one. */
  lemma {:induction false} RegressionHoldsGroupBack(s: PodSequence, read: SequenceStatus, a: Answers, now: int)
    requires |a.others| == |s.podGroups| && read.currentIndex < |s.podGroups| && !PreviousReady(s, read.currentIndex, a)
    ensures forall p :: p in ClusterPass(s, read, a, now).removed ==>
              exists k :: 0 <= k < read.currentIndex && ReadGated(s, a, k, p)
  {
    GroupSweepMeaning(s, a, read.currentIndex, true);
    RegressedWork(s, Started(read), a, now);
    assert ClusterPass(s, read, a, now) == WorkOnGroup(s, Started(read), a, now);
  }

  /** A pass never keeps gated a pod it is waiting for: once the groups before have passed, every pod read in
      them or in the current group is let go, whether or not the pass then advances. */
  lemma {:induction false} WaitedGroupIsLetGo(s: PodSequence, read: SequenceStatus, a: Answers, now: int)
    requires |a.others| == |s.podGroups| && read.currentIndex < |s.podGroups| && Undisturbed(s, read.currentIndex, a)
    ensures var pass, idx := ClusterPass(s, read, a, now), read.currentIndex;
            && !pass.failed
            && AllLetGo(PodsInGroup(s.podGroups[idx], a.current).value, GateName(s), a.patches(idx), pass.removed)
            && forall k :: 0 <= k < idx ==> GroupLetGo(s, a, k, pass.removed)
  {
    var idx := read.currentIndex;
    var pods := PodsInGroup(s.podGroups[idx], a.current).value;
    PassIsJudged(s, read, a, now);
    GroupSweepMeaning(s, a, idx, true);
    SweepMeaning(pods, GateName(s), a.patches(idx), true);
    SweptIsLetGo(pods, GateName(s), a.patches(idx), true);
    var earlier, own := SweepGroups(s, a, idx, true), SweepGates(pods, GateName(s), a.patches(idx), true);
    forall k | 0 <= k < idx
      ensures GroupLetGo(s, a, k, earlier.removed + own.removed)
    {
      assert GroupLetGo(s, a, k, earlier.removed);
    }
  }

  lemma {:induction false} SweepGoesOn(s: PodSequence, a: Answers, n: nat, k: nat)
    requires k < n <= |s.podGroups| == |a.others| && !GroupFails(s, a, k)
    ensures GroupLetGo(s, a, k, SweepGroups(s, a, n, false).removed)
  {
    var rest := SweepGroups(s, a, n - 1, false);
    if k == n - 1 {
      var pods := PodsInGroup(s.podGroups[k], a.others[k]).value;
      SweepMeaning(pods, GateName(s), a.patches(k), false);
      SweptIsLetGo(pods, GateName(s), a.patches(k), false);
    } else {
      SweepGoesOn(s, a, n - 1, k);
      assert rest.removed <= SweepGroups(s, a, n, false).removed;
    }
  }

  /** A completed pass lets every member of a group go that it can read and release, whatever happens to the other
      groups, and returns an error if there are such. */
  lemma {:induction false} CompletedPassLetsAllGo(s: PodSequence, read: SequenceStatus, a: Answers, now: int)
    requires |a.others| == |s.podGroups| <= read.currentIndex
    ensures ClusterPass(s, read, a, now).failed <==> exists k :: 0 <= k < |s.podGroups| && GroupFails(s, a, k)
    ensures forall k :: 0 <= k < |s.podGroups| && !GroupFails(s, a, k) ==> GroupLetGo(s, a, k, ClusterPass(s, read, a, now).removed)
  {
    GroupSweepMeaning(s, a, |s.podGroups|, false);
    forall k | 0 <= k < |s.podGroups| && !GroupFails(s, a, k)
      ensures GroupLetGo(s, a, k, SweepGroups(s, a, |s.podGroups|, false).removed)
    {
      SweepGoesOn(s, a, |s.podGroups|, k);
    }
  }

  // ---- what reading a group returns ----

  lemma {:induction false} CollectFull<T, U>(f: T -> Option<U>, s: seq<T>)
    ensures |Collect(f, s)| <= |s|
    ensures |Collect(f, s)| == |s| ==> forall i :: 0 <= i < |s| ==> f(s[i]) == Some(Collect(f, s)[i])
  {
    if s != [] {
      CollectFull(f, s[..|s| - 1]);
    }
  }

  /** Pods read for a group belong to it; and when a group is given by names and has passed, every name was found. */
  lemma {:induction false} ReadMembers(s: PodSequence, g: PodGroup, r: GroupRead)
    requires Honest(s, g, r) && PodsInGroup(g, r).Some?
    ensures var pods := PodsInGroup(g, r).value;
            && (forall p :: p in pods ==> PodMatchesGroup(p, g) && p.namespace == TargetNamespace(s))
            && (g.pods != [] && |pods| >= |g.pods| ==> Names(pods) == g.pods)
  {
    var pods := PodsInGroup(g, r).value;
    if g.pods != [] {
      CollectFull(FoundPod(), r.fetches);
      forall p | p in pods
        ensures PodMatchesGroup(p, g) && p.namespace == TargetNamespace(s)
      {
        CollectMember(FoundPod(), r.fetches, p);
      }
    }
  }

  // ---- when the next pass is due ----

  /** Judging again later, the group first passes when the requeue is due. */
  lemma {:induction false} JudgedLater(st: SequenceStatus, g: PodGroup, pods: seq<Pod>, now: int, t: int)
    requires now <= t && g.wait.Wait? && pods != [] && |pods| >= |g.pods| && AllReady(pods) && !GroupPassed(g, pods, now)
    ensures var requeue := Judge(st, g, pods, now).1;
            && requeue.After?
            && (GroupPassed(g, pods, t) <==> t >= now + requeue.delay)
            && (t < now + requeue.delay ==> Judge(st, g, pods, t).1 == After(now + requeue.delay - t))
  {
    ReadyCountMeaning(pods);
    GroupPassedIff(g, pods, now);
    GroupPassedIff(g, pods, t);
    MaxRemainingElapses(pods, g.wait.duration, now, t);
  }

  /** A pass that waits asks to come back exactly when it will first advance: with the same answers it does
      not advance before, and does from then on. */
  lemma {:induction false} WaitIsExact(s: PodSequence, read: SequenceStatus, a: Answers, now: int, t: int)
    requires |a.others| == |s.podGroups| && read.currentIndex < |s.podGroups| && now <= t
    requires Undisturbed(s, read.currentIndex, a)
    requires var g := s.podGroups[read.currentIndex];
             var pods := PodsInGroup(g, a.current).value;
             g.wait.Wait? && pods != [] && |pods| >= |g.pods| && AllReady(pods) && !GroupPassed(g, pods, now)
    ensures ClusterPass(s, read, a, now).requeue.After?
    ensures ClusterPass(s, read, a, t).status.currentIndex == read.currentIndex + 1
            <==> t >= now + ClusterPass(s, read, a, now).requeue.delay
    ensures t < now + ClusterPass(s, read, a, now).requeue.delay ==>
              ClusterPass(s, read, a, t).requeue == After(now + ClusterPass(s, read, a, now).requeue.delay - t)
  {
    var g := s.podGroups[read.currentIndex];
    var pods := PodsInGroup(g, a.current).value;
    PassIsJudged(s, read, a, now);
    PassIsJudged(s, read, a, t);
    JudgedLater(Started(read), g, pods, now, t);
    PassAdvancesIff(s, read, a, t);
  }
}
