/** In-place edits of a pod spec and the two patches that release a pod:
    internal/sequence/sequence.go and internal/controller/podsequence_controller.go. */
module PodEdits {
  import opened Options
  import opened Kube
  import opened Sequence
  import opened NodePlanSpec

  /** The spec with the constraints of an action added. */
  function Constrained(spec: PodSpec, a: PodAction): PodSpec
  {
    spec.(tolerations := WithTolerations(spec.tolerations, a.addTolerations),
          required := if a.addAffinity.Some? then WithRequirement(spec.required, a.addAffinity.value) else spec.required)
  }

  function Ungated(spec: PodSpec, gate: string): PodSpec
  {
    spec.(gates := WithoutGate(spec.gates, gate))
  }

  /** What is stored after the two patches of an action, each of which may not be applied. */
  function StoredAfter(spec: PodSpec, a: PodAction, gate: string, first: PatchResult, second: PatchResult): PodSpec
  {
    if Constrained(spec, a) != spec && first != Applied then spec
    else if HasGate(spec, gate) && second == Applied then Ungated(Constrained(spec, a), gate)
    else Constrained(spec, a)
  }

  /** Whether handling a pod is an error: a pod that is gone is none, a stale copy conflicts with its first patch. */
  predicate ActionFails(spec: PodSpec, a: PodAction, gate: string, current: bool, first: PatchResult, second: PatchResult)
  {
    if Constrained(spec, a) != spec && !(first == Applied && current) then first != NotFound
    else HasGate(spec, gate) && (second == Rejected || (second == Applied && !current))
  }

  /** Handling a gated pod that is still there errs exactly unless its copy is current and each patch it needs is
      applied; and a pod that is gone is no error. */
  lemma {:induction false} ActionFailsIff(spec: PodSpec, a: PodAction, gate: string, current: bool, first: PatchResult, second: PatchResult)
    requires gate in spec.gates
    ensures first != NotFound && second != NotFound ==>
              (ActionFails(spec, a, gate, current, first, second) <==>
                 !current || second != Applied || (Constrained(spec, a) != spec && first != Applied))
    ensures !ActionFails(spec, a, gate, current, NotFound, NotFound)
  {
  }

  /** Wherever the two patches stop, a stored pod without the gate carries all constraints. */
  lemma {:induction false} GateGoneMeansConstrained(spec: PodSpec, a: PodAction, gate: string, first: PatchResult, second: PatchResult)
    requires HasGate(spec, gate)
    ensures var stored := StoredAfter(spec, a, gate, first, second);
            && (HasGate(stored, gate) || stored == Ungated(Constrained(spec, a), gate))
            && (first == Applied && second == Applied ==> !HasGate(stored, gate))
  {
    WithoutGateMember(spec.gates, gate, gate);
  }

  /** A pod object: the copy the controller edits or the one the API server stores. */
  class PodObject {
    var spec: PodSpec
    var version: nat

    constructor (spec: PodSpec, version: nat)
      ensures this.spec == spec && this.version == version
    {
      this.spec, this.version := spec, version;
    }

    method AddTolerations(tols: seq<Toleration>) returns (changed: bool)
      modifies this`spec
      ensures spec == old(spec).(tolerations := WithTolerations(old(spec).tolerations, tols))
      ensures changed <==> spec != old(spec)
    {
      changed := false;
      for i := 0 to |tols|
        invariant spec == old(spec).(tolerations := WithTolerations(old(spec).tolerations, tols[..i]))
        invariant |spec.tolerations| >= |old(spec).tolerations|
        invariant changed <==> |spec.tolerations| > |old(spec).tolerations|
        invariant !changed ==> spec == old(spec)
      {
        assert tols[..i + 1][..i] == tols[..i];
        var found := false;
        for j := 0 to |spec.tolerations|
          invariant found <==> exists e :: e in spec.tolerations[..j] && MatchToleration(e, tols[i])
        {
          assert spec.tolerations[..j + 1] == spec.tolerations[..j] + [spec.tolerations[j]];
          if MatchToleration(spec.tolerations[j], tols[i]) {
            found := true;
            assert spec.tolerations[j] in spec.tolerations;
            break;
          }
        }
        assert spec.tolerations[..|spec.tolerations|] == spec.tolerations;
        if !found {
          spec := spec.(tolerations := spec.tolerations + [tols[i]]);
          changed := true;
        }
      }
      assert tols[..|tols|] == tols;
    }

    method AddRequiredNodeAffinity(req: Requirement) returns (changed: bool)
      modifies this`spec
      ensures spec == old(spec).(required := WithRequirement(old(spec).required, req))
      ensures changed <==> spec != old(spec)
    {
      if spec.required.None? || |spec.required.value| == 0 {
        spec := spec.(required := Some([NodeSelectorTerm([req], [])]));
        return true;
      }
      changed := false;
      var terms := spec.required.value;
      for i := 0 to |terms|
        invariant spec == old(spec).(required := Some(terms)) && |terms| == |old(spec).required.value|
        invariant forall j :: 0 <= j < i ==> terms[j] == TermWith(old(spec).required.value[j], req)
        invariant forall j :: i <= j < |terms| ==> terms[j] == old(spec).required.value[j]
        invariant changed <==> terms != old(spec).required.value
      {
        if !HasRequirement(terms[i].expressions, req) {
          ghost var before := terms;
          terms := terms[i := terms[i].(expressions := terms[i].expressions + [req])];
          assert |terms[i].expressions| > |old(spec).required.value[i].expressions|;
          spec := spec.(required := Some(terms));
          changed := true;
        }
      }
      assert terms == TermsWith(old(spec).required.value, req);
    }

    /** A merge patch under an optimistic lock: it conflicts unless this copy is current. */
    method Patch(stored: PodObject, outcome: PatchResult) returns (result: PatchResult)
      requires stored != this
      modifies this`version, stored
      ensures result == if outcome == Applied && old(version) != old(stored.version) then Rejected else outcome
      ensures result == Applied ==> stored.spec == spec && stored.version == old(stored.version) + 1 && version == stored.version
      ensures result != Applied ==> stored.spec == old(stored.spec) && stored.version == old(stored.version) && version == old(version)
    {
      if outcome == Applied && version != stored.version {
        return Rejected;
      }
      if outcome == Applied {
        stored.spec, stored.version := spec, stored.version + 1;
        version := stored.version;
      }
      return outcome;
    }

    /** Removes the gate; a pod that is gone needs no release. */
    method RemoveGate(stored: PodObject, gate: string, outcome: PatchResult) returns (err: bool)
      requires stored != this
      modifies this, stored
      ensures !HasGate(old(spec), gate) ==> !err && spec == old(spec) && stored.spec == old(stored.spec)
      ensures HasGate(old(spec), gate) ==>
                var applied := outcome == Applied && old(version) == old(stored.version);
                && stored.spec == (if applied then Ungated(old(spec), gate) else old(stored.spec))
                && err == (outcome == Rejected || (outcome == Applied && !applied))
    {
      if !HasGate(spec, gate) {
        return false;
      }
      var gates: seq<string> := [];
      for i := 0 to |spec.gates|
        invariant gates == WithoutGate(spec.gates[..i], gate)
        invariant spec == old(spec) && version == old(version) && stored.spec == old(stored.spec) && stored.version == old(stored.version)
      {
        assert spec.gates[..i + 1][..i] == spec.gates[..i];
        if spec.gates[i] != gate {
          gates := gates + [spec.gates[i]];
        }
      }
      assert spec.gates[..|spec.gates|] == spec.gates;
      spec := spec.(gates := gates);
      var result := Patch(stored, outcome);
      return result == Rejected;
    }

    /** Two patches, constraints first. From a stale copy neither lands; from a current one the outcomes of the
        two determine the stored spec. */
    method ApplyPodAction(stored: PodObject, a: PodAction, gate: string, first: PatchResult, second: PatchResult)
      returns (err: bool)
      requires stored != this
      requires version == stored.version ==> spec == stored.spec
      modifies this, stored
      ensures stored.spec == if old(version) != old(stored.version) then old(stored.spec)
                             else StoredAfter(old(spec), a, gate, first, second)
      ensures err == ActionFails(old(spec), a, gate, old(version) == old(stored.version), first, second)
      ensures !err && HasGate(old(spec), gate) && first != NotFound && second != NotFound ==>
                stored.spec == Ungated(Constrained(old(spec), a), gate)
    {
      if |a.addTolerations| > 0 || a.addAffinity.Some? {
        var changed := AddTolerations(a.addTolerations);
        if a.addAffinity.Some? {
          var added := AddRequiredNodeAffinity(a.addAffinity.value);
          if added {
            changed := true;
          }
        }
        assert spec == Constrained(old(spec), a);
        if changed {
          var result := Patch(stored, first);
          if result != Applied {
            return result == Rejected;
          }
        }
      }
      err := RemoveGate(stored, gate, second);
    }
  }
}
