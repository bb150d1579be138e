/** The continuity check as it runs: one pass that updates four maps. */
module ContinuityCheck {
  import opened Common
  import opened PermitModel
  import opened LifecycleModel
  import opened ContinuityModel
  import PermitStore

  class Checker {
    const digest: Digest
    var retained: map<Id, Retained>
    var controls: map<PermitId, Permit>
    var states: map<PermitId, EvidenceState>
    var shares: map<PermitId, map<PermitId, Budget>>
    var count: nat

    function State(): Story
      reads this
    {
      Story(count, retained, controls, states, shares)
    }

    constructor (actionDigest: Digest)
      ensures digest == actionDigest && State() == BLANK
    {
      digest, retained, controls, states, shares, count := actionDigest, map[], map[], map[], map[], 0;
    }

    method Issued(proofs: Proofs, step: Id, p: Permit) returns (ok: bool)
      modifies `retained, `controls, `states, `shares
      ensures var t := TellIssued(digest, proofs, old(State()), step, p); ok == t.Some? && (ok ==> State() == t.value)
    {
      hide IdOf, EdgeOk, AllocationsFit, EgressCovers;
      var id := IdOf(p);
      if step in retained { return false; }
      if p.purpose == Control {
        if id in controls { return false; }
        controls := controls[id := p];
        states := states[id := Open];
      } else {
        if !EgressCovers(proofs, State(), step, p.binding) { return false; }
        if p.binding.parent.None? { return false; }
        var q := p.binding.parent.value;
        if q !in controls || !DelegationHolds(digest, p, controls[q]) { return false; }
        assert controls[q].ceiling.Some? by { EdgeCeiling(digest, p, controls[q], false); }
        var allocations := AllocatedTo(State(), q);
        if id in allocations { return false; }
        allocations := allocations[id := p.binding.budget];
        var fits := PermitStore.Fits(allocations, controls[q].ceiling.value.budget);
        if !fits { return false; }
        shares := shares[q := allocations];
      }
      retained := retained[step := Retained(p, IsIssued)];
      return true;
    }

    method Ended(kind: Kind, step: Id, e: Evidence) returns (ok: bool)
      modifies `retained, `states
      ensures var t := TellEnded(old(State()), kind, step, e); ok == t.Some? && (ok ==> State() == t.value)
    {
      hide IdOf;
      if step !in retained || retained[step].permit != e.permit { return false; }
      if retained[step].state != IsIssued { return false; }
      retained := retained[step := Retained(e.permit, ObservedAs(kind))];
      if kind.PermitRevoked? && e.permit.purpose == Control {
        if e.allocations != AllocatedTo(State(), IdOf(e.permit)) { return false; }
        states := states[IdOf(e.permit) := e.state];
      }
      return true;
    }

    method Take(proofs: Proofs, r: Receipt) returns (ok: bool)
      modifies this
      ensures var t := Tell(digest, proofs, old(State()), r); ok == t.Some? && (ok ==> State() == t.value)
    {
      hide EffectAllowed, ReadyToSucceed, Binds, TellIssued, TellEnded;
      if (r.kind.ArtifactStored? || r.kind.StepCompleted?) && !EffectAllowed(State(), r) { return false; }
      if r.kind.RunFinalized? && r.outcome.Ok? && !ReadyToSucceed(State()) { return false; }
      if !PermitEvent(r.kind) {
        count := count + 1;
        return true;
      }
      if !Binds(digest, proofs, r) { return false; }
      assert Proven(proofs, r) by { BoundIsProven(digest, proofs, r); }
      if r.kind.PermitIssued? {
        ok := Issued(proofs, r.step, Proof(proofs, r).permit);
      } else {
        ok := Ended(r.kind, r.step, Proof(proofs, r));
      }
      count := count + 1;
    }
  }

  lemma BoundIsProven(digest: Digest, proofs: Proofs, r: Receipt)
    requires Binds(digest, proofs, r)
    ensures Proven(proofs, r)
  {
  }

  /** The first pass. */
  method CollectEgress(files: Attachments, rs: seq<Receipt>) returns (result: Option<map<Id, (nat, Egress)>>)
    ensures result == Admitted(files, rs)
  {
    var admitted: map<Id, (nat, Egress)> := map[];
    var i := 0;
    while i < |rs|
      invariant i <= |rs| && Admitted(files, rs[..i]) == Some(admitted)
    {
      assert rs[..i + 1][..i] == rs[..i];
      var r := rs[i];
      if r.kind.ProviderEgressAdmitted? {
        if r.artifacts == [] || r.artifacts[0] !in files.egress {
          AdmittedStuck(files, rs, i + 1);
          return None;
        }
        var x := files.egress[r.artifacts[0]];
        if x.verifiedAt != r.validTime || x.argsDigest != r.args || r.step in admitted {
          AdmittedStuck(files, rs, i + 1);
          return None;
        }
        admitted := admitted[r.step := (i, x)];
      }
      i := i + 1;
    }
    assert rs[..i] == rs;
    return Some(admitted);
  }

  /** `validate_permit_continuity`. */
  method Check(digest: Digest, files: Attachments, rs: seq<Receipt>) returns (ok: bool)
    ensures ok <==> Continuous(digest, files, rs)
  {
    hide Tell;
    var admitted := CollectEgress(files, rs);
    if admitted.None? { return false; }
    var proofs := Proofs(files.evidence, admitted.value);
    var c := new Checker(digest);
    var i := 0;
    while i < |rs|
      invariant i <= |rs| && c.digest == digest
      invariant Told(digest, proofs, rs[..i]) == Some(c.State())
    {
      assert rs[..i + 1][..i] == rs[..i];
      var taken := c.Take(proofs, rs[i]);
      if !taken {
        ToldStuck(digest, proofs, rs, i + 1);
        return false;
      }
      i := i + 1;
    }
    assert rs[..i] == rs;
    return true;
  }
}
