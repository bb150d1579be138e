/**
 * Offline permit continuity: every permit event of a receipt sequence carries an
 * evidence artifact, and the evidence must tell one consistent story.
 */
module ContinuityModel {
  import opened Common
  import opened PermitModel
  import opened LifecycleModel

  datatype EvidenceState = Open | Used(at: Time) | Refused(at: Time) | Closed(at: Time, reason: RevocationReason)

  datatype Evidence = Evidence(permit: Permit, allocations: map<PermitId, Budget>, state: EvidenceState)

  /** Evidence of a provider-egress admission. */
  datatype Egress = Egress(verifiedAt: Time, argsDigest: Id, notAfter: Time)

  /** The artifacts that parse as permit evidence and as egress admissions. */
  datatype Attachments = Attachments(evidence: map<Descriptor, Evidence>, egress: map<Descriptor, Egress>)

  /** What the second pass works with: the evidence, and the admission of each step with its position. */
  datatype Proofs = Proofs(evidence: map<Descriptor, Evidence>, admitted: map<Id, (nat, Egress)>)

  // ----- the first pass: egress admissions -----

  function AdmitEgress(files: Attachments, admitted: map<Id, (nat, Egress)>, i: nat, r: Receipt): Option<map<Id, (nat, Egress)>> {
    if !r.kind.ProviderEgressAdmitted? then Some(admitted)
    else if r.artifacts == [] || r.artifacts[0] !in files.egress then None
    else
      var x := files.egress[r.artifacts[0]];
      if x.verifiedAt != r.validTime || x.argsDigest != r.args || r.step in admitted then None
      else Some(admitted[r.step := (i, x)])
  }

  function Admitted(files: Attachments, rs: seq<Receipt>): Option<map<Id, (nat, Egress)>> {
    if rs == [] then Some(map[])
    else
      var before := Admitted(files, rs[..|rs| - 1]);
      if before.None? then None else AdmitEgress(files, before.value, |rs| - 1, rs[|rs| - 1])
  }

  // ----- the second pass: permit events -----

  predicate EvidenceOk(digest: Digest, e: Evidence) {
    var b := e.permit.binding;
    && PermitOk(digest, e.permit)
    && match e.state
       case Open => true
       case Used(at) => b.issuedAt <= at && b.notBefore <= at < b.expiresAt
       case Refused(at) => b.issuedAt <= at
       case Closed(at, _) => b.issuedAt <= at
  }

  predicate PermitEvent(kind: Kind) {
    kind.PermitIssued? || kind.PermitConsumed? || kind.PermitRejected? || kind.PermitRevoked?
  }

  predicate StateFits(kind: Kind, state: EvidenceState) {
    match state
    case Open => kind.PermitIssued?
    case Used(_) => kind.PermitConsumed?
    case Refused(_) => kind.PermitRejected?
    case Closed(_, _) => kind.PermitRevoked?
  }

  function StateTime(e: Evidence): Time {
    match e.state
    case Open => e.permit.binding.issuedAt
    case Used(at) => at
    case Refused(at) => at
    case Closed(at, _) => at
  }

  /** The one evidence artifact of a permit event. */
  predicate Proven(proofs: Proofs, r: Receipt) {
    |r.artifacts| == 1 && r.artifacts[0] in proofs.evidence
  }

  function Proof(proofs: Proofs, r: Receipt): Evidence
    requires Proven(proofs, r)
  {
    proofs.evidence[r.artifacts[0]]
  }

  /** The evidence is about this receipt. */
  predicate Binds(digest: Digest, proofs: Proofs, r: Receipt) {
    && Proven(proofs, r)
    && var e := Proof(proofs, r);
    && EvidenceOk(digest, e) && StateFits(r.kind, e.state) && StateTime(e) == r.validTime
    && e.permit.binding.run == r.run && e.permit.binding.step == r.step
    && e.permit.binding.actionDigest == r.spec && e.permit.binding.argsDigest == r.args
    && forall x :: x in r.lineage && x.permit.Some? ==> x.permit.value == IdOf(e.permit)
  }

  datatype Observed = IsIssued | IsConsumed | IsRejected | IsRevoked

  datatype Retained = Retained(permit: Permit, state: Observed)

  datatype Story = Story(
    count: nat, retained: map<Id, Retained>, controls: map<PermitId, Permit>, states: map<PermitId, EvidenceState>,
    shares: map<PermitId, map<PermitId, Budget>>)

  const BLANK := Story(0, map[], map[], map[], map[])

  function AllocatedTo(c: Story, control: PermitId): map<PermitId, Budget> {
    if control in c.shares then c.shares[control] else map[]
  }

  /** An effect counts only while its control is open and within its window. */
  predicate EffectAllowed(c: Story, r: Receipt) {
    && r.step in c.retained
    && var p := c.retained[r.step];
    && p.permit.purpose == Effect && p.state == IsConsumed && p.permit.binding.parent.Some?
    && var q := p.permit.binding.parent.value;
    && q in c.controls && q in c.states && c.states[q] == Open
    && c.controls[q].binding.notBefore <= r.validTime < c.controls[q].binding.expiresAt
  }

  /** Success needs every effect consumed and every control closed in good order. */
  predicate ReadyToSucceed(c: Story) {
    && (forall s :: s in c.retained && c.retained[s].permit.purpose == Effect ==> c.retained[s].state == IsConsumed)
    && (forall q :: q in c.states ==> c.states[q].Closed? && c.states[q].reason == Operator)
  }

  /** `validate_delegation_evidence` at the time of issue. */
  predicate DelegationHolds(digest: Digest, child: Permit, parent: Permit) {
    && EdgeOk(digest, child, parent, false)
    && parent.binding.notBefore <= child.binding.issuedAt < parent.binding.expiresAt
    && parent.ceiling.value.notBefore <= child.binding.issuedAt < parent.ceiling.value.expiresAt
  }

  /** A network effect needs an earlier admission of its step that covers it. */
  predicate EgressCovers(proofs: Proofs, c: Story, step: Id, b: Binding) {
    b.effect.network ==>
      && step in proofs.admitted
      && var (at, x) := proofs.admitted[step];
      && at < c.count && b.tool == SEALED_COMPLETION_LANE && b.argsDigest == x.argsDigest
      && x.verifiedAt <= b.issuedAt && b.expiresAt <= x.notAfter
  }

  ghost function TellIssued(digest: Digest, proofs: Proofs, c: Story, step: Id, p: Permit): Option<Story> {
    var id := IdOf(p);
    if step in c.retained then None
    else if p.purpose == Control then
      if id in c.controls then None
      else Some(c.(controls := c.controls[id := p], states := c.states[id := Open],
                   retained := c.retained[step := Retained(p, IsIssued)]))
    else if !EgressCovers(proofs, c, step, p.binding) then None
    else if p.binding.parent.None? || p.binding.parent.value !in c.controls then None
    else
      var q := p.binding.parent.value;
      if !DelegationHolds(digest, p, c.controls[q]) || id in AllocatedTo(c, q) then None
      else
        var allocations := AllocatedTo(c, q)[id := p.binding.budget];
        if !AllocationsFit(allocations, c.controls[q].ceiling.value.budget) then None
        else Some(c.(shares := c.shares[q := allocations], retained := c.retained[step := Retained(p, IsIssued)]))
  }

  function ObservedAs(kind: Kind): Observed {
    if kind.PermitConsumed? then IsConsumed else if kind.PermitRejected? then IsRejected else IsRevoked
  }

  function TellEnded(c: Story, kind: Kind, step: Id, e: Evidence): Option<Story> {
    if step !in c.retained || c.retained[step].permit != e.permit || c.retained[step].state != IsIssued then None
    else
      var ended := c.(retained := c.retained[step := Retained(e.permit, ObservedAs(kind))]);
      if !(kind.PermitRevoked? && e.permit.purpose == Control) then Some(ended)
      else if e.allocations != AllocatedTo(c, IdOf(e.permit)) then None
      else Some(ended.(states := c.states[IdOf(e.permit) := e.state]))
  }

  ghost function Tell(digest: Digest, proofs: Proofs, c: Story, r: Receipt): Option<Story> {
    var told := TellOne(digest, proofs, c, r);
    if told.None? then None else Some(told.value.(count := c.count + 1))
  }

  ghost function TellOne(digest: Digest, proofs: Proofs, c: Story, r: Receipt): Option<Story> {
    if (r.kind.ArtifactStored? || r.kind.StepCompleted?) && !EffectAllowed(c, r) then None
    else if r.kind.RunFinalized? && r.outcome.Ok? && !ReadyToSucceed(c) then None
    else if !PermitEvent(r.kind) then Some(c)
    else if !Binds(digest, proofs, r) then None
    else if r.kind.PermitIssued? then TellIssued(digest, proofs, c, r.step, Proof(proofs, r).permit)
    else TellEnded(c, r.kind, r.step, Proof(proofs, r))
  }

  ghost function Told(digest: Digest, proofs: Proofs, rs: seq<Receipt>): Option<Story> {
    if rs == [] then Some(BLANK)
    else
      var before := Told(digest, proofs, rs[..|rs| - 1]);
      if before.None? then None else Tell(digest, proofs, before.value, rs[|rs| - 1])
  }

  lemma {:induction false} ToldStuck(digest: Digest, proofs: Proofs, rs: seq<Receipt>, n: nat)
    requires n <= |rs| && Told(digest, proofs, rs[..n]).None?
    ensures Told(digest, proofs, rs).None?
    decreases |rs| - n
  {
    hide Tell;
    if n == |rs| {
      assert rs[..n] == rs;
    } else {
      assert rs[..n + 1][..n] == rs[..n];
      ToldStuck(digest, proofs, rs, n + 1);
    }
  }

  /** `validate_permit_continuity`: both passes. */
  ghost predicate Continuous(digest: Digest, files: Attachments, rs: seq<Receipt>) {
    Admitted(files, rs).Some? && Told(digest, Proofs(files.evidence, Admitted(files, rs).value), rs).Some?
  }

  lemma {:induction false} AdmittedStuck(files: Attachments, rs: seq<Receipt>, n: nat)
    requires n <= |rs| && Admitted(files, rs[..n]).None?
    ensures Admitted(files, rs).None?
    decreases |rs| - n
  {
    if n == |rs| {
      assert rs[..n] == rs;
    } else {
      assert rs[..n + 1][..n] == rs[..n];
      AdmittedStuck(files, rs, n + 1);
    }
  }
}
