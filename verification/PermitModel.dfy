/**
 * Durable permits: delegation from control to control to effect, and the single
 * use of each permit. A permit id is modelled by what it is derived from, so it
 * contains its parent's id and says everything about the permit but its absolute
 * times. A record file is a map entry replaced at the rename.
 */
module PermitModel {
  import opened Common

  type Id = string
  type Time = int

  const MAX_LIVE_LEASE: int := 300_000
  const U32_MAX: nat := 0xffff_ffff
  const MAX_RECORD_BYTES: nat := 1024 * 1024
  const MAX_FAMILY_BYTES: nat := 1024 * 1024
  const NORMAL_CHAT_LANE := "normal_chat"
  const SEALED_COMPLETION_LANE := "sealed_completion"

  datatype Dimension = WallTime | Output | Artifact

  datatype Budget = Budget(wallTimeMs: U64, outputBytes: U64, artifactBytes: U64)
  {
    function At(d: Dimension): U64 {
      match d
      case WallTime => wallTimeMs
      case Output => outputBytes
      case Artifact => artifactBytes
    }

    predicate Within(that: Budget) {
      wallTimeMs <= that.wallTimeMs && outputBytes <= that.outputBytes && artifactBytes <= that.artifactBytes
    }

    predicate Positive() {
      0 < wallTimeMs && 0 < outputBytes && 0 < artifactBytes
    }
  }

  datatype EffectScope = EffectScope(name: string, readRoots: seq<Path>, writeRoots: seq<Path>, network: bool)

  datatype Action = Action(tool: string, actionDigest: Id, argsDigest: Id, effect: EffectScope, executables: seq<Id>)

  /** The digest under which actions are sorted; nothing is assumed about it. */
  type Digest = Action -> nat

  datatype Transition = ControlToEffect | ControlToControl

  datatype Ceiling = Ceiling(
    actor: Id, policyVersion: string, run: Id, transition: Transition, audiences: seq<string>,
    actions: seq<Action>, budget: Budget, notBefore: Time, expiresAt: Time)

  datatype Purpose = Effect | Control

  datatype Delegation = Delegation(actor: Id, delegate: Id, audience: string, depth: nat)

  datatype Binding = Binding(
    actor: Id, actionDigest: Id, effect: EffectScope, budget: Budget, policyVersion: string,
    parent: Option<PermitId>, parentOperation: Option<Id>, issuedAt: Time, notBefore: Time, expiresAt: Time,
    run: Id, step: Id, tool: string, argsDigest: Id)

  datatype Permit = Permit(
    binding: Binding, purpose: Purpose, ceiling: Option<Ceiling>, delegation: Option<Delegation>, executables: seq<Id>)

  datatype CeilingId = CeilingId(
    actor: Id, policyVersion: string, run: Id, transition: Transition, audiences: seq<string>,
    actions: seq<Action>, budget: Budget, delay: int, validity: int)

  datatype Body = Body(
    actor: Id, actionDigest: Id, effect: EffectScope, budget: Budget, policyVersion: string,
    parentOperation: Option<Id>, run: Id, step: Id, tool: string, argsDigest: Id, delay: int, validity: int,
    purpose: Purpose, ceiling: Option<CeilingId>, delegation: Option<Delegation>, executables: seq<Id>)

  datatype PermitId = PermitId(parent: Option<PermitId>, body: Body)

  function IdOf(p: Permit): PermitId {
    var b := p.binding;
    PermitId(b.parent, Body(
      b.actor, b.actionDigest, b.effect, b.budget, b.policyVersion, b.parentOperation, b.run, b.step, b.tool, b.argsDigest,
      b.notBefore - b.issuedAt, b.expiresAt - b.notBefore, p.purpose,
      if p.ceiling.None? then None else
        var c := p.ceiling.value;
        Some(CeilingId(c.actor, c.policyVersion, c.run, c.transition, c.audiences, c.actions, c.budget,
                       c.notBefore - b.issuedAt, c.expiresAt - c.notBefore)),
      p.delegation, p.executables))
  }

  datatype RevocationReason = Operator | ParentRevoked | PolicySuperseded | OperationCancelled

  datatype State = Issued | Consumed(at: Time) | Revoked(revokedAt: Time, reason: RevocationReason)

  /** The evidence of a consumption: the permit, what it had delegated, and when. */
  datatype Preflight = Preflight(permit: Permit, allocations: map<PermitId, Budget>, recordedAt: Time)

  datatype ReportedState = Succeeded | Failed | OutcomeAmbiguous

  datatype Reported = Reported(state: ReportedState, durationMs: U64, errorType: Option<string>)

  datatype Outcome = Outcome(preflight: Preflight, reported: Reported, recordedAt: Time)

  datatype Document = Document(digest: Id, bytes: U64)

  datatype Settlement = Settlement(outcome: Outcome, response: Document, observation: Document)

  /** What one normal-chat attempt was admitted for. */
  datatype Attempt = Attempt(
    operation: Id, maxAttempts: nat, number: nat, attemptId: Id, run: Id, argsDigest: Id, wallTimeMs: U64, expiresAt: Time)

  datatype Record = Record(
    permit: Permit, state: State, allocations: map<PermitId, Budget>, preflight: Option<Preflight>,
    outcome: Option<Outcome>, retained: Option<Attempt>, settlement: Option<Settlement>)

  datatype Reservation = Reservation(attemptId: Id, permit: PermitId)

  datatype Family = Family(operation: Id, maxAttempts: nat, attempts: map<nat, Reservation>)

  datatype Store = Store(records: map<PermitId, Record>, families: map<PermitId, Family>)

  const EMPTY := Store(map[], map[])

  function Blank(p: Permit): Record {
    Record(p, Issued, map[], None, None, None, None)
  }

  // ----- shape checks -----

  predicate ClosedLane(lane: string, tool: string, e: EffectScope) {
    tool == lane && e.name == lane && e.network && e.readRoots == [] && e.writeRoots == []
  }

  predicate NetworkOk(tool: string, e: EffectScope) {
    e.network ==> ClosedLane(SEALED_COMPLETION_LANE, tool, e) || ClosedLane(NORMAL_CHAT_LANE, tool, e)
  }

  predicate BindingOk(b: Binding) {
    && b.policyVersion != "" && b.tool != "" && b.effect.name != "" && Plain(b.effect.name)
    && (forall p :: p in b.effect.readRoots ==> RootOk(p)) && (forall p :: p in b.effect.writeRoots ==> RootOk(p))
    && NetworkOk(b.tool, b.effect)
    && b.issuedAt <= b.notBefore < b.expiresAt && b.budget.Positive()
  }

  predicate ActionOk(a: Action) {
    a.tool != "" && a.effect.name != "" && NetworkOk(a.tool, a.effect)
  }

  /** The order of strings: by code point, a proper prefix first. */
  predicate Before(a: string, b: string) {
    if b == "" then false
    else if a == "" then true
    else a[0] < b[0] || (a[0] == b[0] && Before(a[1..], b[1..]))
  }

  predicate AudiencesOk(audiences: seq<string>) {
    && audiences != []
    && (forall a :: a in audiences ==> a != "" && Plain(a))
    && (forall i :: 0 < i < |audiences| ==> Before(audiences[i - 1], audiences[i]))
  }

  predicate ActionsOk(digest: Digest, actions: seq<Action>) {
    && actions != []
    && (forall a :: a in actions ==> ActionOk(a))
    && (forall i :: 0 < i < |actions| ==> digest(actions[i - 1]) < digest(actions[i]))
  }

  predicate CeilingOk(digest: Digest, c: Ceiling) {
    c.policyVersion != "" && c.notBefore < c.expiresAt && c.budget.Positive()
    && AudiencesOk(c.audiences) && ActionsOk(digest, c.actions)
  }

  predicate DelegationOk(x: Delegation) {
    x.audience != "" && Plain(x.audience) && 0 < x.depth
  }

  /** A control binds its ceiling; a delegation proof is there exactly when there is a parent. */
  predicate PermitOk(digest: Digest, p: Permit) {
    var b := p.binding;
    && BindingOk(b)
    && (b.parent.Some? <==> p.delegation.Some?) && (p.delegation.Some? ==> DelegationOk(p.delegation.value))
    && match p.purpose
       case Effect => p.ceiling.None?
       case Control =>
         && p.ceiling.Some? && CeilingOk(digest, p.ceiling.value) && p.executables == []
         && var c := p.ceiling.value;
         && c.actor == b.actor && c.policyVersion == b.policyVersion && c.run == b.run
         && b.notBefore <= c.notBefore && c.expiresAt <= b.expiresAt && c.budget == b.budget
  }

  predicate ReportedOk(r: Reported) {
    && (r.errorType.Some? ==> 0 < |r.errorType.value| <= 256 && Plain(r.errorType.value))
    && (r.state == Succeeded ==> r.errorType.None?)
  }

  // ----- the record as a whole -----

  predicate ReceiptsOk(r: Record) {
    && (r.preflight.Some? ==> r.state.Consumed? && r.preflight.value == Preflight(r.permit, r.allocations, r.state.at))
    && (r.outcome.Some? ==>
          && r.preflight.Some? && ReportedOk(r.outcome.value.reported)
          && r.outcome.value.preflight == r.preflight.value
          && r.preflight.value.recordedAt <= r.outcome.value.recordedAt)
  }

  predicate SettlementOk(r: Record, x: Settlement) {
    && r.outcome == Some(x.outcome)
    && x.outcome.reported.state == Succeeded && x.outcome.reported.durationMs <= r.permit.binding.budget.wallTimeMs
    && 0 < x.response.bytes && 0 < x.observation.bytes
    && x.response.bytes + x.observation.bytes <= r.permit.binding.budget.artifactBytes
  }

  predicate RetainedOk(families: map<PermitId, Family>, r: Record, a: Attempt) {
    var b := r.permit.binding;
    && r.state.Consumed? && r.preflight.Some? && r.permit.purpose == Effect
    && ClosedLane(NORMAL_CHAT_LANE, b.tool, b.effect)
    && b.run == a.run && b.argsDigest == a.argsDigest && b.budget.wallTimeMs <= a.wallTimeMs
    && b.issuedAt <= r.state.at && b.notBefore <= r.state.at < b.expiresAt
    && b.parent.Some? && b.parent.value in families
    && var f := families[b.parent.value];
    && a.number in f.attempts && f.attempts[a.number] == Reservation(a.attemptId, IdOf(r.permit))
    && f.operation == a.operation && f.maxAttempts == a.maxAttempts
  }

  /** What every read and every write of a record checks. */
  predicate RecordOk(families: map<PermitId, Family>, r: Record) {
    && ReceiptsOk(r)
    && (r.retained.Some? ==> RetainedOk(families, r, r.retained.value))
    && (r.settlement.Some? ==> r.retained.Some? && SettlementOk(r, r.settlement.value))
  }

  // ----- reading -----

  /** The action digest and how long the two kinds of files are; nothing is assumed about any of them. */
  datatype Format = Format(digest: Digest, record: Record -> nat, families: map<PermitId, Family> -> nat)

  /** A family file that is not there counts as empty. */
  predicate FamiliesLegible(f: Format, families: map<PermitId, Family>) {
    families == map[] || f.families(families) <= MAX_FAMILY_BYTES
  }

  /** `validate_record_bindings`; a retained admission is looked up in the family file. */
  predicate Checked(f: Format, families: map<PermitId, Family>, r: Record) {
    RecordOk(families, r) && (r.retained.Some? ==> FamiliesLegible(f, families))
  }

  /** `read_record`. */
  function Read(f: Format, st: Store, id: PermitId): Option<Record> {
    if id !in st.records then None
    else
      var r := st.records[id];
      if f.record(r) > MAX_RECORD_BYTES || IdOf(r.permit) != id || !Checked(f, st.families, r) then None else Some(r)
  }

  /** Short enough to be read, with the family file if that is needed. */
  predicate Legible(f: Format, families: map<PermitId, Family>, r: Record) {
    f.record(r) <= MAX_RECORD_BYTES && (r.retained.Some? ==> FamiliesLegible(f, families))
  }

  /** `validate_normal_chat_permit_directory`: every record file can be read. */
  predicate Scanned(f: Format, st: Store) {
    forall id :: id in st.records ==> Read(f, st, id).Some?
  }

  // ----- delegation -----

  /** `derive_delegation_identity`. */
  function DelegationFrom(parent: Permit, b: Binding): Option<Delegation> {
    var depth := if parent.delegation.None? then 0 else parent.delegation.value.depth;
    var d := Delegation(parent.binding.actor, b.actor, b.tool, depth + 1);
    if depth >= U32_MAX || !DelegationOk(d) then None else Some(d)
  }

  predicate RootsWithin(a: seq<Path>, b: seq<Path>) {
    forall p :: p in a ==> p in b
  }

  predicate Names(x: Action, b: Binding) {
    x.tool == b.tool && x.actionDigest == b.actionDigest && x.argsDigest == b.argsDigest
  }

  function FirstNamed(actions: seq<Action>, b: Binding): Option<Action> {
    if actions == [] then None
    else if Names(actions[0], b) then Some(actions[0])
    else FirstNamed(actions[1..], b)
  }

  function FirstChat(actions: seq<Action>, e: EffectScope): Option<Action> {
    if actions == [] then None
    else if actions[0].tool == NORMAL_CHAT_LANE && actions[0].effect == e then Some(actions[0])
    else FirstChat(actions[1..], e)
  }

  /** The delegated action an effect falls under; a later chat attempt may differ in its arguments. */
  function ActionFor(c: Ceiling, b: Binding, chatRetry: bool): Option<Action> {
    var exact := FirstNamed(c.actions, b);
    if exact.Some? then exact
    else if chatRetry && ClosedLane(NORMAL_CHAT_LANE, b.tool, b.effect) then FirstChat(c.actions, b.effect)
    else None
  }

  predicate EffectUnder(child: Permit, c: Ceiling, chatRetry: bool) {
    var b := child.binding;
    var action := ActionFor(c, b, chatRetry);
    && action.Some? && c.transition == ControlToEffect && child.ceiling.None? && b.tool in c.audiences
    && b.effect.name == action.value.effect.name && b.effect.network == action.value.effect.network
    && RootsWithin(b.effect.readRoots, action.value.effect.readRoots)
    && RootsWithin(b.effect.writeRoots, action.value.effect.writeRoots)
    && child.executables == action.value.executables
  }

  predicate StrictlyLess(x: Ceiling, c: Ceiling) {
    |x.actions| < |c.actions| || x.budget != c.budget || x.notBefore > c.notBefore || x.expiresAt < c.expiresAt
  }

  predicate ControlUnder(digest: Digest, child: Permit, c: Ceiling) {
    && child.ceiling.Some?
    && var x, b := child.ceiling.value, child.binding;
    && CeilingOk(digest, x)
    && c.transition == ControlToControl && b.tool in c.audiences
    && x.actor == b.actor && x.policyVersion == b.policyVersion && x.run == b.run
    && c.notBefore <= x.notBefore && x.expiresAt <= c.expiresAt && x.budget.Within(c.budget)
    && (forall a :: a in x.actions ==> a in c.actions)
    && (forall t :: t in x.audiences ==> exists a :: a in c.actions && a.tool == t)
    && StrictlyLess(x, c)
  }

  /** What holds of a delegation edge whatever the time. */
  predicate EdgeOk(digest: Digest, child: Permit, parent: Permit, chatRetry: bool) {
    && parent.ceiling.Some? && parent.purpose == Control
    && var c, b, q := parent.ceiling.value, child.binding, parent.binding;
    && child.delegation.Some? && child.delegation == DelegationFrom(parent, b)
    && b.parent == Some(IdOf(parent)) && b.parentOperation == Some(q.run)
    && b.run == q.run == c.run && b.actor == q.actor == c.actor && b.policyVersion == q.policyVersion == c.policyVersion
    && q.notBefore <= b.notBefore && c.notBefore <= b.notBefore
    && b.expiresAt <= q.expiresAt && b.expiresAt <= c.expiresAt && b.budget.Within(c.budget)
    && match child.purpose
       case Effect => EffectUnder(child, c, chatRetry)
       case Control => ControlUnder(digest, child, c)
  }

  lemma EdgeCeiling(digest: Digest, child: Permit, parent: Permit, chatRetry: bool)
    requires EdgeOk(digest, child, parent, chatRetry)
    ensures parent.ceiling.Some? && parent.purpose == Control && child.binding.parent == Some(IdOf(parent))
  {
  }

  /** `validate_parent_permits`. */
  predicate ParentOk(digest: Digest, child: Permit, parent: Record, now: Time, chatRetry: bool) {
    && EdgeOk(digest, child, parent.permit, chatRetry) && parent.state.Issued?
    && parent.permit.binding.notBefore <= now < parent.permit.binding.expiresAt
    && parent.permit.ceiling.value.notBefore <= now < parent.permit.ceiling.value.expiresAt
  }

  // ----- issue -----

  function Amount(d: Dimension): Budget -> nat {
    (b: Budget) => b.At(d)
  }

  ghost function Allocated(allocations: map<PermitId, Budget>, d: Dimension): nat {
    Sum(allocations, Amount(d))
  }

  /** No overflow and no dimension above the ceiling. */
  ghost predicate AllocationsFit(allocations: map<PermitId, Budget>, ceiling: Budget) {
    forall d: Dimension :: Allocated(allocations, d) <= ceiling.At(d)
  }

  predicate LeaseOk(b: Binding, now: Time) {
    b.issuedAt <= now && b.notBefore <= now < b.expiresAt <= now + MAX_LIVE_LEASE
  }

  /** The family map after the reservation of an attempt. */
  function ReserveAttempt(families: map<PermitId, Family>, parent: PermitId, a: Attempt, permit: PermitId): Option<map<PermitId, Family>> {
    if a.number == 0 || a.number > a.maxAttempts then None
    else
      var f := if parent in families then families[parent] else Family(a.operation, a.maxAttempts, map[]);
      if f.operation != a.operation || f.maxAttempts != a.maxAttempts then None
      else if a.number in f.attempts then
        if f.attempts[a.number] == Reservation(a.attemptId, permit) then Some(families) else None
      else if |f.attempts| >= f.maxAttempts then None
      else Some(families[parent := f.(attempts := f.attempts[a.number := Reservation(a.attemptId, permit)])])
  }

  /** `reserve_normal_chat_attempt`. */
  function Reserved(f: Format, st: Store, parent: PermitId, a: Attempt, permit: PermitId): Option<map<PermitId, Family>> {
    if !Scanned(f, st) || !FamiliesLegible(f, st.families) then None else ReserveAttempt(st.families, parent, a, permit)
  }

  /** What a successful issue writes, in the order in which it writes it. */
  datatype Plan = Plan(permit: Permit, families: map<PermitId, Family>, parent: Option<Record>)

  datatype Draft = Draft(
    binding: Binding, purpose: Purpose, ceiling: Option<Ceiling>, executables: seq<Id>, attempt: Option<Attempt>)

  function DelegationFor(f: Format, st: Store, b: Binding): Option<Option<Delegation>> {
    if b.parent.None? then Some(None)
    else
      var parent := Read(f, st, b.parent.value);
      if parent.None? then None
      else
        var d := DelegationFrom(parent.value.permit, b);
        if d.None? then None else Some(d)
  }

  ghost function PlanChild(f: Format, st: Store, permit: Permit, attempt: Option<Attempt>, now: Time): Option<Plan>
    requires permit.binding.parent.Some? && Read(f, st, permit.binding.parent.value).Some?
  {
    var parent := Read(f, st, permit.binding.parent.value).value;
    var id := IdOf(permit);
    if !ParentOk(f.digest, permit, parent, now, attempt.Some?) then None
    else if id in parent.allocations && parent.allocations[id] != permit.binding.budget then None
    else
      var allocations := parent.allocations[id := permit.binding.budget];
      if !AllocationsFit(allocations, parent.permit.ceiling.value.budget) then None
      else
        var families := if attempt.None? then Some(st.families)
                        else Reserved(f, st, permit.binding.parent.value, attempt.value, id);
        if families.None? then None
        else Some(Plan(permit, families.value, Some(parent.(allocations := allocations))))
  }

  lemma PlannedPermit(f: Format, st: Store, permit: Permit, attempt: Option<Attempt>, now: Time)
    requires permit.binding.parent.Some? && Read(f, st, permit.binding.parent.value).Some?
    ensures var plan := PlanChild(f, st, permit, attempt, now);
            plan.Some? ==> plan.value.permit == permit && plan.value.parent.Some?
  {
  }

  ghost function PlanIssue(f: Format, st: Store, x: Draft, now: Time): Option<Plan> {
    if !BindingOk(x.binding) || (x.ceiling.Some? && !CeilingOk(f.digest, x.ceiling.value)) || !LeaseOk(x.binding, now) then None
    else
      var delegation := DelegationFor(f, st, x.binding);
      if delegation.None? then None
      else
        var permit := Permit(x.binding, x.purpose, x.ceiling, delegation.value, x.executables);
        if !PermitOk(f.digest, permit) then None
        else if IdOf(permit) in st.records && Read(f, st, IdOf(permit)) != Some(Blank(permit)) then None
        else if x.binding.parent.None? then Some(Plan(permit, st.families, None))
        else PlanChild(f, st, permit, x.attempt, now)
  }

  /** How far an issue gets before the process dies. */
  datatype Crash = NoCrash | AfterFamily | AfterParent

  function Carry(st: Store, plan: Plan, crash: Crash): Store {
    var reserved := st.(families := plan.families);
    if crash == AfterFamily then reserved
    else
      var charged :=
        if plan.parent.None? then reserved
        else reserved.(records := reserved.records[IdOf(plan.parent.value.permit) := plan.parent.value]);
      if crash == AfterParent then charged
      else if IdOf(plan.permit) in st.records then charged
      else charged.(records := charged.records[IdOf(plan.permit) := Blank(plan.permit)])
  }

  // ----- use -----

  predicate DispatchOk(r: Record, dispatch: Binding, now: Time) {
    && r.state.Issued? && r.permit.binding.notBefore <= now < r.permit.binding.expiresAt
    && dispatch.(budget := r.permit.binding.budget) == r.permit.binding
    && dispatch.budget.Within(r.permit.binding.budget)
  }

  predicate ParentAllows(f: Format, st: Store, p: Permit, now: Time, chatRetry: bool) {
    p.binding.parent.Some? ==>
      && var parent := Read(f, st, p.binding.parent.value);
      parent.Some? && ParentOk(f.digest, p, parent.value, now, chatRetry)
  }

  /** The record a consumption writes, if it is allowed. */
  function ConsumePlain(f: Format, st: Store, id: PermitId, dispatch: Binding, now: Time): Option<Record> {
    if !BindingOk(dispatch) || Read(f, st, id).None? then None
    else
      var r := Read(f, st, id).value;
      if r.permit.binding.tool == NORMAL_CHAT_LANE || !DispatchOk(r, dispatch, now)
         || !ParentAllows(f, st, r.permit, now, false) then None
      else Some(r.(state := Consumed(now)))
  }

  function ConsumeRecorded(f: Format, st: Store, id: PermitId, dispatch: Binding, now: Time, finalNow: Time): Option<Record> {
    if ConsumePlain(f, st, id, dispatch, now).None? || finalNow < now then None
    else
      var r := ConsumePlain(f, st, id, dispatch, finalNow);
      if r.None? then None
      else Some(r.value.(preflight := Some(Preflight(r.value.permit, r.value.allocations, finalNow))))
  }

  /** `admitted`: the current chat policy and the exact call agree with the permit. */
  function ConsumeChat(f: Format, st: Store, id: PermitId, a: Attempt, admitted: bool, now: Time, finalNow: Time): Option<Record> {
    if Read(f, st, id).None? then None
    else
      var r := Read(f, st, id).value;
      if !DispatchOk(r, r.permit.binding, now) || !admitted || r.permit.purpose != Effect then None
      else if finalNow < now || finalNow >= a.expiresAt || !DispatchOk(r, r.permit.binding, finalNow)
              || !ParentAllows(f, st, r.permit, finalNow, true) then None
      else Some(r.(state := Consumed(finalNow),
                   preflight := Some(Preflight(r.permit, r.allocations, finalNow)), retained := Some(a)))
  }

  function RevokeRecord(f: Format, st: Store, id: PermitId, reason: RevocationReason, now: Time): Option<Record> {
    var r := Read(f, st, id);
    if r.None? || now < r.value.permit.binding.issuedAt || !r.value.state.Issued? then None
    else Some(r.value.(state := Revoked(now, reason)))
  }

  datatype Change = Refuse | Keep(stored: Record) | Write(record: Record)

  function ReportOutcome(f: Format, st: Store, id: PermitId, preflight: Preflight, reported: Reported, now: Time): Change {
    if !ReportedOk(reported) || Read(f, st, id).None? then Refuse
    else
      var r := Read(f, st, id).value;
      if r.preflight.None? || r.preflight.value != preflight || now < preflight.recordedAt then Refuse
      else if r.outcome.Some? then (if r.outcome.value.reported == reported then Keep(r) else Refuse)
      else Write(r.(outcome := Some(Outcome(preflight, reported, now))))
  }

  function SettleChat(f: Format, st: Store, id: PermitId, preflight: Preflight, response: Document, observation: Document): Change {
    if Read(f, st, id).None? then Refuse
    else
      var r := Read(f, st, id).value;
      if r.preflight.None? || r.preflight.value != preflight || r.outcome.None? then Refuse
      else
        var proposed := Settlement(r.outcome.value, response, observation);
        if r.settlement.Some? then (if r.settlement.value == proposed then Keep(r) else Refuse)
        else Write(r.(settlement := Some(proposed)))
  }

  // ----- runs -----

  datatype Stage = TempWrite | TempFsync | Rename | DirectoryFsync

  datatype Op =
    | DoIssue(draft: Draft, now: Time, crash: Crash)
    | DoConsume(id: PermitId, dispatch: Binding, at: Time, stage: Option<Stage>)
    | DoConsumeRecorded(recorded: PermitId, exact: Binding, from: Time, upTo: Time)
    | DoConsumeChat(chat: PermitId, attempt: Attempt, admitted: bool, start: Time, end: Time)
    | DoRevoke(revoked: PermitId, reason: RevocationReason, when: Time, cut: Option<Stage>)
    | DoReport(reportedOn: PermitId, preflight: Preflight, reported: Reported, reportedAt: Time)
    | DoSettle(settled: PermitId, consumption: Preflight, response: Document, observation: Document)

  /** A call returns the record it acted on, is refused, or is cut short. */
  datatype Reply = Returned(record: Record) | Denied | Died

  predicate Durable(stage: Option<Stage>) {
    !(stage.Some? && (stage.value.TempWrite? || stage.value.TempFsync?))
  }

  /** Replace a record: checked first, there from the rename on, whatever its size. */
  function Replace(f: Format, st: Store, record: Option<Record>, stage: Option<Stage>): (Store, Reply) {
    if record.None? || !Checked(f, st.families, record.value) then (st, Denied)
    else (if Durable(stage) then st.(records := st.records[IdOf(record.value.permit) := record.value]) else st,
          if stage.Some? then Died else Returned(record.value))
  }

  function Commit(f: Format, st: Store, change: Change): (Store, Reply) {
    match change
    case Refuse => (st, Denied)
    case Keep(r) => (st, Returned(r))
    case Write(r) => Replace(f, st, Some(r), None)
  }

  ghost function StepReply(f: Format, st: Store, op: Op): (Store, Reply) {
    match op
    case DoIssue(x, now, crash) =>
      var plan := PlanIssue(f, st, x, now);
      if plan.None? then (st, Denied)
      else (Carry(st, plan.value, crash), if crash.NoCrash? then Returned(Blank(plan.value.permit)) else Died)
    case DoConsume(id, dispatch, now, stage) => Replace(f, st, ConsumePlain(f, st, id, dispatch, now), stage)
    case DoConsumeRecorded(id, dispatch, now, fin) => Replace(f, st, ConsumeRecorded(f, st, id, dispatch, now, fin), None)
    case DoConsumeChat(id, a, admitted, now, fin) => Replace(f, st, ConsumeChat(f, st, id, a, admitted, now, fin), None)
    case DoRevoke(id, reason, now, stage) => Replace(f, st, RevokeRecord(f, st, id, reason, now), stage)
    case DoReport(id, preflight, reported, now) => Commit(f, st, ReportOutcome(f, st, id, preflight, reported, now))
    case DoSettle(id, preflight, response, observation) => Commit(f, st, SettleChat(f, st, id, preflight, response, observation))
  }

  ghost predicate IsRun(f: Format, trace: seq<Store>, ops: seq<Op>) {
    && |trace| == |ops| + 1 && trace[0] == EMPTY
    && forall i :: 0 <= i < |ops| ==> trace[i + 1] == StepReply(f, trace[i], ops[i]).0
  }
}
