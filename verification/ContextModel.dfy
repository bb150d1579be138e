/**
 * Scoped context authority: the durable projection, the operations that maintain
 * it incrementally, and the validator that recomputes it from the journal.
 *
 * A content digest is modelled by the value it is taken of: a grant names its
 * predecessor by containing it, a receipt is its own digest, a permit its own id.
 * A signature carries the set of keys it verifies under.
 */
module ContextModel {
  import opened Common

  type Id = string
  type Key = string
  type Time = int

  const MAX_PERMITS := 1024
  const MAX_TRANSITIONS := 4096
  const MAX_SCOPES := 256
  const MAX_IDENTIFIER := 256
  const MAX_STATE_BYTES: nat := 32 * 1024 * 1024
  const I64_MAX: nat := 0x7fff_ffff_ffff_ffff

  datatype Scope = Scope(store: Id, profile: string, root: string)

  datatype Mode = Sealed | Active

  datatype Head = Head(context: string, generation: U64, mode: Mode)

  datatype Grant = Grant(
    scope: Scope, controllerKey: Key, keyWellFormed: bool, actor: Id, policyVersion: string, policyDigest: Id,
    writeRoot: Path, initialHead: Head, notBefore: Time, expiresAt: Time,
    maxEffects: U64, maxTransitions: U64, previous: Option<Grant>)

  /** The approval verifier of an enrollment, named by its digest. */
  type Verifier = string

  datatype Configuration = Configuration(incarnation: Id, revision: U64, verifier: Verifier, grants: seq<Grant>)

  /** Startup capability handed out by enrollment. */
  datatype Access = Access(incarnation: Id, configuration: Configuration)

  datatype Binding = Binding(incarnation: Id, scope: Scope, grant: Grant, policyDigest: Id, head: Head)

  datatype Signature = Signature(bytes: string, validFor: set<Key>)

  datatype Call = Call(tool: string, args: string)

  datatype Budget = Budget(wallTimeMs: U64, outputBytes: U64, artifactBytes: U64)

  /** Everything an effect approval binds except its absolute times. */
  datatype Subject = Subject(
    approval: string, call: Call, actor: Id, policyVersion: string, writeRoots: seq<Path>, budget: Budget)

  datatype Effect = Effect(subject: Subject, issuedAt: Time, notBefore: Time, expiresAt: Time)

  /** The id of an effect approval: its subject and the two requested durations. */
  datatype ApprovalId = ApprovalId(subject: Subject, delay: int, validity: int)

  function ApprovalOf(e: Effect): ApprovalId {
    ApprovalId(e.subject, e.notBefore - e.issuedAt, e.expiresAt - e.notBefore)
  }

  /** `acceptedBy`: the verifiers whose clock-independent checks the witness passes. */
  datatype Witness = Witness(effect: Effect, acceptedBy: set<Verifier>)

  datatype ContextCall = ContextCall(authority: Binding, witnessed: Witness, signature: Signature)

  datatype Permit = Permit(effect: Effect, verifier: Verifier, context: ContextCall)

  datatype Preflight = Preflight(permit: Permit, recordedAt: Time)

  datatype ReportedState = Succeeded | Failed | OutcomeAmbiguous

  datatype Reported = Reported(state: ReportedState, durationMs: U64, errorType: Option<string>)

  datatype Outcome = Outcome(permit: Permit, preflight: Preflight, reported: Reported, recordedAt: Time)

  datatype Record = Record(preflight: Option<Preflight>, outcome: Option<Outcome>)

  datatype Obligation = Obligation(preflight: Preflight, outcome: Option<Outcome>, reported: Option<ReportedState>)

  datatype Action = Retire(successor: string) | Activate(retirement: Receipt)

  datatype Request = Request(authority: Binding, transition: Id, action: Action, signature: Signature)

  datatype Receipt = Receipt(request: Request, successor: Head, consumed: map<Permit, Obligation>, recordedAt: Time)

  datatype ScopeState = ScopeState(
    grant: Grant, head: Head, active: bool, effects: nat, transitions: nat, retirement: Option<Receipt>)

  datatype Event = Enrollment(configuration: Configuration) | Transition(key: Id)

  datatype Authority = Authority(
    journal: seq<Event>, incarnation: Id, configuration: Option<Configuration>, scopes: map<Scope, ScopeState>,
    permits: map<Permit, Record>, approvals: map<ApprovalId, Permit>, receipts: map<Id, Receipt>)

  function Initialized(incarnation: Id): Authority {
    Authority([], incarnation, None, map[], map[], map[], map[])
  }

  // ----- shape checks -----

  predicate Identifier(s: string) {
    0 < |s| <= MAX_IDENTIFIER && Plain(s)
  }

  predicate HeadOk(h: Head) {
    Identifier(h.context) && 0 < h.generation <= I64_MAX
  }

  predicate GrantOk(g: Grant) {
    && Identifier(g.scope.profile) && Identifier(g.scope.root) && Identifier(g.policyVersion)
    && HeadOk(g.initialHead) && g.keyWellFormed
    && g.notBefore < g.expiresAt
    && 0 < g.maxEffects <= MAX_PERMITS && 0 < g.maxTransitions <= MAX_TRANSITIONS
    && g.writeRoot.absolute && g.writeRoot.parts != [] && ".." !in g.writeRoot.parts
  }

  /** The validation of an effect binding; the approval verifier does not make it. */
  predicate EffectOk(e: Effect) {
    && e.subject.policyVersion != "" && e.subject.call.tool != "" && e.subject.approval != "" && Plain(e.subject.approval)
    && (forall p :: p in e.subject.writeRoots ==> RootOk(p))
    && e.issuedAt <= e.notBefore < e.expiresAt
    && 0 < e.subject.budget.wallTimeMs && 0 < e.subject.budget.outputBytes && 0 < e.subject.budget.artifactBytes
  }

  predicate ReportedOk(r: Reported) {
    && (r.errorType.Some? ==> Identifier(r.errorType.value))
    && (r.state == Succeeded ==> r.errorType.None?)
  }

  // ----- queries -----

  predicate HasAccess(s: Authority, access: Access) {
    s.configuration.Some? && s.incarnation == access.incarnation && s.configuration.value == access.configuration
  }

  /** What `current` demands apart from the clock. */
  predicate Standing(incarnation: Id, scopes: map<Scope, ScopeState>, b: Binding) {
    && HeadOk(b.head) && b.scope in scopes
    && var x := scopes[b.scope];
    && incarnation == b.incarnation && x.active && x.grant.scope == b.scope && x.grant == b.grant
    && x.grant.policyDigest == b.policyDigest && x.head == b.head
  }

  predicate Current(incarnation: Id, scopes: map<Scope, ScopeState>, b: Binding, now: Time) {
    Standing(incarnation, scopes, b) && b.grant.notBefore <= now < b.grant.expiresAt
  }

  function ScopeOf(p: Permit): Scope {
    p.context.authority.scope
  }

  function GenerationOf(p: Permit): U64 {
    p.context.authority.head.generation
  }

  function PermitsIn(permits: map<Permit, Record>, scope: Scope): set<Permit> {
    set p | p in permits && ScopeOf(p) == scope
  }

  function ReceiptsIn(receipts: map<Id, Receipt>, scope: Scope): set<Id> {
    set k | k in receipts && receipts[k].request.authority.scope == scope
  }

  function ConsumedIn(permits: map<Permit, Record>, scope: Scope): set<Permit> {
    set p | p in permits && ScopeOf(p) == scope && permits[p].preflight.Some?
  }

  function ObligationOf(r: Record): Obligation
    requires r.preflight.Some?
  {
    Obligation(r.preflight.value, r.outcome, if r.outcome.Some? then Some(r.outcome.value.reported.state) else None)
  }

  function Consumed(permits: map<Permit, Record>, scope: Scope): map<Permit, Obligation> {
    map p | p in ConsumedIn(permits, scope) :: ObligationOf(permits[p])
  }

  // ----- enrollment -----

  function ApplyGrant(scopes: map<Scope, ScopeState>, g: Grant): Option<map<Scope, ScopeState>> {
    if !GrantOk(g) then None
    else if g.scope in scopes then
      var held := scopes[g.scope];
      if held.grant != g then
        if g.previous != Some(held.grant) || g.initialHead != held.head
           || g.maxEffects > held.grant.maxEffects || g.maxTransitions > held.grant.maxTransitions
           || g.writeRoot != held.grant.writeRoot || g.actor != held.grant.actor then None
        else Some(scopes[g.scope := held.(grant := g, active := true)])
      else if !held.active then None
      else Some(scopes)
    else if g.previous.Some? || |scopes| >= MAX_SCOPES then None
    else Some(scopes[g.scope := ScopeState(g, g.initialHead, true, 0, 0, None)])
  }

  /** The loop over the grants; a scope may be granted only once. */
  function ApplyGrants(scopes: map<Scope, ScopeState>, grants: seq<Grant>, admitted: set<Scope>): Option<map<Scope, ScopeState>>
    decreases |grants|
  {
    if grants == [] then Some(scopes)
    else if grants[0].scope in admitted then None
    else
      var next := ApplyGrant(scopes, grants[0]);
      if next.None? then None else ApplyGrants(next.value, grants[1..], admitted + {grants[0].scope})
  }

  function GrantScopes(grants: seq<Grant>): set<Scope> {
    set g | g in grants :: g.scope
  }

  /** Scopes the configuration does not name are revoked. */
  function Revoke(scopes: map<Scope, ScopeState>, kept: set<Scope>): map<Scope, ScopeState> {
    map k | k in scopes :: if k in kept then scopes[k] else scopes[k].(active := false)
  }

  function ApplyConfiguration(incarnation: Id, held: Option<Configuration>, scopes: map<Scope, ScopeState>,
                              c: Configuration): Option<map<Scope, ScopeState>>
  {
    if c.incarnation != incarnation || c.revision == 0 || |c.grants| > MAX_SCOPES
       || (held.Some? && c.revision <= held.value.revision) then None
    else
      var applied := ApplyGrants(scopes, c.grants, {});
      if applied.None? then None else Some(Revoke(applied.value, GrantScopes(c.grants)))
  }

  // ----- operations -----

  datatype Attempt<T> = Refused | Kept(value: T) | Written(next: Authority, value: T)

  function Enroll(s: Authority, c: Configuration): Attempt<Access> {
    if c.incarnation != s.incarnation || c.revision == 0 || |c.grants| > MAX_SCOPES then Refused
    else if s.configuration == Some(c) then Kept(Access(s.incarnation, c))
    else if s.configuration.Some? && c.revision <= s.configuration.value.revision then Refused
    else
      var scopes := ApplyConfiguration(s.incarnation, s.configuration, s.scopes, c);
      if scopes.None? then Refused
      else Written(s.(scopes := scopes.value, configuration := Some(c), journal := s.journal + [Enrollment(c)]),
                   Access(s.incarnation, c))
  }

  predicate WitnessOk(verifier: Verifier, w: Witness, now: Time) {
    && verifier in w.acceptedBy
    && w.effect.issuedAt <= w.effect.notBefore < w.effect.expiresAt
    && w.effect.notBefore <= now < w.effect.expiresAt
  }

  /** The effect stays inside what the operator enrolled. */
  predicate InGrant(g: Grant, e: Effect) {
    && e.subject.actor == g.actor && e.subject.policyVersion == g.policyVersion
    && e.subject.writeRoots == [g.writeRoot] && e.expiresAt <= g.expiresAt
  }

  /** `legacy` holds the approvals already recorded by the unscoped permit namespace. */
  function Issue(s: Authority, access: Access, verifier: Verifier, w: Witness, context: ContextCall,
                 now: Time, finalNow: Time, legacy: set<ApprovalId>): Attempt<Permit>
  {
    if !HasAccess(s, access) || s.configuration.value.verifier != verifier then Refused
    else if !Current(s.incarnation, s.scopes, context.authority, now) then Refused
    else
      var scope := s.scopes[context.authority.scope];
      if scope.grant.controllerKey !in context.signature.validFor then Refused
      else if context.witnessed != w || scope.head.mode != Active then Refused
      else if !WitnessOk(verifier, w, now) || !InGrant(scope.grant, w.effect) then Refused
      else
        var permit := Permit(w.effect, verifier, context);
        var approval := ApprovalOf(w.effect);
        if approval in s.approvals then
          if s.approvals[approval] in s.permits && s.approvals[approval] == permit then Kept(permit) else Refused
        else if approval in legacy then Refused
        else if scope.effects >= scope.grant.maxEffects || |s.permits| >= MAX_PERMITS then Refused
        else if finalNow < now || !Current(s.incarnation, s.scopes, context.authority, finalNow)
                || !WitnessOk(verifier, w, finalNow) then Refused
        else Written(
          s.(scopes := s.scopes[context.authority.scope := scope.(effects := scope.effects + 1)],
             approvals := s.approvals[approval := permit],
             permits := s.permits[permit := Record(None, None)]),
          permit)
  }

  function Consume(s: Authority, access: Access, verifier: Verifier, permit: Permit, call: Call,
                   now: Time, finalNow: Time): Attempt<Preflight>
  {
    var b := permit.context.authority;
    if !HasAccess(s, access) || s.configuration.value.verifier != verifier then Refused
    else if !Current(s.incarnation, s.scopes, b, now) then Refused
    else
      var scope := s.scopes[b.scope];
      if scope.grant.controllerKey !in permit.context.signature.validFor then Refused
      else if permit !in s.permits then Refused
      else if permit.verifier != verifier || s.permits[permit].preflight.Some? || scope.head.mode != Active then Refused
      else if permit.effect.subject.call != call || permit.effect.subject.policyVersion != scope.grant.policyVersion
              || permit.effect.subject.actor != scope.grant.actor then Refused
      else if !Current(s.incarnation, s.scopes, b, finalNow) then Refused
      else if finalNow < now || finalNow < permit.effect.notBefore || finalNow >= permit.effect.expiresAt then Refused
      else
        var preflight := Preflight(permit, finalNow);
        Written(s.(permits := s.permits[permit := s.permits[permit].(preflight := Some(preflight))]), preflight)
  }

  /** The head a transition leads to, if it may be taken. */
  function Successor(scope: ScopeState, action: Action): Option<Head> {
    match action
    case Retire(context) =>
      if scope.head.generation >= U64_MAX then None
      else Some(Head(context, scope.head.generation + 1, Sealed))
    case Activate(retirement) =>
      if scope.head.mode != Sealed || scope.retirement != Some(retirement) then None
      else Some(scope.head.(mode := Active))
  }

  function Moved(scope: ScopeState, receipt: Receipt): ScopeState {
    scope.(
      head := receipt.successor, transitions := scope.transitions + 1,
      retirement := if receipt.request.action.Retire? then Some(receipt) else scope.retirement)
  }

  function Transit(s: Authority, access: Access, request: Request, now: Time, finalNow: Time): Attempt<Receipt> {
    var b := request.authority;
    if !HasAccess(s, access) then Refused
    else if request.transition in s.receipts then
      if s.receipts[request.transition].request == request then Kept(s.receipts[request.transition]) else Refused
    else if !Current(s.incarnation, s.scopes, b, now) then Refused
    else
      var scope := s.scopes[b.scope];
      if scope.grant.controllerKey !in request.signature.validFor then Refused
      else if scope.transitions >= scope.grant.maxTransitions || |s.receipts| >= MAX_TRANSITIONS then Refused
      else
        var successor := Successor(scope, request.action);
        if successor.None? || (request.action.Retire? && !Identifier(request.action.successor)) then Refused
        else if !HeadOk(successor.value) then Refused
        else if finalNow < now || !Current(s.incarnation, s.scopes, b, finalNow) then Refused
        else
          var receipt := Receipt(request, successor.value, Consumed(s.permits, b.scope), finalNow);
          Written(
            s.(scopes := s.scopes[b.scope := Moved(scope, receipt)],
               receipts := s.receipts[request.transition := receipt],
               journal := s.journal + [Transition(request.transition)]),
            receipt)
  }

  function Settle(s: Authority, permit: Permit, preflight: Preflight, reported: Reported, now: Time): Attempt<Outcome> {
    if !ReportedOk(reported) || permit !in s.permits then Refused
    else
      var r := s.permits[permit];
      if r.preflight.None? || r.preflight.value != preflight || now < r.preflight.value.recordedAt then Refused
      else if r.outcome.Some? then
        if r.outcome.value.reported == reported then Kept(r.outcome.value) else Refused
      else
        var outcome := Outcome(permit, preflight, reported, now);
        Written(s.(permits := s.permits[permit := r.(outcome := Some(outcome))]), outcome)
  }

  // ----- the validator -----

  datatype Replay = Replay(
    configuration: Option<Configuration>, scopes: map<Scope, ScopeState>, seen: set<Id>,
    grants: set<Grant>, admitted: set<(Binding, Verifier)>)

  const EMPTY := Replay(None, map[], {}, {}, {})

  predicate Open(x: ScopeState) {
    x.active && x.head.mode == Active
  }

  function BindingOf(incarnation: Id, x: ScopeState): Binding {
    Binding(incarnation, x.grant.scope, x.grant, x.grant.policyDigest, x.head)
  }

  /** The heads under which effects may be issued right now. */
  function Admissions(incarnation: Id, scopes: map<Scope, ScopeState>, verifier: Verifier): set<(Binding, Verifier)> {
    set k | k in scopes && Open(scopes[k]) :: (BindingOf(incarnation, scopes[k]), verifier)
  }

  predicate AnyOpen(scopes: map<Scope, ScopeState>) {
    exists k :: k in scopes && Open(scopes[k])
  }

  /** A receipt lists exactly what was consumed below its successor, as it stood then. */
  predicate ObligationsOk(permits: map<Permit, Record>, receipt: Receipt) {
    && receipt.consumed.Keys ==
         (set p | p in permits && ScopeOf(p) == receipt.request.authority.scope && permits[p].preflight.Some?
                  && GenerationOf(p) < receipt.successor.generation)
    && forall p :: p in receipt.consumed ==>
         && p in permits && permits[p].preflight.Some?
         && ObligationOk(permits[p], receipt.consumed[p], receipt.recordedAt)
  }

  predicate ObligationOk(r: Record, o: Obligation, recordedAt: Time)
    requires r.preflight.Some?
  {
    && o.preflight == r.preflight.value && r.preflight.value.recordedAt <= recordedAt
    && (o.outcome.Some? <==> o.reported.Some?)
    && (o.outcome.Some? ==>
          r.outcome == o.outcome && Some(o.outcome.value.reported.state) == o.reported
          && o.outcome.value.recordedAt <= recordedAt)
  }

  function ReplayEnrollment(incarnation: Id, r: Replay, c: Configuration): Option<Replay> {
    var scopes := ApplyConfiguration(incarnation, r.configuration, r.scopes, c);
    if scopes.None? then None
    else Some(r.(configuration := Some(c), scopes := scopes.value, grants := r.grants + (set g | g in c.grants)))
  }

  function ReplayTransition(incarnation: Id, receipts: map<Id, Receipt>, r: Replay, key: Id): Option<Replay> {
    if key in r.seen || key !in receipts then None
    else
      var receipt := receipts[key];
      var b := receipt.request.authority;
      if !Current(incarnation, r.scopes, b, receipt.recordedAt) then None
      else
        var scope := r.scopes[b.scope];
        if scope.grant.controllerKey !in receipt.request.signature.validFor
           || scope.transitions >= scope.grant.maxTransitions
           || Successor(scope, receipt.request.action) != Some(receipt.successor) then None
        else Some(r.(seen := r.seen + {key}, scopes := r.scopes[b.scope := Moved(scope, receipt)]))
  }

  /** After each event, note the heads that are open. */
  function NoteAdmissions(incarnation: Id, r: Replay): Option<Replay> {
    if r.configuration.None? then
      if AnyOpen(r.scopes) then None else Some(r)
    else Some(r.(admitted := r.admitted + Admissions(incarnation, r.scopes, r.configuration.value.verifier)))
  }

  function ReplayEvent(s: Authority, r: Replay, event: Event): Option<Replay> {
    var next :=
      match event
      case Enrollment(c) => ReplayEnrollment(s.incarnation, r, c)
      case Transition(key) =>
        var moved := ReplayTransition(s.incarnation, s.receipts, r, key);
        if moved.Some? && key in s.receipts && ObligationsOk(s.permits, s.receipts[key]) then moved else None;
    if next.None? then None else NoteAdmissions(s.incarnation, next.value)
  }

  function ReplayAll(s: Authority, events: seq<Event>): Option<Replay> {
    if events == [] then Some(EMPTY)
    else
      var before := ReplayAll(s, events[..|events| - 1]);
      if before.None? then None else ReplayEvent(s, before.value, events[|events| - 1])
  }

  /** What the replay must have seen for a permit to be in the store. */
  predicate PermitGranted(r: Replay, p: Permit) {
    var b := p.context.authority;
    && b.grant in r.grants && (b, p.verifier) in r.admitted
    && b.grant.scope == b.scope && b.grant.policyDigest == b.policyDigest
    && InGrant(b.grant, p.effect) && b.grant.controllerKey in p.context.signature.validFor
  }

  predicate Projected(s: Authority, r: Replay) {
    && |r.seen| == |s.receipts| && r.configuration == s.configuration && |r.scopes| == |s.scopes|
    && (forall k :: k in s.scopes ==>
          k in r.scopes && r.scopes[k].(effects := |PermitsIn(s.permits, s.scopes[k].grant.scope)|) == s.scopes[k])
    && (forall p :: p in s.permits ==> PermitGranted(r, p))
  }

  predicate ValidHistory(s: Authority) {
    && |s.journal| <= 2 * MAX_TRANSITIONS
    && var r := ReplayAll(s, s.journal);
    && r.Some? && Projected(s, r.value)
  }

  predicate ScopeOk(s: Authority, k: Scope)
    requires k in s.scopes
  {
    var x := s.scopes[k];
    && GrantOk(x.grant) && HeadOk(x.head) && x.grant.scope == k
    && x.effects == |PermitsIn(s.permits, x.grant.scope)| && x.transitions == |ReceiptsIn(s.receipts, x.grant.scope)|
  }

  predicate RecordOk(p: Permit, r: Record) {
    && (r.preflight.Some? ==>
          r.preflight.value.permit == p && p.effect.notBefore <= r.preflight.value.recordedAt < p.effect.expiresAt)
    && (r.outcome.Some? ==>
          && r.preflight.Some? && ReportedOk(r.outcome.value.reported)
          && r.outcome.value.permit == p && r.outcome.value.preflight == r.preflight.value
          && r.preflight.value.recordedAt <= r.outcome.value.recordedAt)
  }

  predicate PermitOk(s: Authority, p: Permit)
    requires p in s.permits
  {
    && EffectOk(p.effect)
    && ApprovalOf(p.effect) in s.approvals && s.approvals[ApprovalOf(p.effect)] == p
    && p.context.authority.incarnation == s.incarnation && ScopeOf(p) in s.scopes
    && RecordOk(p, s.permits[p])
  }

  /** The whole check made before every write and after every read. */
  predicate ValidState(s: Authority) {
    && ValidHistory(s)
    && |s.scopes| <= MAX_SCOPES && |s.permits| <= MAX_PERMITS && |s.receipts| <= MAX_TRANSITIONS
    && |s.approvals| == |s.permits|
    && (forall k :: k in s.scopes ==> ScopeOk(s, k))
    && (forall p :: p in s.permits ==> PermitOk(s, p))
    && (forall k :: k in s.receipts ==> s.receipts[k].request.transition == k)
  }

  // ----- runs -----

  /** Where a durable replacement may be cut short. */
  datatype Stage = TempWrite | TempFsync | Rename | DirectoryFsync

  datatype Op =
    | DoEnroll(configuration: Configuration)
    | DoIssue(access: Access, verifier: Verifier, presented: Witness, context: ContextCall,
              now: Time, finalNow: Time, legacy: set<ApprovalId>)
    | DoConsume(consumer: Access, checker: Verifier, permit: Permit, call: Call, from: Time, upTo: Time)
    | DoTransit(mover: Access, request: Request, start: Time, end: Time, interrupted: Option<Stage>)
    | DoSettle(settled: Permit, preflight: Preflight, reported: Reported, at: Time)

  datatype Reply =
    | Denied
    | Enrolled(access: Access)
    | Issued(permit: Permit)
    | Preflighted(preflight: Preflight)
    | Transited(receipt: Receipt)
    | Settled(outcome: Outcome)
    | Interrupted(stage: Stage)

  /** What the operation would write if its own checks pass. */
  function Candidate(s: Authority, op: Op): Option<Authority> {
    match op
    case DoEnroll(c) => var a := Enroll(s, c); if a.Written? then Some(a.next) else None
    case DoIssue(access, v, w, x, now, fin, legacy) =>
      var a := Issue(s, access, v, w, x, now, fin, legacy); if a.Written? then Some(a.next) else None
    case DoConsume(access, v, p, call, now, fin) =>
      var a := Consume(s, access, v, p, call, now, fin); if a.Written? then Some(a.next) else None
    case DoTransit(access, request, now, fin, _) =>
      var a := Transit(s, access, request, now, fin); if a.Written? then Some(a.next) else None
    case DoSettle(p, f, reported, now) =>
      var a := Settle(s, p, f, reported, now); if a.Written? then Some(a.next) else None
  }

  /** The new file is visible once the rename has happened. */
  predicate Durable(op: Op) {
    !(op.DoTransit? && op.interrupted.Some? && (op.interrupted.value.TempWrite? || op.interrupted.value.TempFsync?))
  }

  /** How long the state file is; nothing is assumed about it. */
  type Size = Authority -> nat

  /** `replace_context_state` goes on to write: the validator accepts, and the file is short enough. */
  predicate Writable(size: Size, s: Authority) {
    ValidState(s) && size(s) <= MAX_STATE_BYTES
  }

  /** Only a writable candidate is written, and only from the rename on is it there. */
  function Step(size: Size, s: Authority, op: Op): Authority {
    var c := Candidate(s, op);
    if c.Some? && Writable(size, c.value) && Durable(op) then c.value else s
  }

  function Answer<T>(size: Size, a: Attempt<T>, ok: T -> Reply, interrupted: Option<Stage>): Reply {
    match a
    case Refused => Denied
    case Kept(value) => ok(value)
    case Written(next, value) =>
      if !Writable(size, next) then Denied
      else if interrupted.Some? then Interrupted(interrupted.value)
      else ok(value)
  }

  /** What the caller is told. */
  function ReplyTo(size: Size, s: Authority, op: Op): Reply {
    match op
    case DoEnroll(c) => Answer(size, Enroll(s, c), (v: Access) => Enrolled(v), None)
    case DoIssue(access, v, w, x, now, fin, legacy) =>
      Answer(size, Issue(s, access, v, w, x, now, fin, legacy), (p: Permit) => Issued(p), None)
    case DoConsume(access, v, p, call, now, fin) =>
      Answer(size, Consume(s, access, v, p, call, now, fin), (f: Preflight) => Preflighted(f), None)
    case DoTransit(access, request, now, fin, stage) =>
      Answer(size, Transit(s, access, request, now, fin), (r: Receipt) => Transited(r), stage)
    case DoSettle(p, f, reported, now) => Answer(size, Settle(s, p, f, reported, now), (o: Outcome) => Settled(o), None)
  }

  ghost predicate IsRun(size: Size, incarnation: Id, trace: seq<Authority>, ops: seq<Op>) {
    && |trace| == |ops| + 1 && trace[0] == Initialized(incarnation) && size(trace[0]) <= MAX_STATE_BYTES
    && forall i :: 0 <= i < |ops| ==> trace[i + 1] == Step(size, trace[i], ops[i])
  }
}
