/**
 * The state of the managed admission domain and what each critical section of
 * its mutex does to it. Every function below that returns an `Admission` is the
 * effect of code that runs with the lock held.
 */
module AdmissionModel {
  import opened Common

  type Id = string

  const PROVIDER_LANE: Id := "provider"

  datatype Dimension = Attempts | WallTime | Tokens | Cost | ArtifactBytes | ContextBytes

  /** One amount per charged dimension: a ceiling, a running total or a delta. */
  datatype Amounts = Amounts(
    attempts: U64, wallTimeMs: U64, tokens: U64,
    costMicrounits: U64, artifactBytes: U64, contextBytes: U64)
  {
    function At(d: Dimension): U64 {
      match d
      case Attempts => attempts
      case WallTime => wallTimeMs
      case Tokens => tokens
      case Cost => costMicrounits
      case ArtifactBytes => artifactBytes
      case ContextBytes => contextBytes
    }

    function Plus(that: Amounts): Amounts {
      Amounts(
        SatAdd(attempts, that.attempts), SatAdd(wallTimeMs, that.wallTimeMs),
        SatAdd(tokens, that.tokens), SatAdd(costMicrounits, that.costMicrounits),
        SatAdd(artifactBytes, that.artifactBytes), SatAdd(contextBytes, that.contextBytes))
    }
  }

  const NOTHING := Amounts(0, 0, 0, 0, 0, 0)

  datatype QueueClass = Interactive | Normal

  datatype LaneRequirement = LaneRequirement(lane: Id, units: U64)

  datatype Request = Request(
    operationId: Id, parent: Option<Id>, budgetScope: Option<Id>, modelRef: string,
    lanes: seq<LaneRequirement>, contextBytes: U64, artifactBytes: U64, budget: Amounts,
    queueClass: QueueClass, queueTimeoutMs: U64, simultaneousMembers: Option<U64>)

  function ScopeOf(request: Request): Id {
    if request.budgetScope.Some? then request.budgetScope.value else request.operationId
  }

  datatype Config = Config(
    revision: U64, globalMaxActive: U64, laneCaps: map<Id, U64>, maxQueued: nat,
    maxContextBytes: U64, maxArtifactBytes: U64)

  predicate ValidConfig(c: Config) {
    && c.revision != 0 && c.globalMaxActive != 0 && c.maxQueued != 0
    && c.maxContextBytes != 0 && c.maxArtifactBytes != 0
    && forall lane :: lane in c.laneCaps ==>
        lane != "" && 0 < c.laneCaps[lane] <= c.globalMaxActive
  }

  datatype QueuedLeaf = QueuedLeaf(ticket: U64, submittedRevision: U64, request: Request)

  datatype ActiveLeaf = ActiveLeaf(
    ticket: U64, submittedRevision: U64, admittedRevision: U64,
    request: Request, providerInFlight: bool)

  datatype UsageRecord = UsageRecord(
    scope: Id, submittedRevision: U64, admittedRevision: U64,
    usage: Amounts, unknownSpend: bool)

  /**
   * A thread inside `reserve`. It is signalled when it runs, or will run, before
   * it blocks again; otherwise it is blocked on the condition variable and
   * nothing has notified it since it last looked at the state.
   */
  datatype Waiter = Waiter(request: Request, signalled: bool)

  datatype Admission = Admission(
    config: Config,
    nextTicket: U64,
    selected: set<Id>,
    queue: seq<QueuedLeaf>,
    active: map<Id, ActiveLeaf>,
    draining: map<Id, ActiveLeaf>,
    cancelled: set<Id>,
    fencedParents: set<Id>,
    usage: map<Id, UsageRecord>,
    scopeBudgets: map<Id, Amounts>,
    waiters: map<U64, Waiter>)

  datatype Error =
    | InvalidConfig | MissingRoute | MissingLane(lane: Id) | InvalidLane(invalid: Id)
    | DuplicateOperation | ParentFenced | SimultaneousCapacity | QueueCapacity
    | Capacity | QueueTimeout | ContextBudget | ContextCapacity | ArtifactCapacity
    | BudgetScopeConflict | BudgetExceeded(dimension: Dimension) | StatePoisoned
    | NotActive | NotDraining | ProviderStillInFlight

  datatype Reply =
    | Admitted(operationId: Id)
    | Blocked(ticket: U64)
    | Rejected(error: Error)
    | Done
    | Charged(usage: Amounts)
    | Fenced(count: nat)

  function Fresh(config: Config): Admission {
    Admission(config, 1, {}, [], map[], map[], {}, {}, map[], map[], map[])
  }

  // ----- occupancy -----

  function UnitsOn(lanes: seq<LaneRequirement>, lane: Id): nat {
    if lanes == [] then 0 else
      (if lanes[0].lane == lane then lanes[0].units else 0) + UnitsOn(lanes[1..], lane)
  }

  function LeafUnits(lane: Id): ActiveLeaf -> nat {
    (leaf: ActiveLeaf) => UnitsOn(leaf.request.lanes, lane)
  }

  /** The two byte pools reserved from submission until release. */
  datatype Pool = ContextPool | ArtifactPool

  function BytesOf(request: Request, pool: Pool): U64 {
    match pool
    case ContextPool => request.contextBytes
    case ArtifactPool => request.artifactBytes
  }

  function PoolCap(config: Config, pool: Pool): U64 {
    match pool
    case ContextPool => config.maxContextBytes
    case ArtifactPool => config.maxArtifactBytes
  }

  function LeafBytes(pool: Pool): ActiveLeaf -> nat {
    (leaf: ActiveLeaf) => BytesOf(leaf.request, pool)
  }

  function QueuedBytes(q: seq<QueuedLeaf>, pool: Pool): nat {
    if q == [] then 0 else BytesOf(q[0].request, pool) + QueuedBytes(q[1..], pool)
  }

  function Slots(s: Admission): nat {
    |s.active| + |s.draining|
  }

  /** Units of a lane held by leaves that are active or draining. */
  ghost function LaneUsed(active: map<Id, ActiveLeaf>, draining: map<Id, ActiveLeaf>, lane: Id): nat {
    Sum(active, LeafUnits(lane)) + Sum(draining, LeafUnits(lane))
  }

  /** Bytes reserved by everything queued, active or draining. */
  ghost function HeldBy(q: seq<QueuedLeaf>, active: map<Id, ActiveLeaf>, draining: map<Id, ActiveLeaf>, pool: Pool): nat {
    QueuedBytes(q, pool) + Sum(active, LeafBytes(pool)) + Sum(draining, LeafBytes(pool))
  }

  ghost function Held(s: Admission, pool: Pool): nat {
    HeldBy(s.queue, s.active, s.draining, pool)
  }

  // ----- the queue policy -----

  ghost predicate LaneFits(c: Config, active: map<Id, ActiveLeaf>, draining: map<Id, ActiveLeaf>, need: LaneRequirement) {
    && need.lane in c.laneCaps
    && SatAdd(LaneUsed(active, draining, need.lane), need.units) <= c.laneCaps[need.lane]
  }

  ghost predicate CanFit(c: Config, active: map<Id, ActiveLeaf>, draining: map<Id, ActiveLeaf>, request: Request) {
    && |active| + |draining| < c.globalMaxActive
    && forall i :: 0 <= i < |request.lanes| ==> LaneFits(c, active, draining, request.lanes[i])
  }

  ghost function FirstFit(c: Config, active: map<Id, ActiveLeaf>, draining: map<Id, ActiveLeaf>,
                          q: seq<QueuedLeaf>, cls: QueueClass): Option<U64>
  {
    if q == [] then None
    else if q[0].request.queueClass == cls && CanFit(c, active, draining, q[0].request) then Some(q[0].ticket)
    else FirstFit(c, active, draining, q[1..], cls)
  }

  ghost function NextOf(c: Config, active: map<Id, ActiveLeaf>, draining: map<Id, ActiveLeaf>, q: seq<QueuedLeaf>): Option<U64> {
    var interactive := FirstFit(c, active, draining, q, Interactive);
    if interactive.Some? then interactive else FirstFit(c, active, draining, q, Normal)
  }

  ghost function NextAdmissible(s: Admission): Option<U64> {
    NextOf(s.config, s.active, s.draining, s.queue)
  }

  // ----- building blocks of the critical sections -----

  function Without(q: seq<QueuedLeaf>, ticket: U64): seq<QueuedLeaf> {
    if q == [] then []
    else if q[0].ticket == ticket then Without(q[1..], ticket)
    else [q[0]] + Without(q[1..], ticket)
  }

  /** Only the first leaf with the ticket goes. */
  function WithoutFirst(q: seq<QueuedLeaf>, ticket: U64): seq<QueuedLeaf> {
    if q == [] then []
    else if q[0].ticket == ticket then q[1..]
    else [q[0]] + WithoutFirst(q[1..], ticket)
  }

  predicate Queued(q: seq<QueuedLeaf>, ticket: U64) {
    exists x :: x in q && x.ticket == ticket
  }

  function QueueIds(q: seq<QueuedLeaf>): set<Id> {
    set x | x in q :: x.request.operationId
  }

  function QueueScopes(q: seq<QueuedLeaf>): set<Id> {
    set x | x in q :: ScopeOf(x.request)
  }

  predicate Retained(s: Admission, scope: Id) {
    || scope in QueueScopes(s.queue)
    || (exists k :: k in s.active && ScopeOf(s.active[k].request) == scope)
    || (exists k :: k in s.draining && ScopeOf(s.draining[k].request) == scope)
    || (exists k :: k in s.usage && s.usage[k].scope == scope)
  }

  /** `cleanup_scope_if_unused`. */
  function CleanupScope(s: Admission, scope: Id): Admission {
    if Retained(s, scope) then s else s.(scopeBudgets := s.scopeBudgets - {scope})
  }

  function NotifyAll(s: Admission): Admission {
    s.(waiters := map t | t in s.waiters :: s.waiters[t].(signalled := true))
  }

  /** The thread holding `ticket` leaves `reserve` without a reservation. */
  function Withdraw(s: Admission, ticket: U64, request: Request): Admission {
    var removed := s.(
      queue := Without(s.queue, ticket),
      selected := s.selected - {request.operationId},
      waiters := s.waiters - {ticket});
    CleanupScope(removed, ScopeOf(request))
  }

  /** The thread finds its leaf already gone and leaves with a typed error. */
  function Leave(s: Admission, ticket: U64): Admission {
    s.(waiters := s.waiters - {ticket})
  }

  function Sleep(s: Admission, ticket: U64, request: Request): Admission {
    s.(waiters := s.waiters[ticket := Waiter(request, false)])
  }

  /** Scope budget, selection, ticket and queue insertion of one submission. */
  function Enqueue(s: Admission, request: Request): Admission {
    var scope := ScopeOf(request);
    s.(
      scopeBudgets := if scope in s.scopeBudgets then s.scopeBudgets else s.scopeBudgets[scope := request.budget],
      selected := s.selected + {request.operationId},
      nextTicket := SatAdd(s.nextTicket, 1),
      queue := s.queue + [QueuedLeaf(s.nextTicket, s.config.revision, request)],
      waiters := s.waiters[s.nextTicket := Waiter(request, true)])
  }

  /** The first queued leaf with this ticket. */
  function LeafAt(q: seq<QueuedLeaf>, ticket: U64): QueuedLeaf
    requires Queued(q, ticket)
  {
    if q[0].ticket == ticket then q[0] else LeafAt(q[1..], ticket)
  }

  function Admit(s: Admission, ticket: U64, request: Request): Admission
    requires Queued(s.queue, ticket)
  {
    var leaf := LeafAt(s.queue, ticket);
    var id := leaf.request.operationId;
    NotifyAll(s.(
      queue := WithoutFirst(s.queue, ticket),
      usage := s.usage[id := UsageRecord(ScopeOf(request), leaf.submittedRevision, s.config.revision, NOTHING, false)],
      active := s.active[id := ActiveLeaf(ticket, leaf.submittedRevision, s.config.revision, leaf.request, false)],
      waiters := s.waiters - {ticket}))
  }

  // ----- reserve -----

  predicate DistinctLanes(lanes: seq<LaneRequirement>) {
    forall i, j :: 0 <= i < j < |lanes| ==> lanes[i].lane != lanes[j].lane
  }

  /** The lane loop of `validate_request`; `seen` holds the lanes already visited. */
  function LaneErrors(lanes: seq<LaneRequirement>, seen: set<Id>, caps: map<Id, U64>): Option<Error> {
    if lanes == [] then None
    else if lanes[0].units == 0 || lanes[0].lane in seen then Some(InvalidLane(lanes[0].lane))
    else if lanes[0].lane !in caps then Some(MissingLane(lanes[0].lane))
    else if lanes[0].units > caps[lanes[0].lane] then Some(Capacity)
    else LaneErrors(lanes[1..], seen + {lanes[0].lane}, caps)
  }

  /**
   * `validate_request`. It takes the lock on its own, so the configuration it
   * sees may differ from the one the reservation is then made under.
   */
  function RequestError(request: Request, seen: Config): Option<Error> {
    if request.operationId == "" || request.modelRef == "" then Some(MissingRoute)
    else if request.parent.Some? && (request.parent.value == "" || request.parent.value == request.operationId) then
      Some(InvalidConfig)
    else if request.budgetScope == Some("") then Some(InvalidConfig)
    else if request.budget.attempts == 0 || request.budget.wallTimeMs == 0
            || request.budget.artifactBytes == 0 || request.budget.contextBytes == 0 then Some(InvalidConfig)
    else if request.artifactBytes > request.budget.artifactBytes then Some(BudgetExceeded(ArtifactBytes))
    else if request.contextBytes > request.budget.contextBytes || request.contextBytes > seen.maxContextBytes then
      Some(ContextBudget)
    else LaneErrors(request.lanes, {}, seen.laneCaps)
  }

  /** The checks `reserve` makes under the lock before it changes anything. */
  ghost function SubmissionError(s: Admission, request: Request): Option<Error> {
    if request.parent.Some? && request.parent.value in s.fencedParents then Some(ParentFenced)
    else if request.operationId in s.selected || request.operationId in QueueIds(s.queue)
            || request.operationId in s.active || request.operationId in s.draining
            || request.operationId in s.cancelled || request.operationId in s.usage then Some(DuplicateOperation)
    else if request.simultaneousMembers.Some? && request.simultaneousMembers.value > s.config.globalMaxActive then
      Some(SimultaneousCapacity)
    else if request.contextBytes > SatSub(s.config.maxContextBytes, Min(Held(s, ContextPool), U64_MAX)) then Some(ContextCapacity)
    else if request.artifactBytes > SatSub(s.config.maxArtifactBytes, Min(Held(s, ArtifactPool), U64_MAX)) then Some(ArtifactCapacity)
    else if ScopeOf(request) in s.scopeBudgets && s.scopeBudgets[ScopeOf(request)] != request.budget then
      Some(BudgetScopeConflict)
    else None
  }

  /** One pass of the loop in `reserve`, from its top to a return or to the wait. */
  ghost function LoopPass(s: Admission, ticket: U64, request: Request, expired: bool): (Admission, Reply) {
    if !Queued(s.queue, ticket) then (Leave(s, ticket), Rejected(ParentFenced))
    else if NextAdmissible(s) == Some(ticket) then
      (Admit(s, ticket, request), Admitted(LeafAt(s.queue, ticket).request.operationId))
    else if request.queueTimeoutMs == 0 then (Withdraw(s, ticket, request), Rejected(Capacity))
    else if expired then (Withdraw(s, ticket, request), Rejected(QueueTimeout))
    else (Sleep(s, ticket, request), Blocked(ticket))
  }

  /** `reserve` up to its first wait or return. */
  ghost function Reserve(s: Admission, request: Request, seen: Config, expired: bool): (Admission, Reply) {
    var invalid := RequestError(request, seen);
    if invalid.Some? then (s, Rejected(invalid.value)) else
    var error := SubmissionError(s, request);
    if error.Some? then (s, Rejected(error.value)) else
    var entered := Enqueue(s, request);
    if |entered.queue| > s.config.maxQueued then
      (Withdraw(entered, s.nextTicket, request), Rejected(QueueCapacity))
    else LoopPass(entered, s.nextTicket, request, expired)
  }

  /** A waiting thread gets the lock back after a notification, a spurious wake-up or a timeout. */
  ghost function Resume(s: Admission, ticket: U64, timedOut: bool, expired: bool): (Admission, Reply)
    requires ticket in s.waiters
  {
    var request := s.waiters[ticket].request;
    if timedOut && NextAdmissible(s) != Some(ticket) then
      (Withdraw(s, ticket, request), Rejected(QueueTimeout))
    else LoopPass(s, ticket, request, expired)
  }

  // ----- the other operations -----

  function Reconfigure(s: Admission, config: Config): (Admission, Reply) {
    if !ValidConfig(config) || config.revision <= s.config.revision then (s, Rejected(InvalidConfig)) else
    var room := if config.maxQueued < |s.queue| then |s.queue| else config.maxQueued;
    (NotifyAll(s.(config := config.(maxQueued := room))), Done)
  }

  predicate UsesProvider(request: Request) {
    exists i :: 0 <= i < |request.lanes| && request.lanes[i].lane == PROVIDER_LANE
  }

  function SetProviderInFlight(s: Admission, id: Id, inFlight: bool): (Admission, Reply) {
    if id in s.active then
      if !UsesProvider(s.active[id].request) then (s, Rejected(InvalidLane(PROVIDER_LANE)))
      else (NotifyAll(s.(active := s.active[id := s.active[id].(providerInFlight := inFlight)])), Done)
    else if id in s.draining then
      if !UsesProvider(s.draining[id].request) then (s, Rejected(InvalidLane(PROVIDER_LANE)))
      else (NotifyAll(s.(draining := s.draining[id := s.draining[id].(providerInFlight := inFlight)])), Done)
    else (s, Rejected(NotActive))
  }

  function MarkUnknown(usage: map<Id, UsageRecord>, ids: set<Id>): (marked: map<Id, UsageRecord>)
    ensures marked.Keys == usage.Keys
    ensures forall k :: k in usage ==> marked[k].scope == usage[k].scope && marked[k].usage == usage[k].usage
  {
    map k | k in usage :: if k in ids then usage[k].(unknownSpend := true) else usage[k]
  }

  function NotChildrenOf(q: seq<QueuedLeaf>, parent: Id): seq<QueuedLeaf> {
    if q == [] then []
    else if q[0].request.parent == Some(parent) then NotChildrenOf(q[1..], parent)
    else [q[0]] + NotChildrenOf(q[1..], parent)
  }

  function ChildrenOf(q: seq<QueuedLeaf>, parent: Id): seq<QueuedLeaf> {
    if q == [] then []
    else if q[0].request.parent == Some(parent) then [q[0]] + ChildrenOf(q[1..], parent)
    else ChildrenOf(q[1..], parent)
  }

  function ActiveChildren(active: map<Id, ActiveLeaf>, parent: Id): set<Id> {
    set k | k in active && active[k].request.parent == Some(parent)
  }

  /** The queued children leave the queue; a scope nobody uses any more is dropped. */
  function FenceQueue(s: Admission, parent: Id): Admission {
    var gone := ChildrenOf(s.queue, parent);
    var kept := s.(
      fencedParents := s.fencedParents + {parent},
      queue := NotChildrenOf(s.queue, parent),
      selected := s.selected - QueueIds(gone),
      cancelled := s.cancelled + QueueIds(gone));
    kept.(scopeBudgets := s.scopeBudgets - (set scope | scope in QueueScopes(gone) && !Retained(kept, scope)))
  }

  function Chosen(leaves: map<Id, ActiveLeaf>, ids: set<Id>): (chosen: map<Id, ActiveLeaf>)
    requires ids <= leaves.Keys
    ensures chosen.Keys == ids && forall k :: k in ids ==> chosen[k] == leaves[k]
  {
    map k | k in ids :: leaves[k]
  }

  /** Active leaves move to draining and keep everything they hold. */
  function DrainAll(s: Admission, ids: set<Id>): Admission
    requires ids <= s.active.Keys
  {
    s.(
      active := s.active - ids,
      draining := s.draining + Chosen(s.active, ids),
      cancelled := s.cancelled + ids,
      usage := MarkUnknown(s.usage, set k | k in ids && s.active[k].providerInFlight))
  }

  /** `mark_descendants_draining`; only leaves that name `parent` directly are touched. */
  function Fence(s: Admission, parent: Id): (Admission, Reply) {
    var gone := ChildrenOf(s.queue, parent);
    var ids := ActiveChildren(s.active, parent);
    var fenced := DrainAll(FenceQueue(s, parent), ids);
    (if gone != [] || ids != {} then NotifyAll(fenced) else fenced, Fenced(|gone| + |ids|))
  }

  function ReleaseActive(s: Admission, id: Id): (Admission, Reply) {
    if id !in s.active then (s, Rejected(NotActive))
    else (NotifyAll(s.(active := s.active - {id}, selected := s.selected - {id})), Done)
  }

  function MoveToDraining(s: Admission, id: Id): (Admission, Reply) {
    if id !in s.active then (s, Rejected(NotActive)) else (NotifyAll(DrainAll(s, {id})), Done)
  }

  function ReconcileDraining(s: Admission, id: Id): (Admission, Reply) {
    if id !in s.draining then (s, Rejected(NotDraining))
    else if s.draining[id].providerInFlight then (s, Rejected(ProviderStillInFlight))
    else (NotifyAll(s.(draining := s.draining - {id}, selected := s.selected - {id})), Done)
  }

  /** Dropping an unreleased reservation: two critical sections, the second only if the first fails. */
  function DropReservation(s: Admission, id: Id): Admission {
    if ReleaseActive(s, id).1.Rejected? then ReconcileDraining(s, id).0 else ReleaseActive(s, id).0
  }

  // ----- cumulative budgets -----

  function ScopeAmount(scope: Id, d: Dimension): UsageRecord -> nat {
    (r: UsageRecord) => if r.scope == scope then r.usage.At(d) else 0
  }

  /** The saturating total of one dimension over every record ever made in a scope. */
  ghost function ScopeTotal(usage: map<Id, UsageRecord>, scope: Id, d: Dimension): nat {
    Min(Sum(usage, ScopeAmount(scope, d)), U64_MAX)
  }

  ghost predicate WithinBudget(usage: map<Id, UsageRecord>, scope: Id, budget: Amounts) {
    forall d: Dimension :: ScopeTotal(usage, scope, d) <= budget.At(d)
  }

  /** The first dimension over budget, in the order the source reports them. */
  ghost function FirstExceeded(usage: map<Id, UsageRecord>, scope: Id, budget: Amounts): Option<Dimension> {
    if ScopeTotal(usage, scope, Attempts) > budget.attempts then Some(Attempts)
    else if ScopeTotal(usage, scope, WallTime) > budget.wallTimeMs then Some(WallTime)
    else if ScopeTotal(usage, scope, Tokens) > budget.tokens then Some(Tokens)
    else if ScopeTotal(usage, scope, Cost) > budget.costMicrounits then Some(Cost)
    else if ScopeTotal(usage, scope, ArtifactBytes) > budget.artifactBytes then Some(ArtifactBytes)
    else if ScopeTotal(usage, scope, ContextBytes) > budget.contextBytes then Some(ContextBytes)
    else None
  }

  ghost function Charge(s: Admission, id: Id, delta: Amounts): (Admission, Reply) {
    if id !in s.active && id !in s.draining then (s, Rejected(NotActive))
    else if id !in s.usage then (s, Rejected(StatePoisoned))
    else
      var scope := s.usage[id].scope;
      if scope !in s.scopeBudgets then (s, Rejected(StatePoisoned)) else
      var total := s.usage[id].usage.Plus(delta);
      var usage := s.usage[id := s.usage[id].(usage := total)];
      var exceeded := FirstExceeded(usage, scope, s.scopeBudgets[scope]);
      (s.(usage := usage), if exceeded.Some? then Rejected(BudgetExceeded(exceeded.value)) else Charged(total))
  }

  // ----- the interleaved system -----

  datatype Action =
    | ReserveStart(request: Request, seen: Config, expired: bool)
    | ReserveResume(ticket: U64, timedOut: bool, late: bool)
    | Configure(config: Config)
    | FenceParent(parent: Id)
    | SetInFlight(flying: Id, inFlight: bool)
    | Release(released: Id)
    | Drain(drained: Id)
    | Reconcile(reconciled: Id)
    | ChargeUsage(charged: Id, delta: Amounts)

  /** Only a thread inside `reserve` can resume; everything else may happen at any time. */
  predicate Enabled(s: Admission, a: Action) {
    a.ReserveResume? ==> a.ticket in s.waiters
  }

  ghost function StepReply(s: Admission, a: Action): (Admission, Reply)
    requires Enabled(s, a)
  {
    match a
    case ReserveStart(request, seen, expired) => Reserve(s, request, seen, expired)
    case ReserveResume(ticket, timedOut, late) => Resume(s, ticket, timedOut, late)
    case Configure(config) => Reconfigure(s, config)
    case FenceParent(parent) => Fence(s, parent)
    case SetInFlight(id, inFlight) => SetProviderInFlight(s, id, inFlight)
    case Release(id) => ReleaseActive(s, id)
    case Drain(id) => MoveToDraining(s, id)
    case Reconcile(id) => ReconcileDraining(s, id)
    case ChargeUsage(id, delta) => Charge(s, id, delta)
  }

  ghost function Step(s: Admission, a: Action): Admission
    requires Enabled(s, a)
  {
    StepReply(s, a).0
  }

  /** `trace` is a run: consecutive states are related by the listed actions. */
  ghost predicate IsRun(trace: seq<Admission>, actions: seq<Action>) {
    && |trace| == |actions| + 1
    && forall i :: 0 <= i < |actions| ==> Enabled(trace[i], actions[i]) && trace[i + 1] == Step(trace[i], actions[i])
  }
}
