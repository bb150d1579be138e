/** What the admission domain never forgets, whatever is interleaved. */
module AdmissionHistory {
  import opened Common
  import opened AdmissionModel
  import opened AdmissionInvariant
  import opened AdmissionSteps
  import opened AdmissionTheorems

  /** Records are never dropped, never change scope and never lose usage. */
  ghost predicate UsageGrows(u: map<Id, UsageRecord>, v: map<Id, UsageRecord>) {
    forall k :: k in u ==>
      k in v && v[k].scope == u[k].scope && forall d: Dimension :: u[k].usage.At(d) <= v[k].usage.At(d)
  }

  /** A scope that was ever charged or admitted keeps the budget it had. */
  ghost predicate BudgetsKept(s: Admission, n: Admission) {
    forall k :: k in s.usage ==>
      && s.usage[k].scope in s.scopeBudgets && s.usage[k].scope in n.scopeBudgets
      && n.scopeBudgets[s.usage[k].scope] == s.scopeBudgets[s.usage[k].scope]
  }

  ghost predicate Remembers(s: Admission, n: Admission) {
    UsageGrows(s.usage, n.usage) && BudgetsKept(s, n) && s.fencedParents <= n.fencedParents
  }

  /** The provider call of this leaf has not been seen to end. */
  ghost predicate Pinned(s: Admission, id: Id) {
    id in s.draining && s.draining[id].providerInFlight
  }

  ghost predicate StillPinned(s: Admission, n: Admission, id: Id) {
    Pinned(s, id) ==> id in n.draining && n.draining[id] == s.draining[id]
  }

  // ----- one step -----

  lemma EnqueueRemembers(s: Admission, request: Request)
    requires Accounted(s)
    ensures Remembers(s, Enqueue(s, request))
  {
  }

  lemma WithdrawRemembers(s: Admission, ticket: U64, request: Request)
    requires Accounted(s)
    ensures Remembers(s, Withdraw(s, ticket, request))
  {
  }

  lemma {:induction false} RemembersTrans(s: Admission, m: Admission, n: Admission)
    requires Remembers(s, m) && Remembers(m, n)
    ensures Remembers(s, n)
  {
  }

  /** Admission opens a record for an operation that never had one. */
  lemma AdmitRemembers(s: Admission, ticket: U64, request: Request)
    requires Accounted(s) && Queued(s.queue, ticket)
    ensures Remembers(s, Admit(s, ticket, request))
    ensures var id := LeafAt(s.queue, ticket).request.operationId;
            id !in s.usage && id in Admit(s, ticket, request).usage
  {
    LeafAtIsQueued(s.queue, ticket);
    assert QueuedOk(s, LeafAt(s.queue, ticket).request);
  }

  lemma LoopPassRemembers(s: Admission, ticket: U64, request: Request, expired: bool)
    requires Accounted(s)
    ensures var (n, r) := LoopPass(s, ticket, request, expired);
            && Remembers(s, n) && n.draining == s.draining
            && (r.Admitted? ==> r.operationId !in s.usage && r.operationId in n.usage)
  {
    hide Remembers, NextAdmissible, Retained, LeafAt;
    RemembersSelf(s);
    RemembersFrame(s, Leave(s, ticket));
    RemembersFrame(s, Sleep(s, ticket, request));
    if Queued(s.queue, ticket) {
      AdmitRemembers(s, ticket, request);
      WithdrawRemembers(s, ticket, request);
    }
  }

  lemma RemembersSelf(s: Admission)
    requires Accounted(s)
    ensures Remembers(s, s)
  {
  }

  lemma RemembersFrame(s: Admission, n: Admission)
    requires Accounted(s)
    requires n.usage == s.usage && n.scopeBudgets == s.scopeBudgets && n.fencedParents == s.fencedParents
    ensures Remembers(s, n)
  {
  }

  lemma ReserveRemembers(s: Admission, request: Request, seen: Config, expired: bool)
    requires Inv(s) && s.nextTicket < U64_MAX
    ensures var (n, r) := Reserve(s, request, seen, expired);
            && Remembers(s, n) && n.draining == s.draining
            && (r.Admitted? ==> r.operationId !in s.usage && r.operationId in n.usage)
  {
    hide Remembers, LoopPass, Retained, LaneErrors, Partitioned, Ticketed, Attended, Held, FenceHolds, Told, Awake;
    RemembersSelf(s);
    if RequestError(request, seen).None? && SubmissionError(s, request).None? {
      AcceptedLanesDiffer(request.lanes, {}, seen.laneCaps);
      var e := Enqueue(s, request);
      EnqueueRemembers(s, request);
      EnqueueKeeps(s, request);
      if |e.queue| > s.config.maxQueued {
        WithdrawRemembers(e, s.nextTicket, request);
        RemembersTrans(s, e, Withdraw(e, s.nextTicket, request));
      } else {
        LoopPassRemembers(e, s.nextTicket, request, expired);
        RemembersTrans(s, e, LoopPass(e, s.nextTicket, request, expired).0);
      }
    }
  }

  lemma DrainRemembers(s: Admission, ids: set<Id>, id: Id)
    requires Accounted(s) && ids <= s.active.Keys && s.active.Keys !! s.draining.Keys
    ensures Remembers(s, DrainAll(s, ids)) && StillPinned(s, DrainAll(s, ids), id)
  {
    hide MarkUnknown, Chosen;
  }

  lemma FenceQueueRemembers(s: Admission, parent: Id)
    requires Accounted(s)
    ensures Remembers(s, FenceQueue(s, parent))
  {
    hide ChildrenOf, NotChildrenOf, QueueIds;
  }

  /** The fields that carry the memory are all that counts. */
  lemma RemembersNotified(s: Admission, d: Admission, n: Admission, id: Id)
    requires Remembers(s, d) && StillPinned(s, d, id)
    requires n == d.(waiters := n.waiters)
    ensures Remembers(s, n) && StillPinned(s, n, id)
  {
  }

  lemma FenceRemembers(s: Admission, parent: Id, id: Id)
    requires Partitioned(s) && Accounted(s)
    ensures Remembers(s, Fence(s, parent).0) && parent in Fence(s, parent).0.fencedParents
    ensures StillPinned(s, Fence(s, parent).0, id) && Fence(s, parent).1.Fenced?
  {
    hide Remembers, Accounted, Retained, DrainAll;
    var q := FenceQueue(s, parent);
    var ids := ActiveChildren(s.active, parent);
    FenceQueueRemembers(s, parent);
    FenceBudgets(s, parent);
    DrainRemembers(q, ids, id);
    RemembersTrans(s, q, DrainAll(q, ids));
    DrainFrame(q, ids);
    RemembersNotified(s, DrainAll(q, ids), Fence(s, parent).0, id);
  }

  lemma DrainFrame(s: Admission, ids: set<Id>)
    requires ids <= s.active.Keys
    ensures DrainAll(s, ids).fencedParents == s.fencedParents
  {
  }

  lemma ChargeRemembers(s: Admission, id: Id, delta: Amounts)
    requires Accounted(s)
    ensures Remembers(s, Charge(s, id, delta).0)
  {
    hide FirstExceeded, UsageGrows;
    var n := Charge(s, id, delta).0;
    if n == s {
      RemembersSelf(s);
    } else {
      OneGrows(s.usage, id, delta);
    }
  }

  lemma OneGrows(usage: map<Id, UsageRecord>, id: Id, delta: Amounts)
    requires id in usage
    ensures UsageGrows(usage, usage[id := usage[id].(usage := usage[id].usage.Plus(delta))])
  {
  }

  /**
   * One step forgets no charge, no budget in use and no fence; only a fresh
   * operation is admitted; a leaf whose provider call is open stays draining
   * unless that call is reported over.
   */
  lemma StepRemembers(s: Admission, a: Action, id: Id)
    requires Inv(s) && Enabled(s, a) && TicketLeft(s, a)
    ensures var (n, r) := StepReply(s, a);
            && Remembers(s, n)
            && (r.Admitted? ==> r.operationId !in s.usage && r.operationId in n.usage)
            && (a != SetInFlight(id, false) ==> StillPinned(s, n, id))
            && (a.FenceParent? ==> a.parent in n.fencedParents)
  {
    hide Remembers, Reserve, LoopPass, Fence, Charge, MarkUnknown, Chosen, Retained, NextAdmissible,
      Ticketed, Partitioned, Accounted, Attended, Held, FenceHolds, Told, Awake, FirstExceeded, SetProviderInFlight,
      ValidConfig;
    RemembersSelf(s);
    match a
    case ReserveStart(request, seen, expired) =>
      ReserveRemembers(s, request, seen, expired);
    case ReserveResume(ticket, timedOut, late) =>
      WithdrawRemembers(s, ticket, s.waiters[ticket].request);
      LoopPassRemembers(s, ticket, s.waiters[ticket].request, late);
    case Configure(config) => RemembersFrame(s, Reconfigure(s, config).0);
    case FenceParent(parent) => FenceRemembers(s, parent, id);
    case SetInFlight(flying, inFlight) => SetInFlightRemembers(s, flying, inFlight, id);
    case Release(released) => RemembersFrame(s, ReleaseActive(s, released).0);
    case Drain(drained) => MoveRemembers(s, drained, id);
    case Reconcile(reconciled) => RemembersFrame(s, ReconcileDraining(s, reconciled).0);
    case ChargeUsage(charged, delta) =>
      ChargeRemembers(s, charged, delta);
      ChargeFrame(s, charged, delta);
  }

  lemma SetInFlightRemembers(s: Admission, flying: Id, inFlight: bool, id: Id)
    requires Inv(s)
    ensures Remembers(s, SetProviderInFlight(s, flying, inFlight).0)
    ensures flying != id || inFlight ==> StillPinned(s, SetProviderInFlight(s, flying, inFlight).0, id)
    ensures !SetProviderInFlight(s, flying, inFlight).1.Admitted?
  {
    hide UsesProvider, Remembers, Ticketed, Attended, Held, FenceHolds, Told, Awake;
    RemembersFrame(s, SetProviderInFlight(s, flying, inFlight).0);
  }

  lemma ChargeFrame(s: Admission, id: Id, delta: Amounts)
    ensures Charge(s, id, delta).0 == s.(usage := Charge(s, id, delta).0.usage)
    ensures !Charge(s, id, delta).1.Admitted?
  {
    hide FirstExceeded;
  }

  lemma MoveRemembers(s: Admission, drained: Id, id: Id)
    requires Inv(s)
    ensures Remembers(s, MoveToDraining(s, drained).0) && StillPinned(s, MoveToDraining(s, drained).0, id)
  {
    hide Remembers, Retained, MarkUnknown, Chosen, Ticketed, Attended, Held, FenceHolds, Told, Awake;
    RemembersSelf(s);
    if drained in s.active {
      DrainRemembers(s, {drained}, id);
      RemembersNotified(s, DrainAll(s, {drained}), MoveToDraining(s, drained).0, id);
    }
  }
}
