/** Every critical section keeps the invariant, notified or not. */
module AdmissionSteps {
  import opened Common
  import opened AdmissionModel
  import opened AdmissionInvariant

  lemma OnlyThreads(s: Admission, n: Admission)
    requires n == s.(waiters := n.waiters)
    ensures Partitioned(s) ==> Partitioned(n)
    ensures Accounted(s) ==> Accounted(n)
    ensures FenceHolds(s) ==> FenceHolds(n)
    ensures NextAdmissible(n) == NextAdmissible(s)
    ensures forall pool :: Held(n, pool) == Held(s, pool)
  {
  }

  /** Notifying everybody makes the thread whose turn it is runnable. */
  lemma NotifyKeeps(s: Admission)
    requires Base(s)
    ensures Inv(NotifyAll(s))
  {
    hide Accounted, Partitioned, FenceHolds, Held, CanFit, FirstFit;
    OnlyThreads(s, NotifyAll(s));
    NextIsQueued(s);
  }

  lemma EnqueueKeeps(s: Admission, request: Request)
    requires Inv(s) && s.nextTicket < U64_MAX
    requires SubmissionError(s, request).None? && DistinctLanes(request.lanes)
    ensures Inv(Enqueue(s, request))
  {
    hide Ticketed, Partitioned, Accounted, FenceHolds, Attended, Told, Held, CanFit, Awake, Retained;
    EnqueueThreads(s, request);
    EnqueueBudgets(s, request);
    EnqueueHeld(s, request);
    EnqueueAwake(s, request);
  }

  lemma EnqueueIds(s: Admission, request: Request)
    requires Ticketed(s) && Partitioned(s) && s.nextTicket < U64_MAX && request.operationId !in s.selected
    ensures Ticketed(Enqueue(s, request)) && Partitioned(Enqueue(s, request))
  {
    var e := Enqueue(s, request);
    var leaf := QueuedLeaf(s.nextTicket, s.config.revision, request);
    assert forall x :: x in e.queue <==> x in s.queue || x == leaf;
    assert QueueIds(e.queue) == QueueIds(s.queue) + {request.operationId};
  }

  lemma EnqueueThreads(s: Admission, request: Request)
    requires Ticketed(s) && Partitioned(s) && Attended(s) && Told(s) && s.nextTicket < U64_MAX
    requires request.operationId !in s.selected && request.operationId !in s.cancelled
    ensures Ticketed(Enqueue(s, request)) && Partitioned(Enqueue(s, request))
    ensures Attended(Enqueue(s, request)) && Told(Enqueue(s, request))
  {
    hide Partitioned, Increasing;
    EnqueueIds(s, request);
    var e := Enqueue(s, request);
    var leaf := QueuedLeaf(s.nextTicket, s.config.revision, request);
    assert forall x :: x in e.queue <==> x in s.queue || x == leaf;
    forall t | t in e.waiters && !Queued(e.queue, t)
      ensures t in s.waiters && !Queued(s.queue, t)
    {
      assert leaf in e.queue;
      assert forall x :: x in s.queue ==> x in e.queue;
    }
  }

  lemma EnqueueBudgets(s: Admission, request: Request)
    requires Accounted(s) && FenceHolds(s)
    requires SubmissionError(s, request).None? && DistinctLanes(request.lanes)
    ensures Accounted(Enqueue(s, request)) && FenceHolds(Enqueue(s, request))
  {
    var e := Enqueue(s, request);
    forall x | x in e.queue ensures QueuedOk(e, x.request) && Unfenced(e, x.request) {
      if x in s.queue {
        assert QueuedOk(s, x.request) && Unfenced(s, x.request);
      }
    }
  }

  lemma EnqueueHeld(s: Admission, request: Request)
    requires forall pool :: Held(s, pool) <= U64_MAX
    requires SubmissionError(s, request).None?
    ensures forall pool :: Held(Enqueue(s, request), pool) == Held(s, pool) + BytesOf(request, pool) <= U64_MAX
  {
    hide Sum, LeafBytes;
    forall pool ensures Held(Enqueue(s, request), pool) == Held(s, pool) + BytesOf(request, pool) <= U64_MAX {
      QueuedBytesAppend(s.queue, QueuedLeaf(s.nextTicket, s.config.revision, request), pool);
      assert Held(s, pool) <= U64_MAX;
    }
  }

  lemma EnqueueAwake(s: Admission, request: Request)
    requires Ticketed(s) && Awake(s)
    ensures Awake(Enqueue(s, request))
  {
    hide CanFit, FirstFit;
    var e := Enqueue(s, request);
    var leaf := QueuedLeaf(s.nextTicket, s.config.revision, request);
    if NextAdmissible(e) != Some(leaf.ticket) {
      NextWithout(e.config, e.active, e.draining, e.queue, leaf.ticket);
      WithoutLast(s.queue, leaf);
    }
  }

  /** Leaving the queue without a turn needs no notification. */
  lemma WithdrawBase(s: Admission, ticket: U64, request: Request)
    requires Base(s) && Told(s)
    requires ticket in s.waiters && s.waiters[ticket].request == request
    ensures Base(Withdraw(s, ticket, request)) && Told(Withdraw(s, ticket, request))
  {
    hide Accounted, FenceHolds, Told, Held, Retained, Increasing, DistinctIds, QueueIds, Without, Queued;
    var w := Withdraw(s, ticket, request);
    WithdrawIds(s, w, ticket, request.operationId);
    WithdrawBudgets(s, ticket, request);
    WithdrawThreads(s, w, ticket);
    WithdrawHeld(s, ticket, request);
  }

  lemma WithdrawKeeps(s: Admission, ticket: U64, request: Request)
    requires Inv(s)
    requires ticket in s.waiters && s.waiters[ticket].request == request
    requires NextAdmissible(s) != Some(ticket)
    ensures Inv(Withdraw(s, ticket, request))
  {
    hide Core, FenceHolds, Told, FirstFit, Retained;
    WithdrawBase(s, ticket, request);
    NextWithout(s.config, s.active, s.draining, s.queue, ticket);
  }

  lemma WithdrawHeld(s: Admission, ticket: U64, request: Request)
    ensures forall pool :: Held(Withdraw(s, ticket, request), pool) <= Held(s, pool)
  {
    hide Sum, LeafBytes, Retained;
    forall pool ensures Held(Withdraw(s, ticket, request), pool) <= Held(s, pool) {
      QueuedBytesWithout(s.queue, ticket, pool);
    }
  }

  lemma WithdrawThreads(s: Admission, w: Admission, ticket: U64)
    requires Ticketed(s) && Attended(s) && Told(s)
    requires w.queue == Without(s.queue, ticket) && w.waiters == s.waiters - {ticket}
    requires w.selected <= s.selected && w.cancelled == s.cancelled && w.nextTicket == s.nextTicket
    ensures Ticketed(w) && Attended(w) && Told(w)
  {
    WithoutMembers(s.queue, ticket);
    forall t | t in w.waiters && !Queued(w.queue, t)
      ensures !Queued(s.queue, t)
    {
      assert forall x :: x in s.queue && x.ticket == t ==> x in w.queue;
    }
  }

  lemma WithdrawIds(s: Admission, w: Admission, ticket: U64, id: Id)
    requires Increasing(s.queue) && Partitioned(s)
    requires w.queue == Without(s.queue, ticket) && w.selected == s.selected - {id}
    requires w.active == s.active && w.draining == s.draining
    requires forall x :: x in s.queue && x.ticket == ticket ==> x.request.operationId == id
    requires !Queued(s.queue, ticket) ==> id !in s.selected
    ensures Partitioned(w)
  {
    WithoutMembers(s.queue, ticket);
    if Queued(s.queue, ticket) {
      var x :| x in s.queue && x.ticket == ticket;
      RemoveId(s.queue, w.queue, x);
    } else {
      WithoutNothing(s.queue, ticket);
    }
  }

  /** Taking the only leaf of an operation out of the queue takes its id out of the queued ids. */
  lemma RemoveId(q: seq<QueuedLeaf>, p: seq<QueuedLeaf>, leaf: QueuedLeaf)
    requires Increasing(q) && DistinctIds(q) && leaf in q
    requires forall x :: x in p <==> x in q && x.ticket != leaf.ticket
    ensures DistinctIds(p)
    ensures QueueIds(p) == QueueIds(q) - {leaf.request.operationId}
    ensures leaf.request.operationId in QueueIds(q)
  {
  }

  lemma WithdrawBudgets(s: Admission, ticket: U64, request: Request)
    requires Accounted(s) && FenceHolds(s)
    ensures Accounted(Withdraw(s, ticket, request)) && FenceHolds(Withdraw(s, ticket, request))
  {
    hide Retained;
    WithoutMembers(s.queue, ticket);
    var removed := s.(
      queue := Without(s.queue, ticket),
      selected := s.selected - {request.operationId},
      waiters := s.waiters - {ticket});
    assert Accounted(removed);
    CleanupKeeps(removed, ScopeOf(request));
  }

  lemma CleanupKeeps(s: Admission, scope: Id)
    requires Accounted(s)
    ensures Accounted(CleanupScope(s, scope))
  {
    var c := CleanupScope(s, scope);
    if !Retained(s, scope) {
      forall x | x in s.queue ensures QueuedOk(c, x.request) {
        assert ScopeOf(x.request) in QueueScopes(s.queue);
      }
    }
  }

  /** Admission: the leaf changes place, the operation stays selected and everybody is notified. */
  lemma AdmitKeeps(s: Admission, ticket: U64, request: Request)
    requires Inv(s) && Queued(s.queue, ticket)
    requires ticket in s.waiters && s.waiters[ticket].request == request
    ensures Inv(Admit(s, ticket, request))
  {
    hide Accounted, FenceHolds, Told, Held, CanFit, FirstFit, Retained;
    var leaf := LeafAt(s.queue, ticket);
    var id := leaf.request.operationId;
    var a := s.(
      queue := Without(s.queue, ticket),
      usage := s.usage[id := UsageRecord(ScopeOf(request), leaf.submittedRevision, s.config.revision, NOTHING, false)],
      active := s.active[id := ActiveLeaf(ticket, leaf.submittedRevision, s.config.revision, leaf.request, false)],
      waiters := s.waiters - {ticket});
    LeafAtIsQueued(s.queue, ticket);
    FirstIsOnly(s.queue, ticket);
    AdmitIds(s, a, leaf);
    AdmitBudgets(s, a, leaf);
    AdmitThreads(s, a, ticket);
    AdmitHeld(s, a, leaf);
    NotifyKeeps(a);
  }

  lemma AdmitIds(s: Admission, a: Admission, leaf: QueuedLeaf)
    requires Ticketed(s) && Partitioned(s) && leaf in s.queue
    requires a.queue == Without(s.queue, leaf.ticket) && a.selected == s.selected && a.draining == s.draining
    requires a.active.Keys == s.active.Keys + {leaf.request.operationId}
    requires a.nextTicket == s.nextTicket && a.waiters.Keys <= s.waiters.Keys
    ensures Ticketed(a) && Partitioned(a)
    ensures forall x :: x in a.queue <==> x in s.queue && x.ticket != leaf.ticket
    ensures forall x :: x in a.queue ==> x.request.operationId != leaf.request.operationId
    ensures leaf.request.operationId !in s.active
  {
    WithoutMembers(s.queue, leaf.ticket);
    RemoveId(s.queue, a.queue, leaf);
    forall x | x in a.queue ensures x.request.operationId != leaf.request.operationId {
      assert x.request.operationId in QueueIds(a.queue);
    }
  }

  lemma AdmitBudgets(s: Admission, a: Admission, leaf: QueuedLeaf)
    requires Partitioned(s) && Accounted(s) && FenceHolds(s) && leaf in s.queue
    requires forall x :: x in a.queue ==> x in s.queue && x.request.operationId != leaf.request.operationId
    requires a.active.Keys == s.active.Keys + {leaf.request.operationId}
    requires forall k :: k in s.active && k != leaf.request.operationId ==> a.active[k] == s.active[k]
    requires a.active[leaf.request.operationId].request == leaf.request
    requires a.usage.Keys == s.usage.Keys + {leaf.request.operationId}
    requires forall k :: k in s.usage && k != leaf.request.operationId ==> a.usage[k] == s.usage[k]
    requires a.usage[leaf.request.operationId].scope == ScopeOf(leaf.request)
    requires a.draining == s.draining && a.cancelled == s.cancelled && a.fencedParents == s.fencedParents
    requires a.scopeBudgets == s.scopeBudgets
    ensures Accounted(a) && FenceHolds(a)
  {
    hide Recorded;
    assert QueuedOk(s, leaf.request);
    assert leaf.request.operationId in QueueIds(s.queue);
    RecordedMore(s.active, a.active, leaf.request, s.usage, a.usage, s.scopeBudgets);
    StillRecorded(s.draining, leaf.request.operationId, s.usage, a.usage, s.scopeBudgets);
    forall x | x in a.queue ensures QueuedOk(a, x.request) {
      assert QueuedOk(s, x.request);
    }
  }

  /** Leaves keep their records when one for another operation is added. */
  lemma StillRecorded(leaves: map<Id, ActiveLeaf>, id: Id, usage: map<Id, UsageRecord>, more: map<Id, UsageRecord>, budgets: map<Id, Amounts>)
    requires Recorded(leaves, usage, budgets) && id !in usage
    requires forall k :: k in usage ==> k in more && more[k] == usage[k]
    ensures Recorded(leaves, more, budgets)
  {
  }

  lemma RecordedMore(leaves: map<Id, ActiveLeaf>, more: map<Id, ActiveLeaf>, r: Request, usage: map<Id, UsageRecord>,
                     used: map<Id, UsageRecord>, budgets: map<Id, Amounts>)
    requires Recorded(leaves, usage, budgets) && r.operationId !in usage && r.operationId in used && r.operationId in more
    requires forall k :: k in more ==> k == r.operationId || (k in leaves && more[k] == leaves[k])
    requires forall k :: k in usage ==> k in used && used[k] == usage[k]
    requires more[r.operationId].request == r && DistinctLanes(r.lanes) && used[r.operationId].scope == ScopeOf(r)
    requires ScopeOf(r) in budgets && budgets[ScopeOf(r)] == r.budget
    ensures Recorded(more, used, budgets)
  {
  }

  lemma AdmitThreads(s: Admission, a: Admission, ticket: U64)
    requires Attended(s)
    requires forall x :: x in a.queue <==> x in s.queue && x.ticket != ticket
    requires a.waiters == s.waiters - {ticket} && a.selected == s.selected && a.cancelled == s.cancelled
    ensures Attended(a)
  {
  }

  lemma AdmitHeld(s: Admission, a: Admission, leaf: QueuedLeaf)
    requires Increasing(s.queue) && Queued(s.queue, leaf.ticket) && leaf == LeafAt(s.queue, leaf.ticket)
    requires leaf.request.operationId !in s.active
    requires a.queue == Without(s.queue, leaf.ticket)
    requires leaf.request.operationId in a.active && a.active[leaf.request.operationId].request == leaf.request
    requires a.active == s.active[leaf.request.operationId := a.active[leaf.request.operationId]]
    requires a.draining == s.draining
    ensures forall pool :: Held(a, pool) == Held(s, pool)
  {
    forall pool ensures Held(a, pool) == Held(s, pool) {
      QueuedBytesWithout(s.queue, leaf.ticket, pool);
      SumPut(s.active, LeafBytes(pool), leaf.request.operationId, a.active[leaf.request.operationId]);
    }
  }

  lemma SleepKeeps(s: Admission, ticket: U64, request: Request)
    requires Inv(s) && Queued(s.queue, ticket)
    requires ticket in s.waiters && s.waiters[ticket].request == request
    requires NextAdmissible(s) != Some(ticket)
    ensures Inv(Sleep(s, ticket, request))
  {
    hide Ticketed, Partitioned, Accounted, FenceHolds, Attended, Told, Held, CanFit, FirstFit;
    OnlyThreads(s, Sleep(s, ticket, request));
    SleepThreads(s, ticket, request);
  }

  lemma SleepThreads(s: Admission, ticket: U64, request: Request)
    requires Ticketed(s) && Attended(s) && Told(s) && Queued(s.queue, ticket)
    requires ticket in s.waiters && s.waiters[ticket].request == request
    ensures Ticketed(Sleep(s, ticket, request)) && Attended(Sleep(s, ticket, request)) && Told(Sleep(s, ticket, request))
  {
  }

  lemma LeaveKeeps(s: Admission, ticket: U64)
    requires Inv(s) && !Queued(s.queue, ticket)
    ensures Inv(Leave(s, ticket))
  {
    hide Partitioned, Accounted, FenceHolds, Held, CanFit, FirstFit;
    var n := Leave(s, ticket);
    OnlyThreads(s, n);
    NextIsQueued(s);
    assert Attended(n) && Told(n);
  }

  lemma ReconfigureKeeps(s: Admission, config: Config)
    requires Inv(s)
    ensures Inv(Reconfigure(s, config).0)
  {
    hide Sum, LeafBytes, QueuedBytes, CanFit, FirstFit, Retained;
    if Reconfigure(s, config).1.Done? {
      var room := if config.maxQueued < |s.queue| then |s.queue| else config.maxQueued;
      var n := s.(config := config.(maxQueued := room));
      forall pool ensures Held(n, pool) <= U64_MAX {
        assert Held(n, pool) == Held(s, pool);
      }
      NotifyKeeps(n);
    }
  }

  /** The same operations with the same requests; marks may differ. */
  ghost predicate SameRequests(a: map<Id, ActiveLeaf>, b: map<Id, ActiveLeaf>) {
    a.Keys == b.Keys && forall k :: k in a ==> a[k].request == b[k].request
  }

  ghost predicate Relabelled(s: Admission, n: Admission) {
    && n == s.(active := n.active, draining := n.draining)
    && SameRequests(s.active, n.active) && SameRequests(s.draining, n.draining)
  }

  lemma SameHoldings(a: map<Id, ActiveLeaf>, b: map<Id, ActiveLeaf>, pool: Pool, lane: Id)
    requires SameRequests(a, b)
    ensures |a| == |b| && Sum(a, LeafBytes(pool)) == Sum(b, LeafBytes(pool)) && Sum(a, LeafUnits(lane)) == Sum(b, LeafUnits(lane))
  {
    hide Sum, UnitsOn;
    CountKeys(a, b);
    SumCongruent(a, b, LeafBytes(pool), LeafBytes(pool));
    SumCongruent(a, b, LeafUnits(lane), LeafUnits(lane));
  }

  lemma SameRecords(a: map<Id, ActiveLeaf>, b: map<Id, ActiveLeaf>, usage: map<Id, UsageRecord>, budgets: map<Id, Amounts>)
    requires SameRequests(a, b) && Recorded(a, usage, budgets)
    ensures Recorded(b, usage, budgets)
  {
  }

  lemma RelabelHeld(s: Admission, n: Admission, pool: Pool)
    requires Relabelled(s, n)
    ensures Held(n, pool) == Held(s, pool)
  {
    hide Sum, LeafBytes, QueuedBytes, SameRequests;
    SameHoldings(s.active, n.active, pool, "");
    SameHoldings(s.draining, n.draining, pool, "");
  }

  lemma RelabelAccounted(s: Admission, n: Admission)
    requires Accounted(s) && Relabelled(s, n)
    ensures Accounted(n)
  {
    hide Recorded;
    SameRecords(s.active, n.active, s.usage, s.scopeBudgets);
    SameRecords(s.draining, n.draining, s.usage, s.scopeBudgets);
  }

  /** Active or draining leaves may change in place as long as they keep their requests. */
  lemma RelabelKeeps(s: Admission, n: Admission)
    requires Base(s) && Relabelled(s, n)
    ensures Base(n)
  {
    hide Held, Accounted;
    RelabelAccounted(s, n);
    forall pool ensures Held(n, pool) <= U64_MAX {
      RelabelHeld(s, n, pool);
    }
  }

  lemma RelabelOne(leaves: map<Id, ActiveLeaf>, id: Id, inFlight: bool)
    requires id in leaves
    ensures SameRequests(leaves, leaves[id := leaves[id].(providerInFlight := inFlight)])
  {
  }

  lemma SetInFlightKeeps(s: Admission, id: Id, inFlight: bool)
    requires Inv(s)
    ensures Inv(SetProviderInFlight(s, id, inFlight).0)
  {
    hide Ticketed, Partitioned, Accounted, FenceHolds, Attended, Told, Held, Awake;
    if SetProviderInFlight(s, id, inFlight).1.Done? {
      if id in s.active {
        var n := s.(active := s.active[id := s.active[id].(providerInFlight := inFlight)]);
        RelabelKeeps(s, n);
        NotifyKeeps(n);
      } else {
        var n := s.(draining := s.draining[id := s.draining[id].(providerInFlight := inFlight)]);
        RelabelKeeps(s, n);
        NotifyKeeps(n);
      }
    }
  }

  /** A leaf that is active or draining gives everything back. */
  lemma GiveBackIds(s: Admission, n: Admission, id: Id)
    requires Ticketed(s) && Partitioned(s) && Accounted(s) && Attended(s) && FenceHolds(s)
    requires id in s.active || id in s.draining
    requires n == s.(active := s.active - {id}, draining := s.draining - {id}, selected := s.selected - {id})
    ensures Ticketed(n) && Partitioned(n) && Attended(n) && FenceHolds(n)
  {
    hide Partitioned, Accounted, Queued;
    GiveBackParts(s, n, id);
  }

  lemma GiveBackParts(s: Admission, n: Admission, id: Id)
    requires Partitioned(s) && (id in s.active || id in s.draining)
    requires n == s.(active := s.active - {id}, draining := s.draining - {id}, selected := s.selected - {id})
    ensures Partitioned(n)
  {
    hide DistinctIds, QueueIds;
  }

  lemma GiveBackBudgets(s: Admission, n: Admission, id: Id)
    requires Accounted(s)
    requires n == s.(active := s.active - {id}, draining := s.draining - {id}, selected := s.selected - {id})
    ensures Accounted(n)
  {
  }

  lemma SumShrinks(m: map<Id, ActiveLeaf>, id: Id, f: ActiveLeaf -> nat)
    ensures Sum(m - {id}, f) <= Sum(m, f)
  {
    if id in m { SumRemove(m, f, id); } else { assert m - {id} == m; }
  }

  lemma GiveBackKeeps(s: Admission, n: Admission, id: Id)
    requires Base(s) && (id in s.active || id in s.draining)
    requires n == s.(active := s.active - {id}, draining := s.draining - {id}, selected := s.selected - {id})
    ensures Base(n)
  {
    hide Sum, LeafBytes, QueuedBytes, Ticketed, Partitioned, Accounted, FenceHolds, Attended;
    GiveBackIds(s, n, id);
    GiveBackBudgets(s, n, id);
    forall pool ensures Held(n, pool) <= U64_MAX {
      SumShrinks(s.active, id, LeafBytes(pool));
      SumShrinks(s.draining, id, LeafBytes(pool));
      assert Held(s, pool) <= U64_MAX;
    }
  }

  lemma ReleaseKeeps(s: Admission, id: Id)
    requires Inv(s)
    ensures Inv(ReleaseActive(s, id).0)
  {
    hide Ticketed, Accounted, FenceHolds, Attended, Told, Held, Awake;
    if id in s.active {
      var n := s.(active := s.active - {id}, draining := s.draining - {id}, selected := s.selected - {id});
      GiveBackKeeps(s, n, id);
      NotifyKeeps(n);
      assert s.draining - {id} == s.draining;
    }
  }

  lemma ReconcileKeeps(s: Admission, id: Id)
    requires Inv(s)
    ensures Inv(ReconcileDraining(s, id).0)
  {
    hide Ticketed, Accounted, FenceHolds, Attended, Told, Held, Awake;
    if ReconcileDraining(s, id).1.Done? {
      var n := s.(active := s.active - {id}, draining := s.draining - {id}, selected := s.selected - {id});
      GiveBackKeeps(s, n, id);
      NotifyKeeps(n);
      assert s.active - {id} == s.active;
    }
  }

  /** Moving leaves from active to draining moves their share of every sum with them. */
  lemma {:induction false} SumMoves(active: map<Id, ActiveLeaf>, draining: map<Id, ActiveLeaf>, ids: set<Id>, f: ActiveLeaf -> nat)
    requires ids <= active.Keys && active.Keys !! draining.Keys
    ensures Sum(active - ids, f) + Sum(draining + Chosen(active, ids), f) == Sum(active, f) + Sum(draining, f)
    decreases ids
  {
    hide Sum, Chosen;
    if ids == {} {
      assert active - ids == active;
      assert draining + Chosen(active, ids) == draining;
    } else {
      var id :| id in ids;
      var rest := ids - {id};
      SumMoves(active, draining, rest, f);
      SumRemove(active - rest, f, id);
      assert active - rest - {id} == active - ids;
      SumPut(draining + Chosen(active, rest), f, id, active[id]);
      assert (draining + Chosen(active, rest))[id := active[id]] == draining + Chosen(active, ids);
    }
  }

  lemma DrainKeeps(s: Admission, ids: set<Id>)
    requires Core(s) && ids <= s.active.Keys
    ensures Core(DrainAll(s, ids))
    ensures FenceHolds(s) ==> FenceHolds(DrainAll(s, ids))
  {
    hide Sum, LeafBytes, QueuedBytes, Accounted, Chosen;
    var n := DrainAll(s, ids);
    assert n.draining.Keys == s.draining.Keys + ids;
    assert Partitioned(n);
    DrainBudgets(s, ids);
    assert Attended(n);
    forall pool ensures Held(n, pool) <= U64_MAX {
      SumMoves(s.active, s.draining, ids, LeafBytes(pool));
      assert Held(s, pool) <= U64_MAX;
    }
  }

  lemma DrainBudgets(s: Admission, ids: set<Id>)
    requires Partitioned(s) && Accounted(s) && ids <= s.active.Keys
    ensures Accounted(DrainAll(s, ids))
  {
    hide MarkUnknown, Chosen, QueuedOk, Recorded, Partitioned;
    var n := DrainAll(s, ids);
    DrainRecords(s.active, s.draining, ids, s.usage, n.usage, s.scopeBudgets);
    forall x | x in n.queue ensures QueuedOk(n, x.request) {
      DrainQueued(s, ids, x);
    }
  }

  lemma DrainRecords(active: map<Id, ActiveLeaf>, draining: map<Id, ActiveLeaf>, ids: set<Id>,
                     usage: map<Id, UsageRecord>, marked: map<Id, UsageRecord>, budgets: map<Id, Amounts>)
    requires ids <= active.Keys && Recorded(active, usage, budgets) && Recorded(draining, usage, budgets)
    requires marked.Keys == usage.Keys && forall k :: k in usage ==> marked[k].scope == usage[k].scope
    ensures Recorded(active - ids, marked, budgets) && Recorded(draining + Chosen(active, ids), marked, budgets)
  {
    hide Chosen;
  }

  lemma DrainQueued(s: Admission, ids: set<Id>, x: QueuedLeaf)
    requires Partitioned(s) && ids <= s.active.Keys && x in s.queue && QueuedOk(s, x.request)
    ensures QueuedOk(DrainAll(s, ids), x.request)
  {
  }

  lemma MoveKeeps(s: Admission, id: Id)
    requires Inv(s)
    ensures Inv(MoveToDraining(s, id).0)
  {
    hide Ticketed, Partitioned, Accounted, Attended, Told, Held, Awake;
    if id in s.active {
      DrainKeeps(s, {id});
      NotifyKeeps(DrainAll(s, {id}));
    }
  }

  // ----- fencing a parent -----

  lemma {:induction false} ChildrenMembers(q: seq<QueuedLeaf>, parent: Id)
    ensures forall x :: x in ChildrenOf(q, parent) <==> x in q && x.request.parent == Some(parent)
    ensures forall x :: x in NotChildrenOf(q, parent) <==> x in q && x.request.parent != Some(parent)
    ensures ChildrenOf(q, parent) == [] ==> NotChildrenOf(q, parent) == q
  {
    if q != [] {
      ChildrenMembers(q[1..], parent);
      assert q == [q[0]] + q[1..];
    }
  }

  lemma {:induction false} ChildrenOrder(q: seq<QueuedLeaf>, parent: Id)
    requires Increasing(q)
    ensures Increasing(NotChildrenOf(q, parent))
  {
    if q != [] {
      TailIncreasing(q);
      ChildrenOrder(q[1..], parent);
      if q[0].request.parent != Some(parent) {
        ChildrenMembers(q[1..], parent);
        ConsIncreasing(q[0], NotChildrenOf(q[1..], parent));
      }
    }
  }

  lemma {:induction false} ChildrenBytes(q: seq<QueuedLeaf>, parent: Id, pool: Pool)
    ensures QueuedBytes(NotChildrenOf(q, parent), pool) <= QueuedBytes(q, pool)
  {
    if q != [] {
      ChildrenBytes(q[1..], parent, pool);
      if q[0].request.parent != Some(parent) {
        assert NotChildrenOf(q, parent)[1..] == NotChildrenOf(q[1..], parent);
      }
    }
  }

  lemma FenceQueueKeeps(s: Admission, parent: Id)
    requires Core(s)
    ensures Core(FenceQueue(s, parent))
  {
    hide Sum, LeafBytes, Ticketed, Partitioned, Accounted, Attended, Retained;
    var f := FenceQueue(s, parent);
    FenceIds(s, parent);
    FenceBudgets(s, parent);
    FenceThreads(s, parent);
    forall pool ensures Held(f, pool) <= U64_MAX {
      ChildrenBytes(s.queue, parent, pool);
      assert Held(s, pool) <= U64_MAX;
    }
  }

  lemma FenceIds(s: Admission, parent: Id)
    requires Partitioned(s)
    ensures Partitioned(FenceQueue(s, parent))
    ensures QueueIds(ChildrenOf(s.queue, parent)) !! QueueIds(NotChildrenOf(s.queue, parent))
  {
    ChildrenMembers(s.queue, parent);
    var gone, kept := ChildrenOf(s.queue, parent), NotChildrenOf(s.queue, parent);
    assert QueueIds(s.queue) == QueueIds(gone) + QueueIds(kept);
  }

  lemma FenceBudgets(s: Admission, parent: Id)
    requires Partitioned(s) && Accounted(s)
    ensures Accounted(FenceQueue(s, parent))
  {
    var f := FenceQueue(s, parent);
    ChildrenMembers(s.queue, parent);
    FenceIds(s, parent);
    forall x | x in f.queue ensures QueuedOk(f, x.request) {
      assert QueuedOk(s, x.request);
      assert ScopeOf(x.request) in QueueScopes(f.queue);
      assert x.request.operationId in QueueIds(f.queue);
    }
  }

  lemma FenceThreads(s: Admission, parent: Id)
    requires Ticketed(s) && Partitioned(s) && Attended(s)
    ensures Ticketed(FenceQueue(s, parent)) && Attended(FenceQueue(s, parent))
  {
    var f := FenceQueue(s, parent);
    ChildrenMembers(s.queue, parent);
    ChildrenOrder(s.queue, parent);
    FenceIds(s, parent);
    forall t | t in f.waiters && !Queued(f.queue, t)
      ensures f.waiters[t].request.operationId !in f.selected && f.waiters[t].request.operationId in f.cancelled
    {
      if Queued(s.queue, t) {
        var x :| x in s.queue && x.ticket == t;
        assert x !in f.queue;
        assert x in ChildrenOf(s.queue, parent);
        assert x.request.operationId in QueueIds(ChildrenOf(s.queue, parent));
      }
    }
  }

  /** After the fence no leaf of the parent is queued or active. */
  lemma FenceExcludes(s: Admission, parent: Id)
    requires FenceHolds(s)
    ensures FenceHolds(Fence(s, parent).0)
  {
    ChildrenMembers(s.queue, parent);
  }

  lemma FenceBase(s: Admission, parent: Id)
    requires Base(s)
    ensures Base(DrainAll(FenceQueue(s, parent), ActiveChildren(s.active, parent)))
  {
    hide Ticketed, Partitioned, Accounted, Attended, Told, Held, Awake, Retained;
    FenceQueueKeeps(s, parent);
    DrainKeeps(FenceQueue(s, parent), ActiveChildren(s.active, parent));
    FenceExcludes(s, parent);
  }

  lemma FenceKeeps(s: Admission, parent: Id)
    requires Inv(s)
    ensures Inv(Fence(s, parent).0)
  {
    hide Ticketed, Partitioned, Accounted, Attended, FenceHolds, Told, Held, Awake, Retained, DrainAll;
    FenceBase(s, parent);
    if ChildrenOf(s.queue, parent) != [] || ActiveChildren(s.active, parent) != {} {
      NotifyKeeps(DrainAll(FenceQueue(s, parent), ActiveChildren(s.active, parent)));
    } else {
      FenceNobody(s, parent);
    }
  }

  lemma FenceNobody(s: Admission, parent: Id)
    requires ChildrenOf(s.queue, parent) == [] && ActiveChildren(s.active, parent) == {}
    requires Told(s) && Awake(s)
    ensures Told(Fence(s, parent).0) && Awake(Fence(s, parent).0)
  {
    hide Fence, FirstFit, Queued;
    NobodyMoves(s, parent);
  }

  lemma NobodyMoves(s: Admission, parent: Id)
    requires ChildrenOf(s.queue, parent) == [] && ActiveChildren(s.active, parent) == {}
    ensures var f := Fence(s, parent).0;
            f.active == s.active && f.draining == s.draining && f.queue == s.queue && f.config == s.config && f.waiters == s.waiters
  {
    hide MarkUnknown, Retained;
    NoChildren(s.queue, parent);
  }

  lemma {:induction false} NoChildren(q: seq<QueuedLeaf>, parent: Id)
    requires ChildrenOf(q, parent) == []
    ensures NotChildrenOf(q, parent) == q
  {
    if q != [] { NoChildren(q[1..], parent); }
  }

  // ----- charging -----

  lemma OnlyUsage(s: Admission, n: Admission)
    requires n == s.(usage := n.usage)
    ensures Partitioned(s) ==> Partitioned(n)
    ensures FenceHolds(s) ==> FenceHolds(n)
    ensures NextAdmissible(n) == NextAdmissible(s)
    ensures forall pool :: Held(n, pool) == Held(s, pool)
  {
    hide Sum, LeafBytes, QueuedBytes, CanFit, FirstFit;
  }

  lemma ChargeBudgets(s: Admission, id: Id, delta: Amounts)
    requires Accounted(s)
    ensures Accounted(Charge(s, id, delta).0)
  {
    hide ScopeTotal, FirstExceeded;
    var n := Charge(s, id, delta).0;
    assert n.usage.Keys == s.usage.Keys;
    assert forall k :: k in s.usage ==> n.usage[k].scope == s.usage[k].scope;
    forall x | x in n.queue ensures QueuedOk(n, x.request) {
      assert QueuedOk(s, x.request);
    }
  }

  lemma ChargeKeeps(s: Admission, id: Id, delta: Amounts)
    requires Inv(s)
    ensures Inv(Charge(s, id, delta).0)
  {
    hide Accounted, Partitioned, FenceHolds, Held, CanFit, FirstFit, FirstExceeded;
    ChargeBudgets(s, id, delta);
    OnlyUsage(s, Charge(s, id, delta).0);
  }
}
