/** Occupancy of slots, lanes, queue and byte pools against the configured caps. */
module AdmissionCapacity {
  import opened Common
  import opened AdmissionModel
  import opened AdmissionInvariant
  import opened AdmissionSteps
  import opened AdmissionTheorems

  ghost function Used(s: Admission, lane: Id): nat {
    LaneUsed(s.active, s.draining, lane)
  }

  /** No occupancy is higher in `n` than in `s`. */
  ghost predicate NoHigher(s: Admission, n: Admission, pool: Pool, lane: Id) {
    && Slots(n) <= Slots(s) && |n.queue| <= |s.queue|
    && Held(n, pool) <= Held(s, pool)
    && Used(n, lane) <= Used(s, lane)
  }

  /** A lane is within its cap; a cap of `usize::MAX` cannot be enforced, see `LaneCapIff`. */
  ghost predicate LaneWithin(s: Admission, lane: Id) {
    lane in s.config.laneCaps && (s.config.laneCaps[lane] < U64_MAX ==> Used(s, lane) <= s.config.laneCaps[lane])
  }

  /** Whatever is higher in `n` than in `s` is within the caps that hold in `n`. */
  ghost predicate RaisedWithin(s: Admission, n: Admission, pool: Pool, lane: Id) {
    && (Slots(n) > Slots(s) ==> Slots(n) <= n.config.globalMaxActive)
    && (|n.queue| > |s.queue| ==> |n.queue| <= n.config.maxQueued)
    && (Held(n, pool) > Held(s, pool) ==> Held(n, pool) <= PoolCap(n.config, pool))
    && (Used(n, lane) > Used(s, lane) ==> LaneWithin(n, lane))
  }

  // ----- steps that raise nothing -----

  lemma WithdrawNoHigher(s: Admission, ticket: U64, request: Request, pool: Pool, lane: Id)
    ensures NoHigher(s, Withdraw(s, ticket, request), pool, lane)
  {
    hide Sum, LeafBytes, LaneUsed, Retained;
    QueuedBytesWithout(s.queue, ticket, pool);
    WithoutMembers(s.queue, ticket);
  }

  lemma RelabelNoHigher(s: Admission, n: Admission, pool: Pool, lane: Id)
    requires n.queue == s.queue && SameRequests(s.active, n.active) && SameRequests(s.draining, n.draining)
    ensures NoHigher(s, n, pool, lane)
  {
    hide Sum, LeafBytes, LeafUnits, SameRequests;
    SameHoldings(s.active, n.active, pool, lane);
    SameHoldings(s.draining, n.draining, pool, lane);
  }

  lemma GiveBackNoHigher(s: Admission, n: Admission, id: Id, pool: Pool, lane: Id)
    requires n.queue == s.queue && n.active == s.active - {id} && n.draining == s.draining - {id}
    ensures NoHigher(s, n, pool, lane)
  {
    hide Sum, UnitsOn;
    CountMinus(s.active, {id});
    CountMinus(s.draining, {id});
    SumShrinks(s.active, id, LeafBytes(pool));
    SumShrinks(s.draining, id, LeafBytes(pool));
    SumShrinks(s.active, id, LeafUnits(lane));
    SumShrinks(s.draining, id, LeafUnits(lane));
  }

  lemma MoveCount(active: map<Id, ActiveLeaf>, draining: map<Id, ActiveLeaf>, ids: set<Id>)
    requires ids <= active.Keys && active.Keys !! draining.Keys
    ensures |active - ids| + |draining + Chosen(active, ids)| == |active| + |draining|
  {
  }

  lemma MoveTotals(q: seq<QueuedLeaf>, active: map<Id, ActiveLeaf>, draining: map<Id, ActiveLeaf>, ids: set<Id>,
                   pool: Pool, lane: Id)
    requires ids <= active.Keys && active.Keys !! draining.Keys
    ensures HeldBy(q, active - ids, draining + Chosen(active, ids), pool) == HeldBy(q, active, draining, pool)
    ensures LaneUsed(active - ids, draining + Chosen(active, ids), lane) == LaneUsed(active, draining, lane)
  {
    hide Sum, Chosen, LeafBytes, LeafUnits;
    SumMoves(active, draining, ids, LeafBytes(pool));
    SumMoves(active, draining, ids, LeafUnits(lane));
  }

  /** Draining keeps exactly what was held. */
  lemma DrainSame(s: Admission, ids: set<Id>, pool: Pool, lane: Id)
    requires ids <= s.active.Keys && s.active.Keys !! s.draining.Keys
    ensures var n := DrainAll(s, ids);
            Slots(n) == Slots(s) && Held(n, pool) == Held(s, pool) && Used(n, lane) == Used(s, lane)
  {
    hide HeldBy, LaneUsed, Chosen, MarkUnknown;
    MoveCount(s.active, s.draining, ids);
    MoveTotals(s.queue, s.active, s.draining, ids, pool, lane);
  }

  lemma {:induction false} ChildrenCount(q: seq<QueuedLeaf>, parent: Id)
    ensures |ChildrenOf(q, parent)| + |NotChildrenOf(q, parent)| == |q|
  {
    if q != [] {
      ChildrenCount(q[1..], parent);
    }
  }

  lemma FenceQueueNoHigher(s: Admission, parent: Id, pool: Pool, lane: Id)
    ensures NoHigher(s, FenceQueue(s, parent), pool, lane)
  {
    hide Sum, LeafBytes, LaneUsed, Retained;
    ChildrenCount(s.queue, parent);
    ChildrenBytes(s.queue, parent, pool);
  }

  lemma FenceNoHigher(s: Admission, parent: Id, pool: Pool, lane: Id)
    requires s.active.Keys !! s.draining.Keys
    ensures NoHigher(s, Fence(s, parent).0, pool, lane)
  {
    hide HeldBy, LaneUsed, Retained, MarkUnknown, Chosen;
    FenceQueueNoHigher(s, parent, pool, lane);
    DrainSame(FenceQueue(s, parent), ActiveChildren(s.active, parent), pool, lane);
  }

  lemma ReleaseNoHigher(s: Admission, id: Id, pool: Pool, lane: Id)
    requires s.active.Keys !! s.draining.Keys
    ensures NoHigher(s, ReleaseActive(s, id).0, pool, lane)
  {
    hide HeldBy, LaneUsed;
    if id in s.active {
      assert s.draining - {id} == s.draining;
      GiveBackNoHigher(s, ReleaseActive(s, id).0, id, pool, lane);
    }
  }

  lemma ReconcileNoHigher(s: Admission, id: Id, pool: Pool, lane: Id)
    requires s.active.Keys !! s.draining.Keys
    ensures NoHigher(s, ReconcileDraining(s, id).0, pool, lane)
  {
    hide HeldBy, LaneUsed;
    if id in s.draining && !s.draining[id].providerInFlight {
      assert s.active - {id} == s.active;
      GiveBackNoHigher(s, ReconcileDraining(s, id).0, id, pool, lane);
    }
  }

  lemma MoveNoHigher(s: Admission, id: Id, pool: Pool, lane: Id)
    requires s.active.Keys !! s.draining.Keys
    ensures NoHigher(s, MoveToDraining(s, id).0, pool, lane)
  {
    hide HeldBy, LaneUsed, Chosen, MarkUnknown;
    if id in s.active { DrainSame(s, {id}, pool, lane); }
  }

  lemma SetInFlightNoHigher(s: Admission, id: Id, inFlight: bool, pool: Pool, lane: Id)
    ensures NoHigher(s, SetProviderInFlight(s, id, inFlight).0, pool, lane)
  {
    hide NoHigher, UsesProvider, SameRequests;
    var n := SetProviderInFlight(s, id, inFlight).0;
    assert SameRequests(s.active, n.active) && SameRequests(s.draining, n.draining) by {
      SameAsItself(s.active);
      SameAsItself(s.draining);
      if id in s.active { RelabelOne(s.active, id, inFlight); }
      if id in s.draining { RelabelOne(s.draining, id, inFlight); }
    }
    assert n.queue == s.queue;
    RelabelNoHigher(s, n, pool, lane);
  }

  lemma SameAsItself(leaves: map<Id, ActiveLeaf>)
    ensures SameRequests(leaves, leaves)
  {
  }

  /** Only submission and admission can raise an occupancy. */
  lemma OnlyReserveRaises(s: Admission, a: Action, pool: Pool, lane: Id)
    requires s.active.Keys !! s.draining.Keys && Enabled(s, a) && !a.ReserveStart? && !a.ReserveResume?
    ensures NoHigher(s, Step(s, a), pool, lane)
  {
    hide HeldBy, LaneUsed, Fence, SetProviderInFlight, FirstExceeded, ReleaseActive, ReconcileDraining, MoveToDraining;
    match a
    case Configure(config) =>
    case FenceParent(parent) => FenceNoHigher(s, parent, pool, lane);
    case SetInFlight(id, inFlight) => SetInFlightNoHigher(s, id, inFlight, pool, lane);
    case Release(id) => ReleaseNoHigher(s, id, pool, lane);
    case Drain(id) => MoveNoHigher(s, id, pool, lane);
    case Reconcile(id) => ReconcileNoHigher(s, id, pool, lane);
    case ChargeUsage(id, delta) =>
  }

  // ----- admission -----

  /** With no lane named twice, a leaf takes what its one requirement for the lane says. */
  lemma {:induction false} UnitsOfOneLane(lanes: seq<LaneRequirement>, lane: Id)
    requires DistinctLanes(lanes)
    ensures UnitsOn(lanes, lane) == 0
         || exists i :: 0 <= i < |lanes| && lanes[i].lane == lane && lanes[i].units == UnitsOn(lanes, lane)
  {
    if lanes != [] {
      assert forall i :: 0 <= i < |lanes[1..]| ==> lanes[1..][i] == lanes[i + 1];
      UnitsOfOneLane(lanes[1..], lane);
    }
  }

  lemma AdmitLane(s: Admission, a: Admission, leaf: QueuedLeaf, lane: Id)
    requires leaf.request.operationId !in s.active && DistinctLanes(leaf.request.lanes)
    requires leaf.request.operationId in a.active && a.active[leaf.request.operationId].request == leaf.request
    requires a.active == s.active[leaf.request.operationId := a.active[leaf.request.operationId]]
    requires a.draining == s.draining && a.config == s.config
    requires CanFit(s.config, s.active, s.draining, leaf.request)
    ensures Used(a, lane) == Used(s, lane) + UnitsOn(leaf.request.lanes, lane)
    ensures Used(a, lane) > Used(s, lane) ==> LaneWithin(a, lane)
  {
    hide Sum;
    var lanes := leaf.request.lanes;
    SumPut(s.active, LeafUnits(lane), leaf.request.operationId, a.active[leaf.request.operationId]);
    UnitsOfOneLane(lanes, lane);
    if UnitsOn(lanes, lane) > 0 {
      var i :| 0 <= i < |lanes| && lanes[i].lane == lane && lanes[i].units == UnitsOn(lanes, lane);
      assert LaneFits(s.config, s.active, s.draining, lanes[i]);
    }
  }

  lemma NextFits(s: Admission)
    requires Increasing(s.queue) && NextAdmissible(s).Some?
    ensures Queued(s.queue, NextAdmissible(s).value)
    ensures CanFit(s.config, s.active, s.draining, LeafAt(s.queue, NextAdmissible(s).value).request)
  {
    var t := NextAdmissible(s).value;
    FirstFitIsQueued(s.config, s.active, s.draining, s.queue, Interactive);
    FirstFitIsQueued(s.config, s.active, s.draining, s.queue, Normal);
    var x :| x in s.queue && x.ticket == t && CanFit(s.config, s.active, s.draining, x.request);
    LeafAtIsQueued(s.queue, t);
    SameTicket(s.queue, x, LeafAt(s.queue, t));
  }

  /** An admission takes one slot and the lanes it fits; the reserved bytes stay what they were. */
  lemma AdmitWithin(s: Admission, ticket: U64, request: Request, pool: Pool, lane: Id)
    requires Inv(s) && NextAdmissible(s) == Some(ticket)
    ensures Queued(s.queue, ticket)
    ensures var a := Admit(s, ticket, request);
            && Slots(a) == Slots(s) + 1 <= a.config.globalMaxActive
            && |a.queue| <= |s.queue|
            && Held(a, pool) == Held(s, pool)
            && (Used(a, lane) > Used(s, lane) ==> LaneWithin(a, lane))
  {
    hide HeldBy, LaneUsed, CanFit, FirstFit;
    NextFits(s);
    var leaf := LeafAt(s.queue, ticket);
    LeafAtIsQueued(s.queue, ticket);
    WithoutMembers(s.queue, ticket);
    FirstIsOnly(s.queue, ticket);
    var a := Admit(s, ticket, request);
    assert leaf.request.operationId in QueueIds(s.queue);
    assert QueuedOk(s, leaf.request);
    AdmitHeld(s, a, leaf);
    AdmitLane(s, a, leaf, lane);
  }

  lemma LoopPassWithin(s: Admission, ticket: U64, request: Request, expired: bool, pool: Pool, lane: Id)
    requires Inv(s)
    ensures var n := LoopPass(s, ticket, request, expired).0;
            && n.config == s.config && |n.queue| <= |s.queue|
            && (Slots(n) > Slots(s) ==> Slots(n) <= n.config.globalMaxActive)
            && Held(n, pool) <= Held(s, pool)
            && (Used(n, lane) > Used(s, lane) ==> LaneWithin(n, lane))
  {
    hide HeldBy, LaneUsed, Inv, Retained, CanFit, NextAdmissible;
    if Queued(s.queue, ticket) {
      if NextAdmissible(s) == Some(ticket) {
        AdmitWithin(s, ticket, request, pool, lane);
      } else {
        WithdrawNoHigher(s, ticket, request, pool, lane);
      }
    }
  }

  lemma AcceptedWithin(s: Admission, e: Admission, request: Request, expired: bool, pool: Pool, lane: Id)
    requires e == Enqueue(s, request) && Inv(e) && Held(s, pool) <= U64_MAX
    requires SubmissionError(s, request).None?
    requires Held(e, pool) == Held(s, pool) + BytesOf(request, pool)
    requires |e.queue| <= s.config.maxQueued
    ensures RaisedWithin(s, LoopPass(e, s.nextTicket, request, expired).0, pool, lane)
  {
    hide HeldBy, LaneUsed, Inv, LoopPass;
    LoopPassWithin(e, s.nextTicket, request, expired, pool, lane);
    assert Used(e, lane) == Used(s, lane);
  }

  lemma InvPools(s: Admission)
    requires Inv(s)
    ensures forall pool :: Held(s, pool) <= U64_MAX
    ensures s.active.Keys !! s.draining.Keys
    ensures !Queued(s.queue, s.nextTicket)
  {
  }

  lemma FullQueueWithin(s: Admission, e: Admission, request: Request, pool: Pool, lane: Id)
    requires e == Enqueue(s, request) && !Queued(s.queue, s.nextTicket)
    ensures RaisedWithin(s, Withdraw(e, s.nextTicket, request), pool, lane)
  {
    hide HeldBy, LaneUsed, Retained;
    WithoutLast(s.queue, QueuedLeaf(s.nextTicket, s.config.revision, request));
  }

  lemma ReserveWithin(s: Admission, request: Request, seen: Config, expired: bool, pool: Pool, lane: Id)
    requires Inv(s) && s.nextTicket < U64_MAX
    ensures RaisedWithin(s, Reserve(s, request, seen, expired).0, pool, lane)
  {
    hide HeldBy, LaneUsed, Inv, LoopPass, LaneErrors;
    InvPools(s);
    if RequestError(request, seen).None? && SubmissionError(s, request).None? {
      assert DistinctLanes(request.lanes) by { AcceptedLanesDiffer(request.lanes, {}, seen.laneCaps); }
      var e := Enqueue(s, request);
      if |e.queue| > s.config.maxQueued {
        FullQueueWithin(s, e, request, pool, lane);
      } else {
        EnqueueKeeps(s, request);
        EnqueueHeld(s, request);
        AcceptedWithin(s, e, request, expired, pool, lane);
      }
    }
  }

  /** Any step that raises an occupancy ends within the cap in force. */
  lemma StepRaisesWithin(s: Admission, a: Action, pool: Pool, lane: Id)
    requires Inv(s) && Enabled(s, a) && TicketLeft(s, a)
    ensures RaisedWithin(s, Step(s, a), pool, lane)
  {
    hide HeldBy, LaneUsed, Inv, LoopPass, Reserve, NextAdmissible, Retained;
    match a
    case ReserveStart(request, seen, expired) =>
      ReserveWithin(s, request, seen, expired, pool, lane);
    case ReserveResume(ticket, timedOut, late) =>
      var request := s.waiters[ticket].request;
      if timedOut && NextAdmissible(s) != Some(ticket) {
        WithdrawNoHigher(s, ticket, request, pool, lane);
      } else {
        LoopPassWithin(s, ticket, request, late, pool, lane);
      }
    case _ =>
      InvPools(s);
      OnlyReserveRaises(s, a, pool, lane);
  }
}
