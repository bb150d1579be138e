/**
 * The admission domain as the object it is: one lock-protected record changed in
 * place. Each method is the body of one critical section; its contract names the
 * transition of the model that it performs.
 */
module AdmissionDomain {
  import opened Common
  import opened AdmissionModel
  import opened AdmissionInvariant

  class Domain {
    var config: Config
    var nextTicket: U64
    var selected: set<Id>
    var queue: seq<QueuedLeaf>
    var active: map<Id, ActiveLeaf>
    var draining: map<Id, ActiveLeaf>
    var cancelled: set<Id>
    var fencedParents: set<Id>
    var usage: map<Id, UsageRecord>
    var scopeBudgets: map<Id, Amounts>
    /** The threads inside `reserve` and whether the condition variable has released them. */
    var waiters: map<U64, Waiter>

    function Snapshot(): Admission
      reads this
    {
      Admission(config, nextTicket, selected, queue, active, draining, cancelled, fencedParents, usage, scopeBudgets, waiters)
    }

    constructor (initial: Config)
      ensures Snapshot() == Fresh(initial)
    {
      config, nextTicket, selected, queue := initial, 1, {}, [];
      active, draining, cancelled, fencedParents := map[], map[], {}, {};
      usage, scopeBudgets, waiters := map[], map[], map[];
    }

    // ----- queries -----

    method UnitsIn(leaves: map<Id, ActiveLeaf>, lane: Id) returns (used: nat)
      ensures used == Sum(leaves, LeafUnits(lane))
    {
      used := 0;
      var left := leaves.Keys;
      while left != {}
        invariant left <= leaves.Keys
        invariant used + SumOn(leaves, left, LeafUnits(lane)) == Sum(leaves, LeafUnits(lane))
        decreases left
      {
        var id :| id in left;
        SumOnRemove(leaves, left, LeafUnits(lane), id);
        var lanes := leaves[id].request.lanes;
        var i := 0;
        ghost var before := used;
        while i < |lanes|
          invariant i <= |lanes|
          invariant used + UnitsOn(lanes[i..], lane) == before + UnitsOn(lanes, lane)
        {
          if lanes[i].lane == lane { used := used + lanes[i].units; }
          i := i + 1;
        }
        left := left - {id};
      }
    }

    method Fits(request: Request) returns (fits: bool)
      ensures fits == CanFit(config, active, draining, request)
    {
      if |active| + |draining| >= config.globalMaxActive { return false; }
      var i := 0;
      while i < |request.lanes|
        invariant i <= |request.lanes|
        invariant forall k :: 0 <= k < i ==> LaneFits(config, active, draining, request.lanes[k])
      {
        var need := request.lanes[i];
        var running := UnitsIn(active, need.lane);
        var leaving := UnitsIn(draining, need.lane);
        if need.lane !in config.laneCaps || SatAdd(running + leaving, need.units) > config.laneCaps[need.lane] {
          assert !LaneFits(config, active, draining, request.lanes[i]);
          return false;
        }
        i := i + 1;
      }
      return true;
    }

    method FirstOf(cls: QueueClass) returns (first: Option<U64>)
      ensures first == FirstFit(config, active, draining, queue, cls)
    {
      hide CanFit;
      var i := 0;
      while i < |queue|
        invariant i <= |queue|
        invariant FirstFit(config, active, draining, queue[i..], cls) == FirstFit(config, active, draining, queue, cls)
      {
        var fits := Fits(queue[i].request);
        if queue[i].request.queueClass == cls && fits { return Some(queue[i].ticket); }
        i := i + 1;
      }
      return None;
    }

    method NextTicket() returns (next: Option<U64>)
      ensures next == NextAdmissible(Snapshot())
    {
      hide FirstFit;
      next := FirstOf(Interactive);
      if next.None? { next := FirstOf(Normal); }
    }

    method BytesIn(leaves: map<Id, ActiveLeaf>, pool: Pool, start: U64) returns (total: U64)
      ensures total == Min(start + Sum(leaves, LeafBytes(pool)), U64_MAX)
    {
      total := start;
      var left := leaves.Keys;
      while left != {}
        invariant left <= leaves.Keys
        invariant Min(total + SumOn(leaves, left, LeafBytes(pool)), U64_MAX) == Min(start + Sum(leaves, LeafBytes(pool)), U64_MAX)
        decreases left
      {
        var id :| id in left;
        SumOnRemove(leaves, left, LeafBytes(pool), id);
        total := SatAdd(total, BytesOf(leaves[id].request, pool));
        left := left - {id};
      }
    }

    /** The saturating fold over everything queued, active and draining. */
    method SelectedBytes(pool: Pool) returns (total: U64)
      ensures total == Min(Held(Snapshot(), pool), U64_MAX)
    {
      total := 0;
      var i := 0;
      while i < |queue|
        invariant i <= |queue|
        invariant Min(total + QueuedBytes(queue[i..], pool), U64_MAX) == Min(QueuedBytes(queue, pool), U64_MAX)
      {
        total := SatAdd(total, BytesOf(queue[i].request, pool));
        i := i + 1;
      }
      total := BytesIn(active, pool, total);
      total := BytesIn(draining, pool, total);
    }

    method InvalidLanes(lanes: seq<LaneRequirement>) returns (error: Option<Error>)
      ensures error == LaneErrors(lanes, {}, config.laneCaps)
    {
      var seen: set<Id> := {};
      var i := 0;
      while i < |lanes|
        invariant i <= |lanes|
        invariant LaneErrors(lanes[i..], seen, config.laneCaps) == LaneErrors(lanes, {}, config.laneCaps)
      {
        var need := lanes[i];
        if need.units == 0 || need.lane in seen { return Some(InvalidLane(need.lane)); }
        if need.lane !in config.laneCaps { return Some(MissingLane(need.lane)); }
        if need.units > config.laneCaps[need.lane] { return Some(Capacity); }
        seen := seen + {need.lane};
        i := i + 1;
      }
      return None;
    }

    /** `validate_request`: its own critical section. */
    method ValidateRequest(request: Request) returns (error: Option<Error>)
      ensures error == RequestError(request, config)
    {
      hide LaneErrors;
      if request.operationId == "" || request.modelRef == "" { return Some(MissingRoute); }
      if request.parent.Some? && (request.parent.value == "" || request.parent.value == request.operationId) {
        return Some(InvalidConfig);
      }
      if request.budgetScope == Some("") { return Some(InvalidConfig); }
      if request.budget.attempts == 0 || request.budget.wallTimeMs == 0
         || request.budget.artifactBytes == 0 || request.budget.contextBytes == 0 {
        return Some(InvalidConfig);
      }
      if request.artifactBytes > request.budget.artifactBytes { return Some(BudgetExceeded(ArtifactBytes)); }
      if request.contextBytes > request.budget.contextBytes || request.contextBytes > config.maxContextBytes {
        return Some(ContextBudget);
      }
      error := InvalidLanes(request.lanes);
    }

    method Refusal(request: Request) returns (error: Option<Error>)
      ensures error == SubmissionError(Snapshot(), request)
    {
      hide Held;
      if request.parent.Some? && request.parent.value in fencedParents { return Some(ParentFenced); }
      if request.operationId in selected || request.operationId in QueueIds(queue)
         || request.operationId in active || request.operationId in draining
         || request.operationId in cancelled || request.operationId in usage {
        return Some(DuplicateOperation);
      }
      if request.simultaneousMembers.Some? && request.simultaneousMembers.value > config.globalMaxActive {
        return Some(SimultaneousCapacity);
      }
      var context := SelectedBytes(ContextPool);
      if request.contextBytes > SatSub(config.maxContextBytes, context) { return Some(ContextCapacity); }
      var artifacts := SelectedBytes(ArtifactPool);
      if request.artifactBytes > SatSub(config.maxArtifactBytes, artifacts) { return Some(ArtifactCapacity); }
      if ScopeOf(request) in scopeBudgets && scopeBudgets[ScopeOf(request)] != request.budget {
        return Some(BudgetScopeConflict);
      }
      return None;
    }

    // ----- building blocks -----

    method RemoveQueued(ticket: U64)
      modifies `queue
      ensures queue == Without(old(queue), ticket)
    {
      var kept: seq<QueuedLeaf> := [];
      var i := 0;
      while i < |queue|
        invariant i <= |queue|
        invariant kept + Without(queue[i..], ticket) == Without(queue, ticket)
        invariant queue == old(queue)
      {
        assert queue[i..][1..] == queue[i + 1..];
        if queue[i].ticket != ticket { kept := kept + [queue[i]]; }
        i := i + 1;
      }
      queue := kept;
    }

    method CleanupScopeIfUnused(scope: Id)
      modifies `scopeBudgets
      ensures Snapshot() == CleanupScope(old(Snapshot()), scope)
    {
      if !Retained(Snapshot(), scope) { scopeBudgets := scopeBudgets - {scope}; }
    }

    method NotifyEverybody()
      modifies `waiters
      ensures Snapshot() == NotifyAll(old(Snapshot()))
    {
      waiters := map t | t in waiters :: waiters[t].(signalled := true);
    }

    method WithdrawLeaf(ticket: U64, request: Request)
      modifies this
      ensures Snapshot() == Withdraw(old(Snapshot()), ticket, request)
    {
      hide Retained;
      RemoveQueued(ticket);
      selected := selected - {request.operationId};
      waiters := waiters - {ticket};
      CleanupScopeIfUnused(ScopeOf(request));
    }

    /** The first queued leaf that holds the ticket leaves the queue. */
    method TakeLeaf(ticket: U64) returns (leaf: QueuedLeaf)
      requires Queued(queue, ticket)
      modifies `queue
      ensures leaf == LeafAt(old(queue), ticket) && queue == WithoutFirst(old(queue), ticket)
    {
      var position := 0;
      while position < |queue| && queue[position].ticket != ticket
        invariant position <= |queue| && forall k :: 0 <= k < position ==> queue[k].ticket != ticket
      {
        position := position + 1;
      }
      FirstAt(queue, position, ticket);
      leaf := queue[position];
      queue := queue[..position] + queue[position + 1..];
    }

    method AdmitLeaf(ticket: U64, request: Request) returns (id: Id)
      requires Queued(queue, ticket)
      modifies this
      ensures Snapshot() == Admit(old(Snapshot()), ticket, request)
      ensures id == LeafAt(old(queue), ticket).request.operationId
    {
      hide LeafAt, Queued, WithoutFirst;
      var leaf := TakeLeaf(ticket);
      id := leaf.request.operationId;
      usage := usage[id := UsageRecord(ScopeOf(request), leaf.submittedRevision, config.revision, NOTHING, false)];
      active := active[id := ActiveLeaf(ticket, leaf.submittedRevision, config.revision, leaf.request, false)];
      waiters := waiters - {ticket};
      NotifyEverybody();
    }

    // ----- reserve -----

    /** One turn of the loop, ending in a return or in the wait. */
    method TakeTurn(ticket: U64, request: Request, expired: bool) returns (reply: Reply)
      modifies this
      ensures (Snapshot(), reply) == LoopPass(old(Snapshot()), ticket, request, expired)
    {
      hide NextOf, Retained;
      if !Queued(queue, ticket) {
        waiters := waiters - {ticket};
        return Rejected(ParentFenced);
      }
      var next := NextTicket();
      if next == Some(ticket) {
        var id := AdmitLeaf(ticket, request);
        return Admitted(id);
      }
      if request.queueTimeoutMs == 0 {
        WithdrawLeaf(ticket, request);
        return Rejected(Capacity);
      }
      if expired {
        WithdrawLeaf(ticket, request);
        return Rejected(QueueTimeout);
      }
      waiters := waiters[ticket := Waiter(request, false)];
      return Blocked(ticket);
    }

    method Submit(request: Request) returns (ticket: U64)
      modifies this
      ensures ticket == old(nextTicket) && Snapshot() == Enqueue(old(Snapshot()), request)
    {
      var scope := ScopeOf(request);
      if scope !in scopeBudgets { scopeBudgets := scopeBudgets[scope := request.budget]; }
      selected := selected + {request.operationId};
      ticket := nextTicket;
      nextTicket := SatAdd(nextTicket, 1);
      queue := queue + [QueuedLeaf(ticket, config.revision, request)];
      waiters := waiters[ticket := Waiter(request, true)];
    }

    /** `reserve` up to its first wait; `seen` is the configuration `validate_request` saw. */
    method ReserveNow(request: Request, seen: Config, invalid: Option<Error>, expired: bool) returns (reply: Reply)
      requires invalid == RequestError(request, seen)
      modifies this
      ensures (Snapshot(), reply) == Reserve(old(Snapshot()), request, seen, expired)
    {
      hide RequestError, SubmissionError, LoopPass, Withdraw, Enqueue;
      if invalid.Some? { return Rejected(invalid.value); }
      var refusal := Refusal(request);
      if refusal.Some? { return Rejected(refusal.value); }
      var room := config.maxQueued;
      var ticket := Submit(request);
      if |queue| > room {
        WithdrawLeaf(ticket, request);
        return Rejected(QueueCapacity);
      }
      reply := TakeTurn(ticket, request, expired);
    }

    /** A waiting thread has the lock again. */
    method ResumeWaiter(ticket: U64, timedOut: bool, expired: bool) returns (reply: Reply)
      requires ticket in waiters
      modifies this
      ensures (Snapshot(), reply) == Resume(old(Snapshot()), ticket, timedOut, expired)
    {
      hide NextAdmissible, LoopPass, Withdraw;
      var request := waiters[ticket].request;
      var next := NextTicket();
      if timedOut && next != Some(ticket) {
        WithdrawLeaf(ticket, request);
        return Rejected(QueueTimeout);
      }
      reply := TakeTurn(ticket, request, expired);
    }

    // ----- the other critical sections -----

    method ReconfigureTo(next: Config) returns (reply: Reply)
      modifies this
      ensures (Snapshot(), reply) == Reconfigure(old(Snapshot()), next)
    {
      hide ValidConfig;
      if !ValidConfig(next) || next.revision <= config.revision { return Rejected(InvalidConfig); }
      config := next.(maxQueued := if next.maxQueued < |queue| then |queue| else next.maxQueued);
      NotifyEverybody();
      return Done;
    }

    method SetInFlight(id: Id, inFlight: bool) returns (reply: Reply)
      modifies this
      ensures (Snapshot(), reply) == SetProviderInFlight(old(Snapshot()), id, inFlight)
    {
      if id in active {
        if !UsesProvider(active[id].request) { return Rejected(InvalidLane(PROVIDER_LANE)); }
        active := active[id := active[id].(providerInFlight := inFlight)];
      } else if id in draining {
        if !UsesProvider(draining[id].request) { return Rejected(InvalidLane(PROVIDER_LANE)); }
        draining := draining[id := draining[id].(providerInFlight := inFlight)];
      } else {
        return Rejected(NotActive);
      }
      NotifyEverybody();
      return Done;
    }

    method ReleaseLeaf(id: Id) returns (reply: Reply)
      modifies this
      ensures (Snapshot(), reply) == ReleaseActive(old(Snapshot()), id)
    {
      if id !in active { return Rejected(NotActive); }
      active := active - {id};
      selected := selected - {id};
      NotifyEverybody();
      return Done;
    }

    /** One leaf leaves `active` for `draining`, marked if its provider call is open. */
    method DrainLeaf(id: Id)
      requires id in active
      modifies `active, `draining, `cancelled, `usage
      ensures active == old(active) - {id}
      ensures draining == old(draining)[id := old(active)[id]]
      ensures cancelled == old(cancelled) + {id}
      ensures usage == MarkUnknown(old(usage), if old(active)[id].providerInFlight then {id} else {})
    {
      if active[id].providerInFlight && id in usage {
        usage := usage[id := usage[id].(unknownSpend := true)];
      }
      cancelled := cancelled + {id};
      draining := draining[id := active[id]];
      active := active - {id};
    }

    method Drain(id: Id) returns (reply: Reply)
      modifies this
      ensures (Snapshot(), reply) == MoveToDraining(old(Snapshot()), id)
    {
      hide NotifyAll, DrainAll, MarkUnknown;
      if id !in active { return Rejected(NotActive); }
      ghost var s := Snapshot();
      DrainLeaf(id);
      DrainsOne(s, id);
      NotifyEverybody();
      return Done;
    }

    /** The queued children of `parent` leave the queue. */
    method TakeChildren(parent: Id) returns (gone: seq<QueuedLeaf>)
      modifies `queue
      ensures gone == ChildrenOf(old(queue), parent) && queue == NotChildrenOf(old(queue), parent)
    {
      gone := [];
      var kept: seq<QueuedLeaf> := [];
      var i := 0;
      while i < |queue|
        invariant i <= |queue| && queue == old(queue)
        invariant gone + ChildrenOf(queue[i..], parent) == ChildrenOf(queue, parent)
        invariant kept + NotChildrenOf(queue[i..], parent) == NotChildrenOf(queue, parent)
      {
        assert queue[i..][1..] == queue[i + 1..];
        if queue[i].request.parent == Some(parent) {
          gone := gone + [queue[i]];
        } else {
          kept := kept + [queue[i]];
        }
        i := i + 1;
      }
      queue := kept;
    }

    /** Cancel the leaves a fence took out of the queue, one after the other. */
    method CancelLeaves(gone: seq<QueuedLeaf>)
      modifies `selected, `cancelled, `scopeBudgets
      ensures selected == old(selected) - QueueIds(gone) && cancelled == old(cancelled) + QueueIds(gone)
      ensures scopeBudgets == old(scopeBudgets) - Unretained(old(Snapshot()), gone)
    {
      hide Retained, QueueIds, Unretained;
      ghost var s := Snapshot();
      UnretainedNone(s);
      var i := 0;
      while i < |gone|
        invariant i <= |gone|
        invariant selected == s.selected - QueueIds(gone[..i]) && cancelled == s.cancelled + QueueIds(gone[..i])
        invariant scopeBudgets == s.scopeBudgets - Unretained(s, gone[..i])
      {
        var leaf := gone[i].request;
        assert gone[..i + 1] == gone[..i] + [gone[i]];
        UnretainedGrows(s, gone[..i], gone[i]);
        selected := selected - {leaf.operationId};
        cancelled := cancelled + {leaf.operationId};
        RetainedFrame(s, Snapshot(), ScopeOf(leaf));
        CleanupScopeIfUnused(ScopeOf(leaf));
        i := i + 1;
      }
      assert gone[..|gone|] == gone;
    }

    method DrainLeaves(ids: set<Id>)
      requires ids <= active.Keys
      modifies `active, `draining, `cancelled, `usage
      ensures Snapshot() == DrainAll(old(Snapshot()), ids)
    {
      hide DrainAll, MarkUnknown;
      ghost var s := Snapshot();
      var left := ids;
      DrainNone(s);
      assert ids - left == {};
      while left != {}
        invariant left <= ids && active == s.active - (ids - left)
        invariant Snapshot() == DrainAll(s, ids - left)
        decreases left
      {
        var id :| id in left;
        assert ids - (left - {id}) == ids - left + {id};
        DrainOneMore(s, ids - left, id);
        DrainLeaf(id);
        left := left - {id};
      }
      assert ids - left == ids;
    }

    method MarkDescendantsDraining(parent: Id) returns (reply: Reply)
      modifies this
      ensures (Snapshot(), reply) == Fence(old(Snapshot()), parent)
    {
      hide Retained, MarkUnknown, Chosen, ChildrenOf, NotChildrenOf, DrainAll;
      ghost var s := Snapshot();
      fencedParents := fencedParents + {parent};
      var gone := TakeChildren(parent);
      ghost var t := Snapshot();
      CancelLeaves(gone);
      FenceQueueIs(s, t, gone, parent);
      assert Snapshot() == FenceQueue(s, parent);
      var ids := ActiveChildren(active, parent);
      DrainLeaves(ids);
      if gone != [] || ids != {} { NotifyEverybody(); }
      return Fenced(|gone| + |ids|);
    }

    method ReconcileLeaf(id: Id) returns (reply: Reply)
      modifies this
      ensures (Snapshot(), reply) == ReconcileDraining(old(Snapshot()), id)
    {
      if id !in draining { return Rejected(NotDraining); }
      if draining[id].providerInFlight { return Rejected(ProviderStillInFlight); }
      draining := draining - {id};
      selected := selected - {id};
      NotifyEverybody();
      return Done;
    }

    /** The saturating total of every record of the scope. */
    method ScopeUsage(scope: Id) returns (total: Amounts)
      ensures forall d: Dimension :: total.At(d) == ScopeTotal(usage, scope, d)
    {
      hide SumOn;
      total := NOTHING;
      var left := usage.Keys;
      while left != {}
        invariant left <= usage.Keys
        invariant forall d: Dimension :: Counted(usage, left, scope, d, total.At(d))
        decreases left
      {
        var id :| id in left;
        var sum := if usage[id].scope == scope then total.Plus(usage[id].usage) else total;
        forall d: Dimension ensures Counted(usage, left - {id}, scope, d, sum.At(d)) {
          CountOne(usage, left, scope, d, total.At(d), id);
          assert total.Plus(usage[id].usage).At(d) == SatAdd(total.At(d), usage[id].usage.At(d));
        }
        total := sum;
        left := left - {id};
      }
      forall d: Dimension ensures total.At(d) == ScopeTotal(usage, scope, d) {
        CountedAll(usage, scope, d, total.At(d));
      }
    }

    method ChargeLeaf(id: Id, delta: Amounts) returns (reply: Reply)
      modifies `usage
      ensures (Snapshot(), reply) == Charge(old(Snapshot()), id, delta)
    {
      hide ScopeTotal;
      if id !in active && id !in draining { return Rejected(NotActive); }
      if id !in usage { return Rejected(StatePoisoned); }
      var scope := usage[id].scope;
      if scope !in scopeBudgets { return Rejected(StatePoisoned); }
      var budget := scopeBudgets[scope];
      var own := usage[id].usage.Plus(delta);
      usage := usage[id := usage[id].(usage := own)];
      var total := ScopeUsage(scope);
      assert total.At(Attempts) == total.attempts && total.At(WallTime) == total.wallTimeMs;
      assert total.At(Tokens) == total.tokens && total.At(Cost) == total.costMicrounits;
      assert total.At(ArtifactBytes) == total.artifactBytes && total.At(ContextBytes) == total.contextBytes;
      var exceeded :=
        if total.attempts > budget.attempts then Some(Attempts)
        else if total.wallTimeMs > budget.wallTimeMs then Some(WallTime)
        else if total.tokens > budget.tokens then Some(Tokens)
        else if total.costMicrounits > budget.costMicrounits then Some(Cost)
        else if total.artifactBytes > budget.artifactBytes then Some(ArtifactBytes)
        else if total.contextBytes > budget.contextBytes then Some(ContextBytes)
        else None;
      return if exceeded.Some? then Rejected(BudgetExceeded(exceeded.value)) else Charged(own);
    }

    /** Dropping an unreleased reservation. */
    method Drop(id: Id)
      modifies this
      ensures Snapshot() == DropReservation(old(Snapshot()), id)
    {
      hide ReleaseActive, ReconcileDraining;
      var released := ReleaseLeaf(id);
      assert ReleaseActive(old(Snapshot()), id).1.Rejected? ==> Snapshot() == old(Snapshot()) by { ReleaseOrNothing(old(Snapshot()), id); }
      if released.Rejected? {
        var _ := ReconcileLeaf(id);
      }
    }
  }

  /** `so` saturates to the scope total once the records in `left` are added. */
  ghost predicate Counted(usage: map<Id, UsageRecord>, left: set<Id>, scope: Id, d: Dimension, so: U64)
    requires left <= usage.Keys
  {
    Min(so + SumOn(usage, left, ScopeAmount(scope, d)), U64_MAX) == ScopeTotal(usage, scope, d)
  }

  lemma CountOne(usage: map<Id, UsageRecord>, left: set<Id>, scope: Id, d: Dimension, so: U64, id: Id)
    requires left <= usage.Keys && id in left && Counted(usage, left, scope, d, so)
    ensures Counted(usage, left - {id}, scope, d,
                    if usage[id].scope == scope then SatAdd(so, usage[id].usage.At(d)) else so)
  {
    SumOnRemove(usage, left, ScopeAmount(scope, d), id);
  }

  lemma CountedAll(usage: map<Id, UsageRecord>, scope: Id, d: Dimension, so: U64)
    ensures Counted(usage, {}, scope, d, so) ==> so == ScopeTotal(usage, scope, d)
  {
  }

  ghost function Unretained(s: Admission, gone: seq<QueuedLeaf>): set<Id> {
    set scope | scope in QueueScopes(gone) && !Retained(s, scope)
  }

  lemma DrainNone(s: Admission)
    ensures DrainAll(s, {}) == s
  {
  }

  lemma FirstAt(q: seq<QueuedLeaf>, position: nat, ticket: U64)
    requires Queued(q, ticket) && position <= |q| && forall k :: 0 <= k < position ==> q[k].ticket != ticket
    requires position < |q| ==> q[position].ticket == ticket
    ensures position < |q| && LeafAt(q, ticket) == q[position]
    ensures WithoutFirst(q, ticket) == q[..position] + q[position + 1..]
  {
    var front, rest := q[..position], q[position..];
    assert q == front + rest && !Queued(front, ticket);
    assert rest != [];
    assert rest[0] in rest && rest[1..] == q[position + 1..];
    LeafBehind(front, rest, ticket);
  }

  lemma DrainsOne(s: Admission, id: Id)
    requires id in s.active
    ensures DrainAll(s, {id}) == s.(
      active := s.active - {id}, draining := s.draining[id := s.active[id]], cancelled := s.cancelled + {id},
      usage := MarkUnknown(s.usage, if s.active[id].providerInFlight then {id} else {}))
  {
    assert s.draining + Chosen(s.active, {id}) == s.draining[id := s.active[id]];
    assert (set k | k in {id} && s.active[k].providerInFlight) == if s.active[id].providerInFlight then {id} else {};
  }

  lemma DrainOneMore(s: Admission, done: set<Id>, id: Id)
    requires done <= s.active.Keys && id in s.active && id !in done
    ensures var d := DrainAll(s, done);
            DrainAll(s, done + {id}) == d.(
              active := d.active - {id},
              draining := d.draining[id := s.active[id]],
              cancelled := d.cancelled + {id},
              usage := MarkUnknown(d.usage, if s.active[id].providerInFlight then {id} else {}))
  {
    hide MarkUnknown, Chosen;
    assert s.active - (done + {id}) == s.active - done - {id};
    ChosenOneMore(s.active, s.draining, done, id);
    var flying := set k | k in done && s.active[k].providerInFlight;
    var one := if s.active[id].providerInFlight then {id} else {};
    MarkTwice(s.usage, flying, one);
    assert (set k | k in done + {id} && s.active[k].providerInFlight) == flying + one;
  }

  lemma ChosenOneMore(active: map<Id, ActiveLeaf>, draining: map<Id, ActiveLeaf>, done: set<Id>, id: Id)
    requires done <= active.Keys && id in active
    ensures draining + Chosen(active, done + {id}) == (draining + Chosen(active, done))[id := active[id]]
  {
  }

  lemma MarkTwice(usage: map<Id, UsageRecord>, a: set<Id>, b: set<Id>)
    ensures MarkUnknown(MarkUnknown(usage, a), b) == MarkUnknown(usage, a + b)
  {
  }

  lemma UnretainedNone(s: Admission)
    ensures Unretained(s, []) == {} && QueueIds([]) == {}
  {
  }

  lemma UnretainedGrows(s: Admission, gone: seq<QueuedLeaf>, leaf: QueuedLeaf)
    ensures Unretained(s, gone + [leaf])
         == Unretained(s, gone) + if Retained(s, ScopeOf(leaf.request)) then {} else {ScopeOf(leaf.request)}
    ensures QueueIds(gone + [leaf]) == QueueIds(gone) + {leaf.request.operationId}
  {
  }

  lemma RetainedFrame(s: Admission, n: Admission, scope: Id)
    requires n.queue == s.queue && n.active == s.active && n.draining == s.draining && n.usage == s.usage
    ensures Retained(n, scope) == Retained(s, scope)
  {
  }

  lemma FenceQueueIs(s: Admission, t: Admission, gone: seq<QueuedLeaf>, parent: Id)
    requires gone == ChildrenOf(s.queue, parent)
    requires t == s.(fencedParents := s.fencedParents + {parent}, queue := NotChildrenOf(s.queue, parent))
    ensures FenceQueue(s, parent) == t.(
      selected := s.selected - QueueIds(gone), cancelled := s.cancelled + QueueIds(gone),
      scopeBudgets := s.scopeBudgets - Unretained(t, gone))
  {
  }

  lemma ReleaseOrNothing(s: Admission, id: Id)
    ensures ReleaseActive(s, id).1.Rejected? ==> ReleaseActive(s, id).0 == s
  {
  }
}
