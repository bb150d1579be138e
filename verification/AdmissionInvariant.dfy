/** What every critical section of the admission domain keeps. */
module AdmissionInvariant {
  import opened Common
  import opened AdmissionModel

  ghost predicate Increasing(q: seq<QueuedLeaf>) {
    forall i, j :: 0 <= i < j < |q| ==> q[i].ticket < q[j].ticket
  }

  /** Queued tickets grow from front to back and have all been handed out. */
  ghost predicate Ticketed(s: Admission) {
    && Increasing(s.queue)
    && (forall x :: x in s.queue ==> x.ticket < s.nextTicket)
    && (forall t :: t in s.waiters ==> t < s.nextTicket)
  }

  ghost predicate DistinctIds(q: seq<QueuedLeaf>) {
    forall x, y :: x in q && y in q && x.request.operationId == y.request.operationId ==> x == y
  }

  /** `selected` is the disjoint union of the queued, active and draining operations. */
  ghost predicate Partitioned(s: Admission) {
    && DistinctIds(s.queue)
    && QueueIds(s.queue) !! s.active.Keys
    && QueueIds(s.queue) !! s.draining.Keys
    && s.active.Keys !! s.draining.Keys
    && s.selected == QueueIds(s.queue) + s.active.Keys + s.draining.Keys
  }

  ghost predicate Recorded(leaves: map<Id, ActiveLeaf>, usage: map<Id, UsageRecord>, budgets: map<Id, Amounts>) {
    forall k :: k in leaves ==>
      && leaves[k].request.operationId == k
      && DistinctLanes(leaves[k].request.lanes)
      && k in usage && usage[k].scope == ScopeOf(leaves[k].request)
      && usage[k].scope in budgets && budgets[usage[k].scope] == leaves[k].request.budget
  }

  /** Everything running has a usage record under a retained budget; nothing queued has run. */
  ghost predicate Accounted(s: Admission) {
    && Recorded(s.active, s.usage, s.scopeBudgets)
    && Recorded(s.draining, s.usage, s.scopeBudgets)
    && s.draining.Keys <= s.cancelled
    && (forall k :: k in s.usage ==> s.usage[k].scope in s.scopeBudgets)
    && (forall x :: x in s.queue ==> QueuedOk(s, x.request))
  }

  ghost predicate QueuedOk(s: Admission, r: Request) {
    && r.operationId !in s.usage && r.operationId !in s.cancelled
    && DistinctLanes(r.lanes)
    && ScopeOf(r) in s.scopeBudgets && s.scopeBudgets[ScopeOf(r)] == r.budget
  }

  ghost predicate Unfenced(s: Admission, r: Request) {
    r.parent.Some? ==> r.parent.value !in s.fencedParents
  }

  ghost predicate FenceHolds(s: Admission) {
    && (forall x :: x in s.queue ==> Unfenced(s, x.request))
    && (forall k :: k in s.active ==> Unfenced(s, s.active[k].request))
  }

  /** A thread waits for every queued leaf; a thread whose leaf is gone belongs to a cancelled operation. */
  ghost predicate Attended(s: Admission) {
    && (forall x :: x in s.queue ==> x.ticket in s.waiters && s.waiters[x.ticket].request == x.request)
    && (forall t :: t in s.waiters && !Queued(s.queue, t) ==>
          && s.waiters[t].request.operationId !in s.selected
          && s.waiters[t].request.operationId in s.cancelled)
  }

  /** A thread whose leaf was taken away has been told. */
  ghost predicate Told(s: Admission) {
    forall t :: t in s.waiters && !Queued(s.queue, t) ==> s.waiters[t].signalled
  }

  /** The thread whose turn it is has been signalled since it last looked. */
  ghost predicate Awake(s: Admission) {
    var next := NextAdmissible(s);
    next.Some? ==> next.value in s.waiters && s.waiters[next.value].signalled
  }

  ghost predicate Core(s: Admission) {
    && Ticketed(s) && Partitioned(s) && Accounted(s) && Attended(s)
    && forall pool :: Held(s, pool) <= U64_MAX
  }

  ghost predicate Base(s: Admission) {
    Core(s) && FenceHolds(s)
  }

  ghost predicate Inv(s: Admission) {
    Base(s) && Told(s) && Awake(s)
  }

  // ----- the queue -----

  lemma ConsIncreasing(leaf: QueuedLeaf, q: seq<QueuedLeaf>)
    requires Increasing(q) && forall x :: x in q ==> leaf.ticket < x.ticket
    ensures Increasing([leaf] + q)
  {
  }

  lemma TailIncreasing(q: seq<QueuedLeaf>)
    requires Increasing(q) && q != []
    ensures Increasing(q[1..]) && forall x :: x in q[1..] ==> q[0].ticket < x.ticket
  {
  }

  /** Removing a ticket keeps order and drops exactly the leaves that hold it. */
  lemma {:induction false} WithoutMembers(q: seq<QueuedLeaf>, ticket: U64)
    ensures forall x :: x in Without(q, ticket) <==> x in q && x.ticket != ticket
    ensures Increasing(q) ==> Increasing(Without(q, ticket))
    ensures |Without(q, ticket)| <= |q|
  {
    if q != [] {
      WithoutMembers(q[1..], ticket);
      assert q == [q[0]] + q[1..];
      if Increasing(q) {
        TailIncreasing(q);
        if q[0].ticket != ticket {
          ConsIncreasing(q[0], Without(q[1..], ticket));
        }
      }
    }
  }

  lemma {:induction false} WithoutNothing(q: seq<QueuedLeaf>, ticket: U64)
    requires !Queued(q, ticket)
    ensures Without(q, ticket) == q
  {
    if q != [] {
      assert q[0] in q;
      WithoutNothing(q[1..], ticket);
    }
  }

  lemma {:induction false} LeafBehind(p: seq<QueuedLeaf>, q: seq<QueuedLeaf>, ticket: U64)
    requires !Queued(p, ticket) && Queued(q, ticket)
    ensures Queued(p + q, ticket) && LeafAt(p + q, ticket) == LeafAt(q, ticket)
    ensures WithoutFirst(p + q, ticket) == p + WithoutFirst(q, ticket)
  {
    if p == [] {
      assert p + q == q;
    } else {
      assert p[0] in p && (p + q)[1..] == p[1..] + q && (p + q)[0] == p[0];
      LeafBehind(p[1..], q, ticket);
      var x :| x in q && x.ticket == ticket;
      assert x in p + q;
    }
  }

  /** As long as tickets differ, the first leaf with a ticket is the only one. */
  lemma {:induction false} FirstIsOnly(q: seq<QueuedLeaf>, ticket: U64)
    requires Increasing(q)
    ensures WithoutFirst(q, ticket) == Without(q, ticket)
  {
    if q != [] {
      if q[0].ticket == ticket {
        assert !Queued(q[1..], ticket);
        WithoutNothing(q[1..], ticket);
      } else {
        FirstIsOnly(q[1..], ticket);
      }
    }
  }

  lemma {:induction false} WithoutLast(q: seq<QueuedLeaf>, leaf: QueuedLeaf)
    requires !Queued(q, leaf.ticket)
    ensures Without(q + [leaf], leaf.ticket) == q
  {
    if q == [] {
      assert [leaf][1..] == [];
    } else {
      assert q[0] in q;
      assert (q + [leaf])[1..] == q[1..] + [leaf];
      WithoutLast(q[1..], leaf);
    }
  }

  lemma SameTicket(q: seq<QueuedLeaf>, x: QueuedLeaf, y: QueuedLeaf)
    requires Increasing(q) && x in q && y in q && x.ticket == y.ticket
    ensures x == y
  {
  }

  /** The key to the missing notifications: taking out a leaf that is not the first fit changes no first fit. */
  lemma {:induction false} FirstFitWithout(c: Config, active: map<Id, ActiveLeaf>, draining: map<Id, ActiveLeaf>,
                                           q: seq<QueuedLeaf>, cls: QueueClass, ticket: U64)
    requires FirstFit(c, active, draining, q, cls) != Some(ticket)
    ensures FirstFit(c, active, draining, Without(q, ticket), cls) == FirstFit(c, active, draining, q, cls)
  {
    if q != [] {
      if q[0].request.queueClass == cls && CanFit(c, active, draining, q[0].request) {
        assert Without(q, ticket)[0] == q[0];
      } else {
        FirstFitWithout(c, active, draining, q[1..], cls, ticket);
        if q[0].ticket != ticket {
          assert Without(q, ticket)[1..] == Without(q[1..], ticket);
        }
      }
    }
  }

  lemma NextWithout(c: Config, active: map<Id, ActiveLeaf>, draining: map<Id, ActiveLeaf>, q: seq<QueuedLeaf>, ticket: U64)
    requires NextOf(c, active, draining, q) != Some(ticket)
    ensures NextOf(c, active, draining, Without(q, ticket)) == NextOf(c, active, draining, q)
  {
    FirstFitWithout(c, active, draining, q, Interactive, ticket);
    if FirstFit(c, active, draining, q, Interactive).None? {
      FirstFitWithout(c, active, draining, q, Normal, ticket);
    }
  }

  /** A first fit is a queued leaf of its class that fits. */
  lemma {:induction false} FirstFitIsQueued(c: Config, active: map<Id, ActiveLeaf>, draining: map<Id, ActiveLeaf>,
                                            q: seq<QueuedLeaf>, cls: QueueClass)
    ensures var f := FirstFit(c, active, draining, q, cls);
            f.Some? ==> exists x :: x in q && x.ticket == f.value && x.request.queueClass == cls
                                    && CanFit(c, active, draining, x.request)
  {
    if q != [] {
      if q[0].request.queueClass == cls && CanFit(c, active, draining, q[0].request) {
        assert q[0] in q;
      } else {
        FirstFitIsQueued(c, active, draining, q[1..], cls);
      }
    }
  }

  lemma NextIsQueued(s: Admission)
    ensures NextAdmissible(s).Some? ==> Queued(s.queue, NextAdmissible(s).value)
  {
    FirstFitIsQueued(s.config, s.active, s.draining, s.queue, Interactive);
    FirstFitIsQueued(s.config, s.active, s.draining, s.queue, Normal);
  }

  lemma {:induction false} QueuedBytesAppend(q: seq<QueuedLeaf>, leaf: QueuedLeaf, pool: Pool)
    ensures QueuedBytes(q + [leaf], pool) == QueuedBytes(q, pool) + BytesOf(leaf.request, pool)
  {
    if q == [] {
      assert [leaf][1..] == [];
      assert q + [leaf] == [leaf];
    } else {
      assert (q + [leaf])[1..] == q[1..] + [leaf];
      QueuedBytesAppend(q[1..], leaf, pool);
    }
  }

  lemma {:induction false} QueuedBytesWithout(q: seq<QueuedLeaf>, ticket: U64, pool: Pool)
    ensures QueuedBytes(Without(q, ticket), pool) <= QueuedBytes(q, pool)
    ensures Increasing(q) && Queued(q, ticket) ==>
      QueuedBytes(q, pool) == QueuedBytes(Without(q, ticket), pool) + BytesOf(LeafAt(q, ticket).request, pool)
  {
    if q != [] {
      QueuedBytesWithout(q[1..], ticket, pool);
      if q[0].ticket == ticket {
        if Increasing(q) {
          assert !Queued(q[1..], ticket) by {
            assert forall i :: 0 <= i < |q[1..]| ==> q[1..][i] == q[i + 1];
          }
          WithoutNothing(q[1..], ticket);
        }
      } else {
        assert Without(q, ticket)[1..] == Without(q[1..], ticket);
        assert forall i :: 0 <= i < |q[1..]| ==> q[1..][i] == q[i + 1];
      }
    }
  }

  lemma {:induction false} LeafAtIsQueued(q: seq<QueuedLeaf>, ticket: U64)
    requires Queued(q, ticket)
    ensures LeafAt(q, ticket) in q && LeafAt(q, ticket).ticket == ticket
  {
    if q[0].ticket != ticket {
      LeafAtIsQueued(q[1..], ticket);
    }
  }
}
