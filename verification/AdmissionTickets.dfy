/** What happens once the ticket counter is exhausted, and that every configuration gets there. */
module AdmissionTickets {
  import opened Common
  import opened AdmissionModel
  import opened AdmissionInvariant
  import opened AdmissionPolicy

  // ----- two submissions, one withdrawal -----

  lemma {:induction false} WithoutConcat(p: seq<QueuedLeaf>, q: seq<QueuedLeaf>, ticket: U64)
    ensures Without(p + q, ticket) == Without(p, ticket) + Without(q, ticket)
  {
    if p == [] {
      assert p + q == q;
    } else {
      assert (p + q)[1..] == p[1..] + q;
      WithoutConcat(p[1..], q, ticket);
    }
  }

  lemma WithoutOneOfTwo(l1: QueuedLeaf, l2: QueuedLeaf)
    ensures Without([l1, l2], l1.ticket) == if l2.ticket == l1.ticket then [] else [l2]
    ensures Without([l1, l2], l2.ticket) == if l2.ticket == l1.ticket then [] else [l1]
  {
    assert [l2][1..] == [] && [l1, l2][1..] == [l2];
    forall t: U64 ensures Without([l2], t) == if l2.ticket == t then [] else [l2] {
      assert Without([], t) == [];
    }
  }

  lemma QueueAfterWithdrawal(s: Admission, first: Request, second: Request)
    requires Ticketed(s)
    ensures var q := Enqueue(Enqueue(s, first), second).queue;
            var exact := s.nextTicket < U64_MAX;
            && Without(q, s.nextTicket)
               == (if exact then s.queue + [QueuedLeaf(s.nextTicket + 1, s.config.revision, second)] else s.queue)
            && Without(q, SatAdd(s.nextTicket, 1))
               == (if exact then s.queue + [QueuedLeaf(s.nextTicket, s.config.revision, first)] else s.queue)
  {
    var l1 := QueuedLeaf(s.nextTicket, s.config.revision, first);
    var l2 := QueuedLeaf(SatAdd(s.nextTicket, 1), s.config.revision, second);
    assert Enqueue(Enqueue(s, first), second).queue == s.queue + [l1, l2];
    WithoutNothing(s.queue, l1.ticket);
    WithoutNothing(s.queue, l2.ticket);
    WithoutConcat(s.queue, [l1, l2], l1.ticket);
    WithoutConcat(s.queue, [l1, l2], l2.ticket);
    WithoutOneOfTwo(l1, l2);
  }

  lemma WithdrawalFields(s: Admission, ticket: U64, request: Request)
    ensures var w := Withdraw(s, ticket, request);
            && w.queue == Without(s.queue, ticket) && w.selected == s.selected - {request.operationId}
            && w.active == s.active && w.draining == s.draining
  {
    hide Retained;
  }

  lemma EnqueuedFields(s: Admission, request: Request)
    ensures var e := Enqueue(s, request);
            && e.selected == s.selected + {request.operationId} && e.nextTicket == SatAdd(s.nextTicket, 1)
            && e.active == s.active && e.draining == s.draining && e.cancelled == s.cancelled && e.usage == s.usage
            && e.scopeBudgets.Keys == s.scopeBudgets.Keys + {ScopeOf(request)}
            && e.queue == s.queue + [QueuedLeaf(s.nextTicket, s.config.revision, request)]
  {
    hide ScopeOf;
  }

  lemma AppendedIds(q: seq<QueuedLeaf>, leaf: QueuedLeaf)
    ensures QueueIds(q + [leaf]) == QueueIds(q) + {leaf.request.operationId}
    ensures DistinctIds(q) && leaf.request.operationId !in QueueIds(q) ==> DistinctIds(q + [leaf])
  {
  }

  /** The operation that stays selected must also stay queued. */
  lemma OneLeft(s: Admission, w: Admission, leaf: QueuedLeaf, exact: bool)
    requires Partitioned(s) && leaf.request.operationId !in s.selected
    requires w.queue == (if exact then s.queue + [leaf] else s.queue)
    requires w.selected == s.selected + {leaf.request.operationId} && w.active == s.active && w.draining == s.draining
    ensures Partitioned(w) <==> exact
  {
    AppendedIds(s.queue, leaf);
  }

  /** Of two submissions either can be withdrawn exactly, if and only if the first took a ticket of its own. */
  lemma EitherWithdrawalIsExact(s: Admission, first: Request, second: Request)
    requires Ticketed(s) && Partitioned(s)
    requires first.operationId != second.operationId
    requires first.operationId !in s.selected && second.operationId !in s.selected
    ensures var e := Enqueue(Enqueue(s, first), second);
            && (Partitioned(Withdraw(e, s.nextTicket, first)) <==> s.nextTicket < U64_MAX)
            && (Partitioned(Withdraw(e, SatAdd(s.nextTicket, 1), second)) <==> s.nextTicket < U64_MAX)
  {
    hide Withdraw, Enqueue, Partitioned, Ticketed, Without;
    var e := Enqueue(Enqueue(s, first), second);
    QueueAfterWithdrawal(s, first, second);
    EnqueuedFields(s, first);
    EnqueuedFields(Enqueue(s, first), second);
    WithdrawalFields(e, s.nextTicket, first);
    WithdrawalFields(e, SatAdd(s.nextTicket, 1), second);
    assert e.selected - {first.operationId} == s.selected + {second.operationId};
    assert e.selected - {second.operationId} == s.selected + {first.operationId};
    var l1 := QueuedLeaf(s.nextTicket, s.config.revision, first);
    var l2 := QueuedLeaf(SatAdd(s.nextTicket, 1), s.config.revision, second);
    OneLeft(s, Withdraw(e, l1.ticket, first), l2, s.nextTicket < U64_MAX);
    OneLeft(s, Withdraw(e, l2.ticket, second), l1, s.nextTicket < U64_MAX);
  }

  // ----- the same over critical sections -----

  /** Passes every check that `reserve` makes before it takes a ticket. */
  ghost predicate Accepted(s: Admission, request: Request, seen: Config) {
    RequestError(request, seen).None? && SubmissionError(s, request).None?
  }

  lemma NewIsQueued(s: Admission, request: Request)
    ensures Queued(Enqueue(s, request).queue, s.nextTicket)
  {
    var e := Enqueue(s, request);
    assert e.queue[|s.queue|].ticket == s.nextTicket && e.queue[|s.queue|] in e.queue;
  }

  /** Going to sleep and leaving without a turn is the same as leaving without a turn. */
  lemma SleepForgotten(s: Admission, ticket: U64, request: Request)
    ensures Withdraw(Sleep(s, ticket, request), ticket, request) == Withdraw(s, ticket, request)
  {
    hide Retained, Without;
    var a, b := Sleep(s, ticket, request), s;
    assert a.waiters - {ticket} == b.waiters - {ticket};
    assert a.(queue := [], selected := {}, waiters := map[]) == b.(queue := [], selected := {}, waiters := map[]);
  }

  /** A submission that is turned away, or that waits and then times out, was enqueued and withdrawn. */
  lemma GivesUp(s: Admission, request: Request, seen: Config, expired: bool, late: bool)
    requires Accepted(s, request, seen)
    ensures var (n, reply) := Reserve(s, request, seen, expired);
            && (reply.Blocked? ==> n == Sleep(Enqueue(s, request), s.nextTicket, request) && reply.ticket == s.nextTicket
                                   && s.nextTicket in n.waiters
                                   && Resume(n, s.nextTicket, true, late).1 == Rejected(QueueTimeout))
            && var w := if reply.Blocked? then Resume(n, s.nextTicket, true, late).0 else n;
               !reply.Admitted? ==> w == Withdraw(Enqueue(s, request), s.nextTicket, request)
  {
    hide RequestError, SubmissionError, Withdraw, Enqueue, FirstFit, Admit, Queued;
    NewIsQueued(s, request);
    SleepForgotten(Enqueue(s, request), s.nextTicket, request);
  }

  /**
   * The ticket counter saturates. One accepted submission waits and another one
   * is turned away or times out: the selection stays exact if and only if the
   * first found the counter unexhausted. Otherwise both hold the last ticket and
   * leave the queue together. If the other one is let in instead, it is let in
   * as itself under the same condition, and otherwise as the first.
   */
  lemma WithdrawalIsExactUntilTicketsRunOut(
    s: Admission, first: Request, seen: Config, early: bool, second: Request, seenToo: Config, expired: bool, late: bool)
    requires Ticketed(s) && Partitioned(s)
    requires StepReply(s, ReserveStart(first, seen, early)).1.Blocked?
    requires Accepted(Step(s, ReserveStart(first, seen, early)), second, seenToo)
    ensures var waiting := Step(s, ReserveStart(first, seen, early));
            var (n, reply) := StepReply(waiting, ReserveStart(second, seenToo, expired));
            && (reply.Blocked? ==> Enabled(n, ReserveResume(reply.ticket, true, late)))
            && var end := if reply.Blocked? then Step(n, ReserveResume(reply.ticket, true, late)) else n;
               if reply.Admitted? then Partitioned(end) && (reply.operationId == second.operationId <==> s.nextTicket < U64_MAX)
               else Partitioned(end) <==> s.nextTicket < U64_MAX
  {
    hide RequestError, SubmissionError, Withdraw, Enqueue, Reserve, Resume, Partitioned, Ticketed;
    var waiting := Step(s, ReserveStart(first, seen, early));
    BlockedWasAccepted(s, first, seen, early);
    GivesUp(s, first, seen, early, late);
    GivesUp(waiting, second, seenToo, expired, late);
    DiffersFrom(s, waiting, first, second);
    SleepIsSilent(s, first, second);
    EnqueuedFields(s, first);
    EitherWithdrawalIsExact(s, first, second);
    if Reserve(waiting, second, seenToo, expired).1.Admitted? {
      AdmittedAfter(s, first, second, waiting, seenToo, expired);
    }
  }

  /** The second is let in: without a ticket of its own it takes the leaf of the first. */
  lemma AdmittedAfter(s: Admission, first: Request, second: Request, waiting: Admission, seen: Config, expired: bool)
    requires Ticketed(s) && Partitioned(s) && waiting == Sleep(Enqueue(s, first), s.nextTicket, first)
    requires first.operationId != second.operationId
    requires first.operationId !in s.selected && second.operationId !in s.selected
    requires Reserve(waiting, second, seen, expired).1.Admitted?
    ensures Partitioned(Reserve(waiting, second, seen, expired).0)
    ensures Reserve(waiting, second, seen, expired).1.operationId
         == if s.nextTicket < U64_MAX then second.operationId else first.operationId
  {
    hide Reserve, Enqueue, Admit, Ticketed, Partitioned, WithoutFirst, Queued, LeafAt;
    var e, t := Enqueue(waiting, second), SatAdd(s.nextTicket, 1);
    var l1 := QueuedLeaf(s.nextTicket, s.config.revision, first);
    var l2 := QueuedLeaf(t, s.config.revision, second);
    EnqueuedFields(s, first);
    EnqueuedFields(waiting, second);
    assert e.queue == s.queue + [l1, l2] by { TwoQueued(s, first, second); }
    FirstWithTicket(s, l1, l2);
    AdmittedIs(waiting, second, seen, expired);
    AdmittedFields(e, t, second);
    if s.nextTicket < U64_MAX {
      LetIn(s, Admit(e, t, second), l1, l2);
    } else {
      LetIn(s, Admit(e, t, second), l2, l1);
    }
  }

  lemma TwoQueued(s: Admission, first: Request, second: Request)
    ensures Enqueue(Sleep(Enqueue(s, first), s.nextTicket, first), second).queue
         == s.queue + [QueuedLeaf(s.nextTicket, s.config.revision, first),
                       QueuedLeaf(SatAdd(s.nextTicket, 1), s.config.revision, second)]
  {
  }

  lemma AdmittedIs(s: Admission, request: Request, seen: Config, expired: bool)
    requires Reserve(s, request, seen, expired).1.Admitted?
    ensures Queued(Enqueue(s, request).queue, s.nextTicket)
    ensures Reserve(s, request, seen, expired) ==
            (Admit(Enqueue(s, request), s.nextTicket, request),
             Admitted(LeafAt(Enqueue(s, request).queue, s.nextTicket).request.operationId))
  {
    hide RequestError, SubmissionError, FirstFit, Withdraw, Enqueue, Admit, Queued;
  }

  lemma AdmittedFields(s: Admission, ticket: U64, request: Request)
    requires Queued(s.queue, ticket)
    ensures var n := Admit(s, ticket, request);
            && n.queue == WithoutFirst(s.queue, ticket) && n.selected == s.selected && n.draining == s.draining
            && n.active.Keys == s.active.Keys + {LeafAt(s.queue, ticket).request.operationId}
  {
  }

  lemma FirstWithTicket(s: Admission, l1: QueuedLeaf, l2: QueuedLeaf)
    requires Ticketed(s) && l1.ticket == s.nextTicket && l2.ticket == SatAdd(s.nextTicket, 1)
    ensures var q, exact := s.queue + [l1, l2], s.nextTicket < U64_MAX;
            && Queued(q, l2.ticket) && LeafAt(q, l2.ticket) == (if exact then l2 else l1)
            && WithoutFirst(q, l2.ticket) == s.queue + [if exact then l1 else l2]
  {
    assert l2 in [l1, l2] && [l1, l2][1..] == [l2] && l2 in [l2] && [l2][1..] == [];
    LeafBehind(s.queue, [l1, l2], l2.ticket);
  }

  lemma LetIn(s: Admission, n: Admission, stays: QueuedLeaf, goes: QueuedLeaf)
    requires Partitioned(s) && stays.request.operationId != goes.request.operationId
    requires stays.request.operationId !in s.selected && goes.request.operationId !in s.selected
    requires n.queue == s.queue + [stays] && n.active.Keys == s.active.Keys + {goes.request.operationId}
    requires n.draining == s.draining
    requires n.selected == s.selected + {stays.request.operationId} + {goes.request.operationId}
    ensures Partitioned(n)
  {
    AppendedIds(s.queue, stays);
  }

  lemma BlockedWasAccepted(s: Admission, request: Request, seen: Config, expired: bool)
    requires Reserve(s, request, seen, expired).1.Blocked?
    ensures Accepted(s, request, seen) && request.operationId !in s.selected
  {
    hide RequestError, Held, FirstFit, Withdraw, Admit;
  }

  lemma DiffersFrom(s: Admission, waiting: Admission, first: Request, second: Request)
    requires waiting == Sleep(Enqueue(s, first), s.nextTicket, first) && SubmissionError(waiting, second).None?
    ensures first.operationId != second.operationId && second.operationId !in s.selected
  {
    hide Held;
  }

  /** Whether the first is asleep makes no difference to what the second leaves but for the waiting threads. */
  lemma SleepIsSilent(s: Admission, first: Request, second: Request)
    ensures var asleep := Enqueue(Sleep(Enqueue(s, first), s.nextTicket, first), second);
            var w := Withdraw(asleep, SatAdd(s.nextTicket, 1), second);
            Partitioned(w) <==> Partitioned(Withdraw(Enqueue(Enqueue(s, first), second), SatAdd(s.nextTicket, 1), second))
  {
    hide Withdraw, Without, Partitioned;
    var t := SatAdd(s.nextTicket, 1);
    var a, b := Enqueue(Sleep(Enqueue(s, first), s.nextTicket, first), second), Enqueue(Enqueue(s, first), second);
    WithdrawalFields(a, t, second);
    WithdrawalFields(b, t, second);
    SamePartition(Withdraw(a, t, second), Withdraw(b, t, second));
  }

  lemma SamePartition(a: Admission, b: Admission)
    requires a.queue == b.queue && a.selected == b.selected && a.active == b.active && a.draining == b.draining
    ensures Partitioned(a) <==> Partitioned(b)
  {
  }

  // ----- every configuration gets there -----

  ghost predicate Reachable(config: Config, s: Admission) {
    exists trace: seq<Admission>, actions: seq<Action> ::
      IsRun(trace, actions) && trace[0] == Fresh(config) && trace[|trace| - 1] == s
  }

  lemma ReachStart(config: Config)
    ensures Reachable(config, Fresh(config))
  {
    var trace, actions := [Fresh(config)], [];
    assert IsRun(trace, actions) && trace[0] == Fresh(config) && trace[|trace| - 1] == Fresh(config);
  }

  lemma ReachStep(config: Config, s: Admission, a: Action)
    requires Reachable(config, s) && Enabled(s, a)
    ensures Reachable(config, Step(s, a))
  {
    hide StepReply;
    var trace, actions :| IsRun(trace, actions) && trace[0] == Fresh(config) && trace[|trace| - 1] == s;
    var more, longer := trace + [Step(s, a)], actions + [a];
    assert forall i :: 0 <= i < |longer| ==> Enabled(more[i], longer[i]) && more[i + 1] == Step(more[i], longer[i]);
    assert IsRun(more, longer) && more[0] == Fresh(config) && more[|more| - 1] == Step(s, a);
  }

  /** A small leaf without lanes; its id is told apart by its length. */
  function Small(k: nat, timeout: U64): Request {
    Request(seq(k + 1, i => 'a'), None, None, "model", [], 0, 0, Amounts(1, 1, 1, 1, 1, 1), Interactive, timeout, None)
  }

  ghost predicate Short(ids: set<Id>, k: nat) {
    forall id :: id in ids ==> |id| <= k
  }

  lemma OneLonger(ids: set<Id>, k: nat, id: Id)
    requires Short(ids, k) && |id| == k + 1
    ensures Short(ids + {id}, k + 1) && id !in ids
  {
  }

  /** `m` leaves run, nothing else is going on, and every id used so far is shorter than the next. */
  ghost predicate Calm(s: Admission, config: Config, k: nat, m: nat) {
    && s.config == config && s.queue == [] && s.draining.Keys == {} && s.cancelled == {} && s.waiters.Keys == {}
    && s.selected == s.active.Keys && |s.active.Keys| == m
    && Short(s.active.Keys, k) && Short(s.usage.Keys, k) && Short(s.scopeBudgets.Keys, k)
  }

  lemma SmallIsAccepted(s: Admission, config: Config, k: nat, m: nat, timeout: U64)
    requires Calm(s, config, k, m)
    ensures Accepted(s, Small(k, timeout), config)
    ensures CanFit(config, s.active, s.draining, Small(k, timeout)) <==> m < config.globalMaxActive
  {
    hide Held, LaneUsed;
    var r := Small(k, timeout);
    assert |r.operationId| == k + 1 && ScopeOf(r) == r.operationId;
  }

  lemma SmallIs(k: nat, timeout: U64)
    ensures var r := Small(k, timeout);
            |r.operationId| == k + 1 && ScopeOf(r) == r.operationId && r.queueClass == Interactive && r.queueTimeoutMs == timeout
  {
  }

  lemma CalmAfter(s: Admission, n: Admission, config: Config, k: nat, m: nat, id: Id)
    requires Calm(s, config, k, m) && |id| == k + 1
    requires n.config == config && n.queue == [] && n.draining.Keys == {} && n.cancelled == {} && n.waiters.Keys == {}
    requires n.active.Keys == s.active.Keys + {id} && n.selected == s.selected + {id}
    requires n.usage.Keys == s.usage.Keys + {id} && n.scopeBudgets.Keys == s.scopeBudgets.Keys + {id}
    ensures id !in s.active && Calm(n, config, k + 1, m + 1)
  {
    hide Short;
    OneLonger(s.active.Keys, k, id);
    OneLonger(s.usage.Keys, k, id);
    OneLonger(s.scopeBudgets.Keys, k, id);
  }

  lemma EnteredFields(s: Admission, r: Request)
    requires s.queue == [] && s.config.maxQueued > 0 && r.queueClass == Interactive && Accepted(s, r, s.config)
    requires CanFit(s.config, s.active, s.draining, r)
    ensures var n := Reserve(s, r, s.config, false).0;
            && n.queue == [] && n.draining == s.draining && n.config == s.config && n.cancelled == s.cancelled
            && n.nextTicket == SatAdd(s.nextTicket, 1) && n.selected == s.selected + {r.operationId}
            && n.active.Keys == s.active.Keys + {r.operationId} && n.usage.Keys == s.usage.Keys + {r.operationId}
            && n.scopeBudgets.Keys == s.scopeBudgets.Keys + {ScopeOf(r)} && n.waiters.Keys == s.waiters.Keys - {s.nextTicket}
  {
    hide Reserve, RequestError, SubmissionError, CanFit, ScopeOf, Enqueue;
    SoleEntrant(s, r);
    EnqueuedFields(s, r);
  }

  lemma Entered(s: Admission, n: Admission, config: Config, k: nat, m: nat, r: Request)
    requires Calm(s, config, k, m) && r == Small(k, 0) && n == Reserve(s, r, config, false).0
    requires Accepted(s, r, config) && CanFit(config, s.active, s.draining, r) && config.maxQueued > 0
    ensures Calm(n, config, k + 1, m + 1) && n.nextTicket == SatAdd(s.nextTicket, 1)
    ensures n.active.Keys == s.active.Keys + {r.operationId} && r.operationId !in s.active
  {
    hide Reserve, Accepted, CanFit, Small, ScopeOf, Short;
    SmallIs(k, 0);
    EnteredFields(s, r);
    CalmAfter(s, n, config, k, m, r.operationId);
  }

  /** One leaf enters and stays. */
  lemma Enter(s: Admission, config: Config, k: nat, m: nat)
    requires ValidConfig(config) && Calm(s, config, k, m) && m < config.globalMaxActive
    ensures var n := Step(s, ReserveStart(Small(k, 0), config, false));
            && Calm(n, config, k + 1, m + 1) && n.nextTicket == SatAdd(s.nextTicket, 1)
            && n.active.Keys == s.active.Keys + {Small(k, 0).operationId} && Small(k, 0).operationId !in s.active
  {
    hide Reserve, Calm, CanFit, Small, Accepted;
    SmallIsAccepted(s, config, k, m, 0);
    Entered(s, Reserve(s, Small(k, 0), config, false).0, config, k, m, Small(k, 0));
  }

  lemma Exit(s: Admission, config: Config, k: nat, m: nat, id: Id)
    requires Calm(s, config, k, m) && id in s.active
    ensures var n := Step(s, Release(id)); Calm(n, config, k, m - 1) && n.nextTicket == s.nextTicket
  {
    var n := Step(s, Release(id));
    assert n.active.Keys == s.active.Keys - {id};
    assert n.waiters.Keys == {};
  }

  /** Leaf after leaf enters and leaves until `n` tickets are gone. */
  lemma {:induction false} Rounds(config: Config, n: nat) returns (s: Admission)
    requires ValidConfig(config) && n < U64_MAX
    ensures Reachable(config, s) && Calm(s, config, n, 0) && s.nextTicket == n + 1
  {
    hide Reachable, ValidConfig, Step, Calm, Small;
    if n == 0 {
      ReachStart(config);
      FreshIsCalm(config, 0);
      s := Fresh(config);
    } else {
      var before := Rounds(config, n - 1);
      assert config.globalMaxActive > 0 by { SomeRoom(config); }
      var enter, leave := ReserveStart(Small(n - 1, 0), config, false), Release(Small(n - 1, 0).operationId);
      Enter(before, config, n - 1, 0);
      ReachStep(config, before, enter);
      Exit(Step(before, enter), config, n, 1, Small(n - 1, 0).operationId);
      ReachStep(config, Step(before, enter), leave);
      s := Step(Step(before, enter), leave);
    }
  }

  lemma FreshIsCalm(config: Config, k: nat)
    ensures Calm(Fresh(config), config, k, 0)
  {
  }

  lemma SomeRoom(config: Config)
    requires ValidConfig(config)
    ensures config.globalMaxActive > 0 && config.maxQueued > 0
  {
  }

  /** Then leaves enter and stay; they all get the last ticket. */
  lemma {:induction false} Filled(config: Config, m: nat) returns (s: Admission, k: nat)
    requires ValidConfig(config) && m <= config.globalMaxActive
    ensures Reachable(config, s) && Calm(s, config, k, m) && s.nextTicket == U64_MAX
  {
    hide Reachable, ValidConfig, Step, Calm;
    if m == 0 {
      k := U64_MAX - 1;
      s := Rounds(config, k);
    } else {
      var before, used := Filled(config, m - 1);
      Enter(before, config, used, m - 1);
      ReachStep(config, before, ReserveStart(Small(used, 0), config, false));
      s, k := Step(before, ReserveStart(Small(used, 0), config, false)), used + 1;
    }
  }

  lemma CalmIsExact(s: Admission, config: Config, k: nat, m: nat)
    requires Calm(s, config, k, m)
    ensures Ticketed(s) && Partitioned(s)
  {
  }

  lemma {:induction false} NoneFits(c: Config, active: map<Id, ActiveLeaf>, draining: map<Id, ActiveLeaf>,
                                    q: seq<QueuedLeaf>, cls: QueueClass)
    requires |active| + |draining| >= c.globalMaxActive
    ensures FirstFit(c, active, draining, q, cls).None?
  {
    if q != [] { NoneFits(c, active, draining, q[1..], cls); }
  }

  lemma NobodyFits(s: Admission)
    requires Slots(s) >= s.config.globalMaxActive
    ensures NextAdmissible(s).None?
  {
    NoneFits(s.config, s.active, s.draining, s.queue, Interactive);
    NoneFits(s.config, s.active, s.draining, s.queue, Normal);
  }

  /** With no slot left a lone submission waits, or is turned away if it will not wait. */
  lemma NoSlot(s: Admission, config: Config, k: nat)
    requires ValidConfig(config) && Calm(s, config, k, config.globalMaxActive)
    ensures StepReply(s, ReserveStart(Small(k, 1), config, false)) ==
            (Sleep(Enqueue(s, Small(k, 1)), s.nextTicket, Small(k, 1)), Blocked(s.nextTicket))
  {
    hide RequestError, SubmissionError, CanFit;
    var r := Small(k, 1);
    SmallIsAccepted(s, config, k, config.globalMaxActive, 1);
    NewIsQueued(s, r);
    var e := Enqueue(s, r);
    NobodyFits(e);
  }

  lemma SmallIsNew(s: Admission, k: nat, timeout: U64)
    requires var id := Small(k, timeout).operationId;
             && id !in s.selected && id !in QueueIds(s.queue) && id !in s.active && id !in s.draining
             && id !in s.cancelled && id !in s.usage && id !in s.scopeBudgets
    ensures SubmissionError(s, Small(k, timeout)).None?
  {
    hide Held, QueueIds;
  }

  lemma SmallIsValid(k: nat, timeout: U64, seen: Config)
    ensures RequestError(Small(k, timeout), seen).None?
  {
  }

  lemma NextIsAccepted(s: Admission, config: Config, k: nat, m: nat)
    requires Calm(s, config, k, m)
    ensures Accepted(Sleep(Enqueue(s, Small(k, 1)), s.nextTicket, Small(k, 1)), Small(k + 1, 0), config)
  {
    hide RequestError, SubmissionError, Small, ScopeOf, Short, Enqueue, QueueIds;
    var r, x := Small(k, 1), Small(k + 1, 0);
    SmallIs(k, 1);
    SmallIs(k + 1, 0);
    SmallIsValid(k + 1, 0, config);
    NotShort(s, config, k, m, x.operationId);
    EnqueuedFields(s, r);
    AppendedIds(s.queue, QueuedLeaf(s.nextTicket, config.revision, r));
    assert QueueIds([]) == {} by { NobodyQueued(); }
    SmallIsNew(Sleep(Enqueue(s, r), s.nextTicket, r), k + 1, 0);
  }

  lemma NobodyQueued()
    ensures QueueIds([]) == {}
  {
  }

  lemma NotShort(s: Admission, config: Config, k: nat, m: nat, id: Id)
    requires Calm(s, config, k, m) && |id| > k
    ensures id !in s.selected && id !in s.active && id !in s.usage && id !in s.scopeBudgets
  {
  }

  /**
   * In every valid configuration a run exhausts the counter, fills every slot and
   * then accepts two submissions, after which the selection is no longer exact.
   */
  lemma TicketsRunOut(config: Config) returns (s: Admission, first: Action, second: Action)
    requires ValidConfig(config)
    ensures Reachable(config, s) && s.nextTicket == U64_MAX && Partitioned(s)
    ensures first.ReserveStart? && StepReply(s, first).1 == Blocked(U64_MAX)
    ensures second.ReserveStart? && Accepted(Step(s, first), second.request, second.seen)
    ensures !Partitioned(Step(Step(s, first), second))
  {
    hide Reachable, ValidConfig, Calm, Partitioned, Ticketed, Reserve, Accepted;
    var k;
    s, k := Filled(config, config.globalMaxActive);
    first, second := ReserveStart(Small(k, 1), config, false), ReserveStart(Small(k + 1, 0), config, false);
    CalmIsExact(s, config, k, config.globalMaxActive);
    NoSlot(s, config, k);
    NextIsAccepted(s, config, k, config.globalMaxActive);
    WithdrawalIsExactUntilTicketsRunOut(s, first.request, config, false, second.request, config, false, false);
    assert Slots(s) >= config.globalMaxActive && s.config == config by { CalmIsFull(s, config, k); }
    TurnedAway(Step(s, first), second.request, config);
  }

  lemma CalmIsFull(s: Admission, config: Config, k: nat)
    requires Calm(s, config, k, config.globalMaxActive)
    ensures Slots(s) >= config.globalMaxActive && s.config == config
  {
  }

  lemma TurnedAway(s: Admission, request: Request, seen: Config)
    requires request.queueTimeoutMs == 0 && Slots(s) >= s.config.globalMaxActive
    ensures !Reserve(s, request, seen, false).1.Blocked? && !Reserve(s, request, seen, false).1.Admitted?
  {
    hide RequestError, SubmissionError, Withdraw;
    NobodyFits(Enqueue(s, request));
  }
}
