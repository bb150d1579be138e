/** Safety of the admission domain over every interleaving of its critical sections. */
module AdmissionTheorems {
  import opened Common
  import opened AdmissionModel
  import opened AdmissionInvariant
  import opened AdmissionSteps

  // ----- every step, every run -----

  lemma {:induction false} AcceptedLanesDiffer(lanes: seq<LaneRequirement>, seen: set<Id>, caps: map<Id, U64>)
    requires LaneErrors(lanes, seen, caps).None?
    ensures DistinctLanes(lanes)
    ensures forall i :: 0 <= i < |lanes| ==> lanes[i].lane !in seen && 0 < lanes[i].units
  {
    if lanes != [] {
      var rest := seen + {lanes[0].lane};
      AcceptedLanesDiffer(lanes[1..], rest, caps);
      forall i | 0 < i < |lanes|
        ensures lanes[i].lane !in rest && 0 < lanes[i].units
      {
        assert lanes[1..][i - 1] == lanes[i];
      }
      forall i, j | 0 <= i < j < |lanes| ensures lanes[i].lane != lanes[j].lane {
        if 0 < i { assert lanes[1..][i - 1] == lanes[i] && lanes[1..][j - 1] == lanes[j]; }
      }
    }
  }

  lemma LoopPassKeeps(s: Admission, ticket: U64, request: Request, expired: bool)
    requires Inv(s) && ticket in s.waiters && s.waiters[ticket].request == request
    ensures Inv(LoopPass(s, ticket, request, expired).0)
  {
    if !Queued(s.queue, ticket) {
      LeaveKeeps(s, ticket);
    } else if NextAdmissible(s) == Some(ticket) {
      AdmitKeeps(s, ticket, request);
    } else if request.queueTimeoutMs == 0 || expired {
      WithdrawKeeps(s, ticket, request);
    } else {
      SleepKeeps(s, ticket, request);
    }
  }

  /** The rollback of a full queue restores the queue and the waiting threads. */
  lemma FullQueueWaiters(s: Admission, request: Request)
    requires Ticketed(s) && s.nextTicket < U64_MAX
    ensures Withdraw(Enqueue(s, request), s.nextTicket, request).waiters == s.waiters
    ensures Withdraw(Enqueue(s, request), s.nextTicket, request).queue == s.queue
  {
    hide Retained;
    WithoutLast(s.queue, QueuedLeaf(s.nextTicket, s.config.revision, request));
  }

  /** The rollback of a full queue restores the first fit that was there before. */
  lemma FullQueueKeeps(s: Admission, request: Request)
    requires Inv(s) && s.nextTicket < U64_MAX
    requires SubmissionError(s, request).None? && DistinctLanes(request.lanes)
    ensures Inv(Withdraw(Enqueue(s, request), s.nextTicket, request))
  {
    hide Partitioned, Accounted, Attended, Held, FenceHolds, Told, FirstFit, Retained, SubmissionError;
    var e := Enqueue(s, request);
    var leaf := QueuedLeaf(s.nextTicket, s.config.revision, request);
    EnqueueKeeps(s, request);
    if NextAdmissible(e) != Some(leaf.ticket) {
      WithdrawKeeps(e, leaf.ticket, request);
    } else {
      WithdrawBase(e, leaf.ticket, request);
      var w := Withdraw(e, leaf.ticket, request);
      FullQueueWaiters(s, request);
      assert NextAdmissible(w) == NextAdmissible(s);
      NextIsQueued(s);
    }
  }

  lemma ReserveKeeps(s: Admission, request: Request, seen: Config, expired: bool)
    requires Inv(s) && s.nextTicket < U64_MAX
    ensures Inv(Reserve(s, request, seen, expired).0)
  {
    if RequestError(request, seen).None? && SubmissionError(s, request).None? {
      AcceptedLanesDiffer(request.lanes, {}, seen.laneCaps);
      var e := Enqueue(s, request);
      if |e.queue| > s.config.maxQueued {
        FullQueueKeeps(s, request);
      } else {
        EnqueueKeeps(s, request);
        LoopPassKeeps(e, s.nextTicket, request, expired);
      }
    }
  }

  lemma ResumeKeeps(s: Admission, ticket: U64, timedOut: bool, expired: bool)
    requires Inv(s) && ticket in s.waiters
    ensures Inv(Resume(s, ticket, timedOut, expired).0)
  {
    if timedOut && NextAdmissible(s) != Some(ticket) {
      WithdrawKeeps(s, ticket, s.waiters[ticket].request);
    } else {
      LoopPassKeeps(s, ticket, s.waiters[ticket].request, expired);
    }
  }

  /** A submission still has a ticket of its own to take. */
  predicate TicketLeft(s: Admission, a: Action) {
    a.ReserveStart? ==> s.nextTicket < U64_MAX
  }

  lemma StepKeepsInv(s: Admission, a: Action)
    requires Inv(s) && Enabled(s, a) && TicketLeft(s, a)
    ensures Inv(Step(s, a))
  {
    match a
    case ReserveStart(request, seen, expired) => ReserveKeeps(s, request, seen, expired);
    case ReserveResume(ticket, timedOut, late) => ResumeKeeps(s, ticket, timedOut, late);
    case Configure(config) => ReconfigureKeeps(s, config);
    case FenceParent(parent) => FenceKeeps(s, parent);
    case SetInFlight(id, inFlight) => SetInFlightKeeps(s, id, inFlight);
    case Release(id) => ReleaseKeeps(s, id);
    case Drain(id) => MoveKeeps(s, id);
    case Reconcile(id) => ReconcileKeeps(s, id);
    case ChargeUsage(id, delta) => ChargeKeeps(s, id, delta);
  }

  ghost predicate TicketsLeft(trace: seq<Admission>, actions: seq<Action>)
    requires |trace| == |actions| + 1
  {
    forall i :: 0 <= i < |actions| ==> TicketLeft(trace[i], actions[i])
  }

  /** A run of the domain from its construction, short of exhausting the ticket counter. */
  ghost predicate DomainRun(config: Config, trace: seq<Admission>, actions: seq<Action>) {
    IsRun(trace, actions) && trace[0] == Fresh(config) && TicketsLeft(trace, actions)
  }

  lemma {:induction false} RunKeepsInv(config: Config, trace: seq<Admission>, actions: seq<Action>, i: nat)
    requires DomainRun(config, trace, actions) && i < |trace|
    ensures Inv(trace[i])
  {
    if i == 0 {
      assert forall pool :: Held(trace[0], pool) == 0;
    } else {
      RunKeepsInv(config, trace, actions, i - 1);
      StepKeepsInv(trace[i - 1], actions[i - 1]);
    }
  }

  /**
   * No lost wake-up. Whenever the lock is free and some leaf may be admitted, the
   * thread that owns it has been signalled since it last looked, and so has every
   * thread whose leaf a fence took away. Timeouts and rollbacks notify nobody.
   */
  lemma NoLostWakeup(config: Config, trace: seq<Admission>, actions: seq<Action>, i: nat)
    requires DomainRun(config, trace, actions) && i < |trace|
    ensures var next := NextAdmissible(trace[i]);
            next.Some? ==> next.value in trace[i].waiters && trace[i].waiters[next.value].signalled
    ensures forall t :: t in trace[i].waiters && !Queued(trace[i].queue, t) ==> trace[i].waiters[t].signalled
  {
    RunKeepsInv(config, trace, actions, i);
  }
}
