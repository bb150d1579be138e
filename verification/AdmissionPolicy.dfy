/** The order in which waiting leaves are admitted, and the one lane cap that is not enforced. */
module AdmissionPolicy {
  import opened Common
  import opened AdmissionModel
  import opened AdmissionInvariant
  import opened AdmissionTheorems
  import opened AdmissionCapacity
  import opened AdmissionRuns

  ghost predicate Fits(s: Admission, leaf: QueuedLeaf) {
    CanFit(s.config, s.active, s.draining, leaf.request)
  }

  /** The scan returns the first leaf of the class that fits; everything before it does not. */
  lemma {:induction false} FirstFitIsFirst(s: Admission, q: seq<QueuedLeaf>, cls: QueueClass)
    ensures FirstFit(s.config, s.active, s.draining, q, cls).None?
        <==> forall x :: x in q && x.request.queueClass == cls ==> !Fits(s, x)
    ensures FirstFit(s.config, s.active, s.draining, q, cls).Some? ==>
              exists i :: 0 <= i < |q| && FirstOfClass(s, q, cls, i)
                          && q[i].ticket == FirstFit(s.config, s.active, s.draining, q, cls).value
  {
    hide CanFit;
    if q != [] {
      if !(q[0].request.queueClass == cls && Fits(s, q[0])) {
        FirstFitIsFirst(s, q[1..], cls);
        assert forall x :: x in q <==> x == q[0] || x in q[1..];
        if FirstFit(s.config, s.active, s.draining, q, cls).Some? {
          var i :| 0 <= i < |q[1..]| && FirstOfClass(s, q[1..], cls, i)
                   && q[1..][i].ticket == FirstFit(s.config, s.active, s.draining, q, cls).value;
          assert forall k :: 0 < k <= i + 1 ==> q[k] == q[1..][k - 1];
          assert FirstOfClass(s, q, cls, i + 1);
        }
      } else {
        assert q[0] in q && FirstOfClass(s, q, cls, 0);
      }
    }
  }

  ghost predicate FirstOfClass(s: Admission, q: seq<QueuedLeaf>, cls: QueueClass, i: nat)
    requires i < |q|
  {
    && q[i].request.queueClass == cls && Fits(s, q[i])
    && forall k :: 0 <= k < i ==> !(q[k].request.queueClass == cls && Fits(s, q[k]))
  }

  /** The queue is idle exactly when nothing in it fits. */
  lemma NextNoneIff(s: Admission)
    ensures NextAdmissible(s).None? <==> forall x :: x in s.queue ==> !Fits(s, x)
  {
    hide CanFit, FirstFit;
    FirstFitIsFirst(s, s.queue, Interactive);
    FirstFitIsFirst(s, s.queue, Normal);
    assert forall x: QueuedLeaf :: x.request.queueClass == Interactive || x.request.queueClass == Normal;
  }

  /** Every lane the first request needs, the second needs at least as much of. */
  ghost predicate NeedsNoMore(a: Request, b: Request) {
    forall i :: 0 <= i < |a.lanes| ==> Covered(a.lanes[i], b)
  }

  ghost predicate Covered(need: LaneRequirement, b: Request) {
    exists j :: 0 <= j < |b.lanes| && b.lanes[j].lane == need.lane && need.units <= b.lanes[j].units
  }

  lemma SmallerFits(c: Config, active: map<Id, ActiveLeaf>, draining: map<Id, ActiveLeaf>, a: Request, b: Request)
    requires NeedsNoMore(a, b) && CanFit(c, active, draining, b)
    ensures CanFit(c, active, draining, a)
  {
  }

  /** `leaf` goes ahead of nobody it must not go ahead of. */
  ghost predicate FairChoice(s: Admission, leaf: QueuedLeaf) {
    && leaf in s.queue && Fits(s, leaf)
    && (leaf.request.queueClass == Normal ==>
          forall x :: x in s.queue && x.request.queueClass == Interactive ==> !Fits(s, x))
    && (forall x :: x in s.queue && x.ticket < leaf.ticket && x.request.queueClass == leaf.request.queueClass ==>
          !NeedsNoMore(x.request, leaf.request))
  }

  lemma EarlierIsBefore(q: seq<QueuedLeaf>, x: QueuedLeaf, i: nat)
    requires Increasing(q) && x in q && i < |q| && x.ticket < q[i].ticket
    ensures exists k :: 0 <= k < i && q[k] == x
  {
  }

  lemma NextIsFair(s: Admission)
    requires Increasing(s.queue) && NextAdmissible(s).Some?
    ensures exists leaf :: FairChoice(s, leaf) && leaf.ticket == NextAdmissible(s).value
  {
    hide CanFit, FirstFit, NeedsNoMore;
    FirstFitIsFirst(s, s.queue, Interactive);
    FirstFitIsFirst(s, s.queue, Normal);
    var cls := if FirstFit(s.config, s.active, s.draining, s.queue, Interactive).Some? then Interactive else Normal;
    var i :| 0 <= i < |s.queue| && FirstOfClass(s, s.queue, cls, i) && s.queue[i].ticket == NextAdmissible(s).value;
    var leaf := s.queue[i];
    forall x | x in s.queue && x.ticket < leaf.ticket && x.request.queueClass == cls
      ensures !NeedsNoMore(x.request, leaf.request)
    {
      EarlierIsBefore(s.queue, x, i);
      if NeedsNoMore(x.request, leaf.request) {
        SmallerFits(s.config, s.active, s.draining, x.request, leaf.request);
      }
    }
    assert FairChoice(s, leaf);
  }

  /** The state in which the loop of `reserve` makes its choice. */
  ghost function Contest(s: Admission, a: Action): Admission {
    if a.ReserveStart? then Enqueue(s, a.request) else s
  }

  lemma LoopPassIsFair(s: Admission, ticket: U64, request: Request, expired: bool, id: Id)
    requires Increasing(s.queue) && LoopPass(s, ticket, request, expired).1 == Admitted(id)
    ensures exists leaf :: FairChoice(s, leaf) && leaf.request.operationId == id
  {
    hide FairChoice, NextOf, Retained;
    NextIsFair(s);
    var leaf :| FairChoice(s, leaf) && leaf.ticket == ticket;
    assert leaf in s.queue by { FairIsQueued(s, leaf); }
    LeafAtIsQueued(s.queue, ticket);
    SameTicket(s.queue, leaf, LeafAt(s.queue, ticket));
  }

  lemma FairIsQueued(s: Admission, leaf: QueuedLeaf)
    requires FairChoice(s, leaf)
    ensures leaf in s.queue
  {
  }

  lemma OnlyReserveAdmits(s: Admission, a: Action, id: Id)
    requires Admits(s, a, id)
    ensures a.ReserveStart? || a.ReserveResume?
  {
    hide Reserve, Resume, FirstExceeded, MarkUnknown, Chosen, Retained;
  }

  /**
   * No overtaking: whoever is admitted, in any run, fits; a normal leaf only when
   * no interactive leaf fits; and never past an earlier leaf of its class that
   * needs no more of any lane.
   */
  lemma AdmissionIsFair(config: Config, trace: seq<Admission>, actions: seq<Action>, i: nat, id: Id)
    requires DomainRun(config, trace, actions) && i < |actions| && Admits(trace[i], actions[i], id)
    ensures exists leaf :: FairChoice(Contest(trace[i], actions[i]), leaf) && leaf.request.operationId == id
  {
    hide FairChoice, LoopPass, RequestError, SubmissionError, NextOf, Retained, Fence, Charge, MarkUnknown, Chosen;
    var s, a := trace[i], actions[i];
    RunStep(config, trace, actions, i);
    OnlyReserveAdmits(s, a, id);
    assert Increasing(Contest(s, a).queue) by { ContestIncreasing(s, a); }
    if a.ReserveStart? {
      LoopPassIsFair(Contest(s, a), s.nextTicket, a.request, a.expired, id);
    } else {
      LoopPassIsFair(s, a.ticket, s.waiters[a.ticket].request, a.late, id);
    }
  }

  lemma ContestIncreasing(s: Admission, a: Action)
    requires Inv(s)
    ensures Increasing(Contest(s, a).queue)
  {
  }

  /**
   * Work conservation: when some queued leaf fits, the thread whose turn it is can
   * run, and it is admitted even if its wait has timed out in the meantime.
   */
  lemma NextIsServed(config: Config, trace: seq<Admission>, actions: seq<Action>, i: nat, timedOut: bool, late: bool)
    requires DomainRun(config, trace, actions) && i < |trace|
    requires exists x :: x in trace[i].queue && Fits(trace[i], x)
    ensures var next := NextAdmissible(trace[i]);
            && next.Some? && next.value in trace[i].waiters && trace[i].waiters[next.value].signalled
            && StepReply(trace[i], ReserveResume(next.value, timedOut, late)).1.Admitted?
  {
    hide CanFit, FirstFit, Base, Told;
    var s := trace[i];
    RunKeepsInv(config, trace, actions, i);
    NextNoneIff(s);
    NextIsQueued(s);
  }

  // ----- lane caps -----

  ghost predicate LaneAlwaysWithin(config: Config, lane: Id)
    requires lane in config.laneCaps
  {
    forall trace, actions, i ::
      DomainRun(config, trace, actions) && Unconfigured(actions) && 0 <= i < |trace| ==>
        Used(trace[i], lane) <= config.laneCaps[lane]
  }

  function OneLane(id: Id, lane: Id, units: U64): Request {
    Request(id, None, None, "model", [LaneRequirement(lane, units)], 0, 0, Amounts(1, 1, 1, 1, 1, 1), Interactive, 0, None)
  }

  /** With an empty queue a fitting request is admitted at once. */
  lemma SoleEntrant(s: Admission, request: Request)
    requires s.queue == [] && s.config.maxQueued > 0 && request.queueClass == Interactive
    requires RequestError(request, s.config).None? && SubmissionError(s, request).None?
    requires CanFit(s.config, s.active, s.draining, request)
    ensures var n := Reserve(s, request, s.config, false).0;
            && n.queue == [] && n.draining == s.draining && n.config == s.config
            && n.nextTicket == SatAdd(s.nextTicket, 1) && n.scopeBudgets == Enqueue(s, request).scopeBudgets
            && n.usage.Keys == s.usage.Keys + {request.operationId} && n.cancelled == s.cancelled
            && n.fencedParents == s.fencedParents
            && n.selected == s.selected + {request.operationId} && n.waiters.Keys == s.waiters.Keys - {s.nextTicket}
            && n.active == s.active[request.operationId :=
                 ActiveLeaf(s.nextTicket, s.config.revision, s.config.revision, request, false)]
  {
    hide RequestError, SubmissionError, CanFit;
    var e := Enqueue(s, request);
    var leaf := QueuedLeaf(s.nextTicket, s.config.revision, request);
    assert e.queue == [leaf];
    assert leaf in e.queue && Queued(e.queue, s.nextTicket);
    assert NextAdmissible(e) == Some(s.nextTicket);
    assert [leaf][1..] == [];
    assert WithoutFirst(e.queue, s.nextTicket) == [];
  }

  lemma OneLaneFits(s: Admission, id: Id, lane: Id, units: U64)
    requires ValidConfig(s.config) && lane in s.config.laneCaps && s.config.laneCaps[lane] == U64_MAX
    requires id != "" && id !in s.selected && id !in s.cancelled && id !in s.usage && id !in s.scopeBudgets
    requires s.queue == [] && id !in s.active && s.draining == map[] && |s.active| < U64_MAX && units > 0
    ensures RequestError(OneLane(id, lane, units), s.config).None?
    ensures SubmissionError(s, OneLane(id, lane, units)).None?
    ensures CanFit(s.config, s.active, s.draining, OneLane(id, lane, units))
  {
    hide LaneUsed, Held;
    var r := OneLane(id, lane, units);
    assert r.lanes[1..] == [];
    assert LaneErrors([], {} + {lane}, s.config.laneCaps).None?;
    assert LaneFits(s.config, s.active, s.draining, r.lanes[0]);
    assert ScopeOf(r) == id;
  }

  lemma UsedByOne(active: map<Id, ActiveLeaf>, draining: map<Id, ActiveLeaf>, id: Id, leaf: ActiveLeaf, lane: Id, units: U64)
    requires id !in active && leaf.request == OneLane(id, lane, units)
    ensures LaneUsed(active[id := leaf], draining, lane) == LaneUsed(active, draining, lane) + units
  {
    SumPut(active, LeafUnits(lane), id, leaf);
    assert leaf.request.lanes[1..] == [];
    assert UnitsOn([], lane) == 0;
  }

  /** Two requests that together overflow a lane whose cap is `usize::MAX` are both admitted. */
  lemma LaneOverflow(config: Config, lane: Id)
    requires ValidConfig(config) && lane in config.laneCaps && config.laneCaps[lane] == U64_MAX
    ensures !LaneAlwaysWithin(config, lane)
  {
    hide Reserve, RequestError, SubmissionError, CanFit, LaneUsed, ValidConfig;
    var a, b := OneLane("a", lane, U64_MAX), OneLane("b", lane, 1);
    var s0 := Fresh(config);
    OneLaneFits(s0, "a", lane, U64_MAX);
    assert config.maxQueued > 0 by { ValidRoom(config); }
    SoleEntrant(s0, a);
    var s1 := Reserve(s0, a, config, false).0;
    assert |s1.active| == 1 < U64_MAX;
    OneLaneFits(s1, "b", lane, 1);
    SoleEntrant(s1, b);
    var s2 := Reserve(s1, b, config, false).0;
    UsedByOne(s0.active, s0.draining, "a", s1.active["a"], lane, U64_MAX);
    UsedByOne(s1.active, s1.draining, "b", s2.active["b"], lane, 1);
    TwoReserved(config, a, b);
    assert Used([s0, s1, s2][2], lane) > config.laneCaps[lane];
  }

  lemma TwoReserved(config: Config, a: Request, b: Request)
    requires Reserve(Fresh(config), a, config, false).0.nextTicket < U64_MAX
    ensures var s1 := Reserve(Fresh(config), a, config, false).0;
            var actions := [ReserveStart(a, config, false), ReserveStart(b, config, false)];
            DomainRun(config, [Fresh(config), s1, Reserve(s1, b, config, false).0], actions) && Unconfigured(actions)
  {
    hide Reserve;
  }

  lemma ValidRoom(config: Config)
    requires ValidConfig(config)
    ensures config.maxQueued > 0
  {
  }

  /** A lane stays within its cap in every run exactly when the cap is below `usize::MAX`. */
  lemma LaneCapIff(config: Config, lane: Id)
    requires ValidConfig(config) && lane in config.laneCaps
    ensures LaneAlwaysWithin(config, lane) <==> config.laneCaps[lane] < U64_MAX
  {
    hide ValidConfig, LaneUsed, DomainRun;
    if config.laneCaps[lane] == U64_MAX {
      LaneOverflow(config, lane);
    } else {
      forall trace, actions, i | DomainRun(config, trace, actions) && Unconfigured(actions) && 0 <= i < |trace|
        ensures Used(trace[i], lane) <= config.laneCaps[lane]
      {
        CapacitySafety(config, trace, actions, i, ContextPool, lane);
      }
    }
  }
}
