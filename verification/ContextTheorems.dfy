/** Safety of the scoped context authority over every run. */
module ContextTheorems {
  import opened Common
  import opened ContextModel
  import opened ContextInvariant
  import opened ContextSteps

  // ----- incremental equals replay -----

  /** What a caller must see to, beyond the operation's own checks. */
  ghost predicate Admissible(s: Authority, op: Op) {
    match op
    case DoEnroll(_) => |s.journal| < 2 * MAX_TRANSITIONS
    case DoIssue(_, _, w, _, _, _, _) => EffectOk(w.effect)
    case DoConsume(_, _, _, _, _, _) => true
    case DoTransit(_, request, _, fin, _) =>
      |s.journal| < 2 * MAX_TRANSITIONS && ClockCaughtUp(s.permits, request.authority.scope, fin)
    case DoSettle(_, _, _, _) => true
  }

  lemma CandidateKeeps(s: Authority, op: Op)
    requires Inv(s) && Candidate(s, op).Some? && Admissible(s, op)
    ensures Inv(Candidate(s, op).value)
  {
    hide Inv, Enroll, Issue, Consume, Transit, Settle, EffectOk, ClockCaughtUp;
    match op
    case DoEnroll(c) => EnrollKeeps(s, c);
    case DoIssue(access, v, w, x, now, fin, legacy) => IssueKeeps(s, access, v, w, x, now, fin, legacy);
    case DoConsume(access, v, p, call, now, fin) => ConsumeKeeps(s, access, v, p, call, now, fin);
    case DoTransit(access, request, now, fin, _) => TransitKeeps(s, access, request, now, fin);
    case DoSettle(p, f, reported, now) => SettleKeeps(s, p, f, reported, now);
  }

  lemma LongJournalIsInvalid(s: Authority)
    requires |s.journal| > 2 * MAX_TRANSITIONS
    ensures !ValidState(s)
  {
  }

  lemma BadEffectIsInvalid(s: Authority, p: Permit)
    requires p in s.permits && !EffectOk(p.effect)
    ensures !ValidState(s)
  {
  }

  lemma UnmetIsInvalid(s: Authority, key: Id)
    requires Transition(key) in s.journal && key in s.receipts && !ObligationsOk(s.permits, s.receipts[key])
    ensures !ValidState(s)
  {
    hide ObligationsOk, FoldAll;
    ReplaySplits(s, s.journal);
    assert !Met(s, Transition(key));
  }

  lemma LateClockIsInvalid(s: Authority, access: Access, request: Request, now: Time, fin: Time)
    requires NoneAhead(s) && Transit(s, access, request, now, fin).Written?
    requires !ClockCaughtUp(s.permits, request.authority.scope, fin)
    ensures !ValidState(Transit(s, access, request, now, fin).next)
  {
    hide ValidState, ClockCaughtUp, ObligationsOk, HeadOk, Consumed, Successor, Moved, NoneAhead, Identifier;
    var n := Transit(s, access, request, now, fin).next;
    OrderGives(s);
    NewReceiptIff(s.permits, s.scopes, n.receipts[request.transition]);
    UnmetIsInvalid(n, request.transition);
  }

  lemma InadmissibleIsInvalid(s: Authority, op: Op)
    requires Inv(s) && Candidate(s, op).Some? && !Admissible(s, op)
    ensures !ValidState(Candidate(s, op).value)
  {
    hide ValidState, ApplyConfiguration, EffectOk, ClockCaughtUp, WitnessOk, InGrant, HeadOk, Consumed, Successor, Moved,
      Replayed, ScopesOk, ReceiptsOk, PermitsOk, NoneAhead, Current;
    var n := Candidate(s, op).value;
    match op
    case DoEnroll(c) => LongJournalIsInvalid(n);
    case DoIssue(access, v, w, x, now, fin, legacy) => BadEffectIsInvalid(n, Permit(w.effect, v, x));
    case DoTransit(access, request, now, fin, _) =>
      if |s.journal| < 2 * MAX_TRANSITIONS {
        LateClockIsInvalid(s, access, request, now, fin);
      } else {
        LongJournalIsInvalid(n);
      }
  }

  /**
   * Incremental equals replay: whatever an operation's own checks accept, the
   * replay of the journal accepts too, exactly when the journal has room, an
   * issued effect is well formed, and a transition's clock is not behind what was
   * recorded in its scope.
   */
  lemma ReplayAcceptsIff(s: Authority, op: Op)
    requires Inv(s) && Candidate(s, op).Some?
    ensures ValidState(Candidate(s, op).value) <==> Admissible(s, op)
    ensures Admissible(s, op) ==> Inv(Candidate(s, op).value)
  {
    hide Inv, ValidState, Candidate, Admissible;
    if Admissible(s, op) {
      CandidateKeeps(s, op);
      InvIsValid(Candidate(s, op).value);
    } else {
      InadmissibleIsInvalid(s, op);
    }
  }

  lemma StepKeepsInv(size: Size, s: Authority, op: Op)
    requires Inv(s)
    ensures Inv(Step(size, s, op))
  {
    hide Inv, ValidState, Candidate, Admissible;
    if Candidate(s, op).Some? { ReplayAcceptsIff(s, op); }
  }

  lemma InitialInv(incarnation: Id)
    ensures Inv(Initialized(incarnation))
  {
  }

  lemma {:induction false} RunKeepsInv(size: Size, incarnation: Id, trace: seq<Authority>, ops: seq<Op>, i: nat)
    requires IsRun(size, incarnation, trace, ops) && i < |trace|
    ensures Inv(trace[i])
  {
    hide Inv, Step;
    if i == 0 {
      InitialInv(incarnation);
    } else {
      RunKeepsInv(size, incarnation, trace, ops, i - 1);
      StepKeepsInv(size, trace[i - 1], ops[i - 1]);
    }
  }

  /** Every state of a run is as the validator wants it and fits its file, so it is read back. */
  lemma {:induction false} RunStaysWritable(size: Size, incarnation: Id, trace: seq<Authority>, ops: seq<Op>, i: nat)
    requires IsRun(size, incarnation, trace, ops) && i < |trace|
    ensures Writable(size, trace[i])
  {
    hide Inv, ValidState, Candidate;
    RunKeepsInv(size, incarnation, trace, ops, i);
    InvIsValid(trace[i]);
    if i > 0 { RunStaysWritable(size, incarnation, trace, ops, i - 1); }
  }

  // ----- a clock that does not go back -----

  function TimeOf(op: Op): Option<Time> {
    match op
    case DoEnroll(_) => None
    case DoIssue(_, _, _, _, _, fin, _) => Some(fin)
    case DoConsume(_, _, _, _, _, fin) => Some(fin)
    case DoTransit(_, _, _, fin, _) => Some(fin)
    case DoSettle(_, _, _, now) => Some(now)
  }

  ghost predicate NonDecreasing(ops: seq<Op>) {
    forall i, j :: 0 <= i < j < |ops| && TimeOf(ops[i]).Some? && TimeOf(ops[j]).Some? ==>
      TimeOf(ops[i]).value <= TimeOf(ops[j]).value
  }

  /** Nothing was recorded after `t`. */
  ghost predicate RecordedBy(s: Authority, t: Time) {
    forall p :: p in s.permits ==>
      && (s.permits[p].preflight.Some? ==> s.permits[p].preflight.value.recordedAt <= t)
      && (s.permits[p].outcome.Some? ==> s.permits[p].outcome.value.recordedAt <= t)
  }

  lemma StepRecords(size: Size, s: Authority, op: Op, t: Time)
    requires RecordedBy(s, t) && (TimeOf(op).Some? ==> TimeOf(op).value <= t)
    ensures RecordedBy(Step(size, s, op), t)
  {
    hide ValidState, ApplyConfiguration, WitnessOk, InGrant, Current, Consumed, Successor, Moved, HeadOk, ReportedOk;
  }

  lemma {:induction false} RunRecords(size: Size, incarnation: Id, trace: seq<Authority>, ops: seq<Op>, i: nat, t: Time)
    requires IsRun(size, incarnation, trace, ops) && i < |trace|
    requires forall m :: 0 <= m < i && TimeOf(ops[m]).Some? ==> TimeOf(ops[m]).value <= t
    ensures RecordedBy(trace[i], t)
  {
    hide Step;
    if i > 0 {
      RunRecords(size, incarnation, trace, ops, i - 1, t);
      StepRecords(size, trace[i - 1], ops[i - 1], t);
    }
  }

  /**
   * With a clock that never goes back and well-formed effects, the validator
   * rejects nothing an operation accepted until the journal is full: it is written
   * exactly when the state file is short enough.
   */
  lemma NoFalseRejection(size: Size, incarnation: Id, trace: seq<Authority>, ops: seq<Op>, i: nat)
    requires IsRun(size, incarnation, trace, ops) && NonDecreasing(ops) && i < |ops|
    requires Candidate(trace[i], ops[i]).Some? && |trace[i].journal| < 2 * MAX_TRANSITIONS
    requires ops[i].DoIssue? ==> EffectOk(ops[i].presented.effect)
    ensures ValidState(Candidate(trace[i], ops[i]).value)
    ensures Writable(size, Candidate(trace[i], ops[i]).value) <==> size(Candidate(trace[i], ops[i]).value) <= MAX_STATE_BYTES
  {
    hide Inv, ValidState, Candidate, Step, EffectOk;
    RunKeepsInv(size, incarnation, trace, ops, i);
    if ops[i].DoTransit? {
      RunRecords(size, incarnation, trace, ops, i, ops[i].end);
    }
    ReplayAcceptsIff(trace[i], ops[i]);
  }

  // ----- no authority comes back -----

  /** How often the grant of a scope has been superseded. */
  function Depth(g: Grant): nat {
    if g.previous.None? then 0 else 1 + Depth(g.previous.value)
  }

  predicate HeadLe(a: Head, b: Head) {
    a == b || a.generation < b.generation || (a.generation == b.generation && a.mode == Sealed && b.mode == Active)
  }

  /** A scope never moves back: not in supersessions, not in its head, and not from revoked to standing. */
  ghost predicate NotBack(x: ScopeState, y: ScopeState) {
    && Depth(x.grant) <= Depth(y.grant) && (y.grant != x.grant ==> Depth(x.grant) < Depth(y.grant))
    && HeadLe(x.head, y.head)
    && (y.grant == x.grant && y.active ==> x.active)
  }

  ghost predicate NoneBack(s: Authority, n: Authority) {
    n.incarnation == s.incarnation
    && forall k :: k in s.scopes ==> k in n.scopes && NotBack(s.scopes[k], n.scopes[k])
  }

  lemma CandidateMovesOn(s: Authority, op: Op)
    requires ScopesOk(s) && |s.scopes| <= MAX_SCOPES && Candidate(s, op).Some?
    ensures NoneBack(s, Candidate(s, op).value)
  {
    hide Enroll, WitnessOk, InGrant, Current, Consumed, HeadOk, ReportedOk, ScopesOk, Depth;
    if op.DoEnroll? { EnrollMovesOn(s, op.configuration); }
  }

  lemma EnrollMovesOn(s: Authority, c: Configuration)
    requires ScopesOk(s) && |s.scopes| <= MAX_SCOPES && Enroll(s, c).Written?
    ensures NoneBack(s, Enroll(s, c).next)
  {
    hide ApplyConfiguration, ScopesOk, HeadLe;
    ScopeNames(s);
    ConfigurationCarries(s.incarnation, s.configuration, s.scopes, c);
    var n := Enroll(s, c).next;
    forall k | k in s.scopes ensures NotBack(s.scopes[k], n.scopes[k]) {
      assert Carried(s.scopes, n.scopes, k);
      assert HeadLe(s.scopes[k].head, n.scopes[k].head) by { SameHead(s.scopes[k].head); }
    }
  }

  lemma SameHead(h: Head)
    ensures HeadLe(h, h)
  {
  }

  lemma NoneBackTrans(s: Authority, m: Authority, n: Authority)
    requires NoneBack(s, m) && NoneBack(m, n)
    ensures NoneBack(s, n)
  {
  }

  lemma NoneBackSelf(s: Authority)
    ensures NoneBack(s, s)
  {
  }

  lemma StepMovesOn(size: Size, s: Authority, op: Op)
    requires Inv(s)
    ensures NoneBack(s, Step(size, s, op))
  {
    hide NoneBack, ValidState, Candidate, Replayed, ReceiptsOk, PermitsOk, NoneAhead, ScopesOk;
    NoneBackSelf(s);
    if Candidate(s, op).Some? { CandidateMovesOn(s, op); }
  }

  lemma {:induction false} RunMovesOn(size: Size, incarnation: Id, trace: seq<Authority>, ops: seq<Op>, i: nat, j: nat)
    requires IsRun(size, incarnation, trace, ops) && i <= j < |trace|
    ensures NoneBack(trace[i], trace[j])
    decreases j - i
  {
    hide NoneBack, Step, Inv;
    if i == j {
      NoneBackSelf(trace[i]);
    } else {
      RunMovesOn(size, incarnation, trace, ops, i, j - 1);
      RunKeepsInv(size, incarnation, trace, ops, j - 1);
      StepMovesOn(size, trace[j - 1], ops[j - 1]);
      NoneBackTrans(trace[i], trace[j - 1], trace[j]);
    }
  }

  ghost predicate Stands(s: Authority, b: Binding) {
    Standing(s.incarnation, s.scopes, b)
  }

  /**
   * No resurrection: a binding that once stood and then did not, by retirement,
   * supersession or omission from a configuration, never stands again.
   */
  lemma NoResurrection(size: Size, incarnation: Id, trace: seq<Authority>, ops: seq<Op>, i: nat, j: nat, k: nat, b: Binding)
    requires IsRun(size, incarnation, trace, ops) && i <= j <= k < |trace|
    requires Stands(trace[i], b) && !Stands(trace[j], b)
    ensures !Stands(trace[k], b)
  {
    hide Step, HeadOk, IsRun;
    RunMovesOn(size, incarnation, trace, ops, i, j);
    RunMovesOn(size, incarnation, trace, ops, j, k);
  }

  /** A permit of a fallen binding can no longer be consumed, and what was not consumed stays so. */
  lemma {:induction false} FallenPermitsStay(size: Size, incarnation: Id, trace: seq<Authority>, ops: seq<Op>, i: nat, j: nat, k: nat, p: Permit)
    requires IsRun(size, incarnation, trace, ops) && i <= j <= k < |trace|
    requires Stands(trace[i], p.context.authority) && !Stands(trace[j], p.context.authority)
    requires p in trace[j].permits && trace[j].permits[p].preflight.None?
    ensures p in trace[k].permits && trace[k].permits[p].preflight.None?
    decreases k - j
  {
    hide Step, Stands, ValidState;
    if j < k {
      FallenPermitsStay(size, incarnation, trace, ops, i, j, k - 1, p);
      NoResurrection(size, incarnation, trace, ops, i, j, k - 1, p.context.authority);
      FallenIsNotConsumed(size, trace[k - 1], ops[k - 1], p);
    }
  }

  lemma FallenIsNotConsumed(size: Size, s: Authority, op: Op, p: Permit)
    requires !Stands(s, p.context.authority) && p in s.permits && s.permits[p].preflight.None?
    ensures p in Step(size, s, op).permits && Step(size, s, op).permits[p].preflight.None?
  {
    hide ValidState, ApplyConfiguration, WitnessOk, InGrant, Standing, Consumed, Successor, Moved, HeadOk, ReportedOk;
  }

  // ----- exactly once -----

  /** What is written once is never changed. */
  ghost predicate Extends(s: Authority, n: Authority) {
    && (forall a :: a in s.approvals ==> a in n.approvals && n.approvals[a] == s.approvals[a])
    && (forall p :: p in s.permits ==>
          && p in n.permits
          && (s.permits[p].preflight.Some? ==> n.permits[p].preflight == s.permits[p].preflight)
          && (s.permits[p].outcome.Some? ==> n.permits[p].outcome == s.permits[p].outcome))
    && (forall k :: k in s.receipts ==> k in n.receipts && n.receipts[k] == s.receipts[k])
    && s.journal <= n.journal
  }

  lemma IssueExtends(s: Authority, access: Access, v: Verifier, w: Witness, x: ContextCall, now: Time, fin: Time, legacy: set<ApprovalId>)
    requires PermitsOk(s) && Issue(s, access, v, w, x, now, fin, legacy).Written?
    ensures Extends(s, Issue(s, access, v, w, x, now, fin, legacy).next)
  {
    hide WitnessOk, InGrant, Current, EffectOk, RecordOk;
    var p := Permit(w.effect, v, x);
    assert p in s.permits ==> PermitOk(s, p);
  }

  lemma RestExtends(s: Authority, op: Op)
    requires !op.DoIssue? && Candidate(s, op).Some?
    ensures Extends(s, Candidate(s, op).value)
  {
    hide ApplyConfiguration, Current, Consumed, Successor, Moved, HeadOk, ReportedOk;
  }

  lemma StepExtends(size: Size, s: Authority, op: Op)
    requires PermitsOk(s)
    ensures Extends(s, Step(size, s, op))
  {
    hide ValidState, Extends, Enroll, Issue, Consume, Transit, Settle;
    ExtendsSelf(s);
    if Candidate(s, op).Some? {
      if op.DoIssue? {
        IssueExtends(s, op.access, op.verifier, op.presented, op.context, op.now, op.finalNow, op.legacy);
      } else {
        RestExtends(s, op);
      }
    }
  }

  lemma {:induction false} RunExtends(size: Size, incarnation: Id, trace: seq<Authority>, ops: seq<Op>, i: nat, j: nat)
    requires IsRun(size, incarnation, trace, ops) && i <= j < |trace|
    ensures Extends(trace[i], trace[j])
    decreases j - i
  {
    hide Step, Inv, Extends;
    if i < j {
      RunExtends(size, incarnation, trace, ops, i, j - 1);
      RunKeepsInv(size, incarnation, trace, ops, j - 1);
      InvPermits(trace[j - 1]);
      StepExtends(size, trace[j - 1], ops[j - 1]);
      ExtendsTrans(trace[i], trace[j - 1], trace[j]);
    } else {
      ExtendsSelf(trace[i]);
    }
  }

  lemma ExtendsSelf(s: Authority)
    ensures Extends(s, s)
  {
  }

  lemma ExtendsTrans(s: Authority, m: Authority, n: Authority)
    requires Extends(s, m) && Extends(m, n)
    ensures Extends(s, n)
  {
  }

  lemma InvPermits(s: Authority)
    requires Inv(s)
    ensures PermitsOk(s)
  {
  }

  /** An effect approval is bound to at most one scoped permit, ever. */
  lemma ApprovalBoundOnce(size: Size, incarnation: Id, trace: seq<Authority>, ops: seq<Op>, i: nat, j: nat, p: Permit, q: Permit)
    requires IsRun(size, incarnation, trace, ops) && i < |trace| && j < |trace|
    requires p in trace[i].permits && q in trace[j].permits && ApprovalOf(p.effect) == ApprovalOf(q.effect)
    ensures p == q
  {
    hide Step, Inv, IsRun;
    var last := if i < j then j else i;
    RunExtends(size, incarnation, trace, ops, i, last);
    RunExtends(size, incarnation, trace, ops, j, last);
    RunKeepsInv(size, incarnation, trace, ops, last);
    InvPermits(trace[last]);
    assert PermitOk(trace[last], p) && PermitOk(trace[last], q);
  }

  /** Operation `m` is what consumed `p`. */
  ghost predicate ConsumesAt(trace: seq<Authority>, ops: seq<Op>, m: nat, p: Permit)
    requires |trace| == |ops| + 1 && m < |ops|
  {
    ops[m].DoConsume? && ops[m].permit == p
    && p in trace[m].permits && trace[m].permits[p].preflight.None?
    && p in trace[m + 1].permits && trace[m + 1].permits[p].preflight.Some?
  }

  lemma StepConsumes(size: Size, s: Authority, op: Op, p: Permit)
    requires p in Step(size, s, op).permits && Step(size, s, op).permits[p].preflight.Some?
    ensures (p in s.permits && s.permits[p].preflight.Some?)
         || (op.DoConsume? && op.permit == p && p in s.permits && s.permits[p].preflight.None?)
  {
    hide ValidState, ApplyConfiguration, WitnessOk, InGrant, Current, Consumed, Successor, Moved, HeadOk, ReportedOk;
  }

  /** A consumed permit was consumed by exactly one earlier operation. */
  lemma {:induction false} ConsumedByWhom(size: Size, incarnation: Id, trace: seq<Authority>, ops: seq<Op>, i: nat, p: Permit)
    requires IsRun(size, incarnation, trace, ops) && i < |trace|
    ensures (p in trace[i].permits && trace[i].permits[p].preflight.Some?)
       <==> exists m :: 0 <= m < i && ConsumesAt(trace, ops, m, p)
  {
    hide Step;
    if i > 0 {
      ConsumedByWhom(size, incarnation, trace, ops, i - 1, p);
      if p in trace[i].permits && trace[i].permits[p].preflight.Some? {
        StepConsumes(size, trace[i - 1], ops[i - 1], p);
        if !(p in trace[i - 1].permits && trace[i - 1].permits[p].preflight.Some?) {
          assert ConsumesAt(trace, ops, i - 1, p);
        }
      }
      if m :| 0 <= m < i && ConsumesAt(trace, ops, m, p) {
        RunExtends(size, incarnation, trace, ops, m + 1, i);
      }
    }
  }

  lemma ConsumedOnce(size: Size, incarnation: Id, trace: seq<Authority>, ops: seq<Op>, m: nat, n: nat, p: Permit)
    requires IsRun(size, incarnation, trace, ops) && m < |ops| && n < |ops|
    requires ConsumesAt(trace, ops, m, p) && ConsumesAt(trace, ops, n, p)
    ensures m == n
  {
    hide Step;
    if m < n {
      RunExtends(size, incarnation, trace, ops, m + 1, n);
    } else if n < m {
      RunExtends(size, incarnation, trace, ops, n + 1, m);
    }
  }

  /** Operation `i` recorded the receipt of its request. */
  ghost predicate Records(trace: seq<Authority>, ops: seq<Op>, i: nat)
    requires |trace| == |ops| + 1 && i < |ops|
  {
    ops[i].DoTransit?
    && ops[i].request.transition !in trace[i].receipts && ops[i].request.transition in trace[i + 1].receipts
  }

  lemma RecordedAsRequested(size: Size, s: Authority, op: Op)
    requires op.DoTransit? && op.request.transition !in s.receipts && op.request.transition in Step(size, s, op).receipts
    ensures var r := Step(size, s, op).receipts[op.request.transition];
            && r.request == op.request && r.consumed.Keys == ConsumedIn(s.permits, op.request.authority.scope)
            && (forall p :: p in r.consumed ==>
                  r.consumed[p].preflight == s.permits[p].preflight.value && r.consumed[p].outcome == s.permits[p].outcome)
  {
    hide ValidState, Current, Successor, Moved, HeadOk;
  }

  /**
   * Complete obligations: a receipt lists exactly the permits of its scope that
   * earlier operations consumed, each as it then stood, and stays as written.
   */
  lemma ReceiptListsConsumed(size: Size, incarnation: Id, trace: seq<Authority>, ops: seq<Op>, i: nat, j: nat)
    requires IsRun(size, incarnation, trace, ops) && i < j < |trace| && i < |ops| && Records(trace, ops, i)
    ensures var request := ops[i].request;
            && request.transition in trace[j].receipts
            && var r := trace[j].receipts[request.transition];
            && r.request == request
            && (forall p :: p in r.consumed <==>
                  ScopeOf(p) == request.authority.scope && exists m :: 0 <= m < i && ConsumesAt(trace, ops, m, p))
            && (forall p :: p in r.consumed ==>
                  p in trace[i].permits && trace[i].permits[p].preflight == Some(r.consumed[p].preflight)
                  && trace[i].permits[p].outcome == r.consumed[p].outcome)
  {
    hide Step, ConsumesAt;
    RunExtends(size, incarnation, trace, ops, i + 1, j);
    RecordedAsRequested(size, trace[i], ops[i]);
    forall p ensures (p in trace[i].permits && trace[i].permits[p].preflight.Some?)
                <==> exists m :: 0 <= m < i && ConsumesAt(trace, ops, m, p)
    {
      ConsumedByWhom(size, incarnation, trace, ops, i, p);
    }
  }

  /** A later receipt of a scope lists everything an earlier one did. */
  lemma LaterReceiptsExtend(size: Size, incarnation: Id, trace: seq<Authority>, ops: seq<Op>, i: nat, j: nat)
    requires IsRun(size, incarnation, trace, ops) && i < j < |ops| && Records(trace, ops, i) && Records(trace, ops, j)
    requires ops[i].request.authority.scope == ops[j].request.authority.scope
    ensures var last := trace[|ops|].receipts;
            && ops[i].request.transition in last && ops[j].request.transition in last
            && last[ops[i].request.transition].consumed.Keys <= last[ops[j].request.transition].consumed.Keys
  {
    hide Step, ConsumesAt;
    ReceiptListsConsumed(size, incarnation, trace, ops, i, |ops|);
    ReceiptListsConsumed(size, incarnation, trace, ops, j, |ops|);
  }

  /**
   * A transition that was recorded, even if its caller was told otherwise, is
   * answered from the store when it is asked for again and changes nothing.
   */
  lemma RetryIsReadback(size: Size, incarnation: Id, trace: seq<Authority>, ops: seq<Op>, i: nat, j: nat, access: Access, now: Time, fin: Time, stage: Option<Stage>)
    requires IsRun(size, incarnation, trace, ops) && i < j < |trace| && i < |ops| && Records(trace, ops, i)
    requires HasAccess(trace[j], access)
    ensures var request := ops[i].request;
            && request.transition in trace[i + 1].receipts
            && Transit(trace[j], access, request, now, fin) == Kept(trace[i + 1].receipts[request.transition])
            && Step(size, trace[j], DoTransit(access, request, now, fin, stage)) == trace[j]
  {
    hide ValidState, Current, Successor, Moved, HeadOk;
    RunExtends(size, incarnation, trace, ops, i + 1, j);
    RecordedAsRequested(size, trace[i], ops[i]);
  }
}
