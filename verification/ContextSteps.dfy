/** Each operation that its own checks accept keeps the projection equal to the replay. */
module ContextSteps {
  import opened Common
  import opened ContextModel
  import opened ContextInvariant

  // ----- enrollment -----

  lemma EnrollFolds(s: Authority, c: Configuration)
    requires Replayed(s) && Enroll(s, c).Written?
    requires forall k :: k in s.scopes ==> s.scopes[k].grant.scope == k
    requires |s.scopes| <= MAX_SCOPES
    ensures Replayed(Enroll(s, c).next)
  {
    hide FoldAll, ApplyConfiguration, PermitGranted, GrantOk;
    var n := Enroll(s, c).next;
    var r := FoldAll(s.incarnation, s.receipts, s.journal).value;
    UnchargedConfiguration(s.incarnation, s.configuration, s.scopes, c);
    ConfigurationCarries(s.incarnation, s.configuration, s.scopes, c);
    assert n.journal[..|n.journal| - 1] == s.journal;
    var m := ReplayEnrollment(s.incarnation, r, c).value;
    AdmissionsUncharged(s.incarnation, n.scopes, c.verifier);
    FoldLast(s.incarnation, s.receipts, s.journal, Enrollment(c));
    var q := m.(admitted := m.admitted + Admissions(s.incarnation, m.scopes, c.verifier));
    assert FoldAll(n.incarnation, n.receipts, n.journal) == Some(q);
    forall p | p in n.permits ensures PermitGranted(q, p) { GrantedGrows(r, q, p); }
  }

  lemma FoldLast(incarnation: Id, receipts: map<Id, Receipt>, events: seq<Event>, last: Event)
    requires FoldAll(incarnation, receipts, events).Some?
    ensures FoldAll(incarnation, receipts, events + [last])
         == FoldEvent(incarnation, receipts, FoldAll(incarnation, receipts, events).value, last)
  {
  }

  lemma GrantedGrows(r: Replay, q: Replay, p: Permit)
    requires PermitGranted(r, p) && r.grants <= q.grants && r.admitted <= q.admitted
    ensures PermitGranted(q, p)
  {
  }

  lemma AdmissionsUncharged(incarnation: Id, scopes: map<Scope, ScopeState>, verifier: Verifier)
    ensures Admissions(incarnation, Uncharged(scopes), verifier) == Admissions(incarnation, scopes, verifier)
  {
    forall k | k in scopes
      ensures Open(Uncharged(scopes)[k]) == Open(scopes[k])
      ensures BindingOf(incarnation, Uncharged(scopes)[k]) == BindingOf(incarnation, scopes[k])
    {
    }
  }

  lemma EnrollScopes(s: Authority, c: Configuration)
    requires ScopesOk(s) && PermitsOk(s) && ReceiptsOk(s) && |s.scopes| <= MAX_SCOPES && Enroll(s, c).Written?
    ensures var n := Enroll(s, c).next;
            ScopesOk(n) && |n.scopes| <= MAX_SCOPES
            && forall k :: k in s.scopes ==> k in n.scopes && n.scopes[k].head == s.scopes[k].head
  {
    hide ApplyConfiguration, ScopeOk, PermitsOk, ReceiptsOk, GrantOk;
    var n := Enroll(s, c).next;
    ScopeNames(s);
    assert forall k :: k in s.scopes ==> ScopeOk(s, k);
    ConfigurationCarries(s.incarnation, s.configuration, s.scopes, c);
    forall k | k in n.scopes ensures ScopeOk(n, k) { EnrolledScope(s, n, k); }
  }

  lemma EnrolledScope(s: Authority, n: Authority, k: Scope)
    requires PermitsOk(s) && ReceiptsOk(s) && k in n.scopes && n.scopes[k].grant.scope == k && Carried(s.scopes, n.scopes, k)
    requires k in s.scopes ==> ScopeOk(s, k)
    requires n.permits == s.permits && n.receipts == s.receipts
    ensures ScopeOk(n, k)
  {
    hide GrantOk, HeadOk, PermitsOk, ReceiptsOk, PermitsIn, ReceiptsIn;
    if k !in s.scopes {
      NothingInNewScope(s, k);
      GrantHead(n.scopes[k].grant);
    } else if n.scopes[k].grant != s.scopes[k].grant {
      GrantHead(n.scopes[k].grant);
    }
  }

  lemma GrantHead(g: Grant)
    requires GrantOk(g)
    ensures HeadOk(g.initialHead)
  {
  }

  lemma NothingInNewScope(s: Authority, k: Scope)
    requires PermitsOk(s) && ReceiptsOk(s) && k !in s.scopes
    ensures PermitsIn(s.permits, k) == {} && ReceiptsIn(s.receipts, k) == {}
  {
  }

  lemma ScopeNames(s: Authority)
    requires ScopesOk(s)
    ensures forall k :: k in s.scopes ==> s.scopes[k].grant.scope == k
  {
  }

  lemma EnrollKeeps(s: Authority, c: Configuration)
    requires Inv(s) && Enroll(s, c).Written? && |s.journal| < 2 * MAX_TRANSITIONS
    ensures Inv(Enroll(s, c).next)
  {
    hide Replayed, ScopesOk, ApplyConfiguration, EffectOk, ObligationsOk, RecordOk;
    var n := Enroll(s, c).next;
    ScopeNames(s);
    EnrollFolds(s, c);
    EnrollScopes(s, c);
    forall p | p in n.permits ensures PermitOk(n, p) { assert PermitOk(s, p); }
    forall p | p in n.permits ensures Behind(n.scopes, p) { assert Behind(s.scopes, p); }
    forall k | k in n.receipts ensures ReceiptOk(n, k) { assert ReceiptOk(s, k); }
  }

  // ----- issue -----

  lemma IssueKeeps(s: Authority, access: Access, v: Verifier, w: Witness, x: ContextCall, now: Time, fin: Time, legacy: set<ApprovalId>)
    requires Inv(s) && Issue(s, access, v, w, x, now, fin, legacy).Written? && EffectOk(w.effect)
    ensures Inv(Issue(s, access, v, w, x, now, fin, legacy).next)
  {
    hide Replayed, ScopesOk, ReceiptsOk, NoneAhead, EffectOk, RecordOk, InGrant, WitnessOk;
    var n := Issue(s, access, v, w, x, now, fin, legacy).next;
    var p := Permit(w.effect, v, x);
    assert p !in s.permits by { assert forall q :: q in s.permits ==> PermitOk(s, q); }
    IssueFolds(s, access, v, w, x, now, fin, legacy);
    IssueCounts(s, n, p);
    IssuePermits(s, n, p);
    IssueReceipts(s, n, p);
  }

  lemma IssuePermits(s: Authority, n: Authority, p: Permit)
    requires PermitsOk(s) && NoneAhead(s) && p !in s.permits && n.permits == s.permits[p := Record(None, None)]
    requires ApprovalOf(p.effect) !in s.approvals && n.approvals == s.approvals[ApprovalOf(p.effect) := p]
    requires EffectOk(p.effect) && p.context.authority.incarnation == s.incarnation == n.incarnation
    requires ScopeOf(p) in s.scopes && s.scopes[ScopeOf(p)].head == p.context.authority.head
    requires p.context.authority.head.mode == Active
    requires n.scopes == s.scopes[ScopeOf(p) := s.scopes[ScopeOf(p)].(effects := s.scopes[ScopeOf(p)].effects + 1)]
    ensures PermitsOk(n) && NoneAhead(n)
  {
    hide EffectOk, RecordOk;
    forall q | q in n.permits ensures PermitOk(n, q) {
      if q != p { assert PermitOk(s, q); } else { EmptyRecordOk(p); }
    }
    forall q | q in n.permits ensures Behind(n.scopes, q) {
      if q != p { assert Behind(s.scopes, q); }
    }
  }

  lemma IssueReceipts(s: Authority, n: Authority, p: Permit)
    requires ReceiptsOk(s) && p !in s.permits && n.permits == s.permits[p := Record(None, None)]
    requires ScopeOf(p) in s.scopes && n.receipts == s.receipts
    requires n.scopes == s.scopes[ScopeOf(p) := s.scopes[ScopeOf(p)].(effects := s.scopes[ScopeOf(p)].effects + 1)]
    ensures ReceiptsOk(n)
  {
    hide ObligationsOk;
    forall k | k in n.receipts ensures ReceiptOk(n, k) {
      assert ReceiptOk(s, k);
      UnconsumedIsNoObligation(s.permits, p, s.receipts[k]);
    }
  }

  lemma EmptyRecordOk(p: Permit)
    ensures RecordOk(p, Record(None, None))
  {
  }

  lemma UnconsumedIsNoObligation(permits: map<Permit, Record>, p: Permit, receipt: Receipt)
    requires p !in permits && ObligationsOk(permits, receipt)
    ensures ObligationsOk(permits[p := Record(None, None)], receipt)
  {
    hide ObligationOk;
  }

  lemma PermitsInPlus(permits: map<Permit, Record>, p: Permit, record: Record, k: Scope)
    requires p !in permits
    ensures |PermitsIn(permits[p := record], k)| == |PermitsIn(permits, k)| + if k == ScopeOf(p) then 1 else 0
  {
    assert PermitsIn(permits[p := record], k) == PermitsIn(permits, k) + if k == ScopeOf(p) then {p} else {};
  }

  lemma IssueCounts(s: Authority, n: Authority, p: Permit)
    requires ScopesOk(s) && p !in s.permits && n.permits == s.permits[p := Record(None, None)]
    requires ScopeOf(p) in s.scopes && n.receipts == s.receipts
    requires n.scopes == s.scopes[ScopeOf(p) := s.scopes[ScopeOf(p)].(effects := s.scopes[ScopeOf(p)].effects + 1)]
    ensures ScopesOk(n)
  {
    hide GrantOk, HeadOk, ReceiptsIn, PermitsIn;
    forall k | k in n.scopes ensures ScopeOk(n, k) {
      assert ScopeOk(s, k);
      PermitsInPlus(s.permits, p, Record(None, None), k);
    }
  }

  lemma IssueFolds(s: Authority, access: Access, v: Verifier, w: Witness, x: ContextCall, now: Time, fin: Time, legacy: set<ApprovalId>)
    requires Replayed(s) && ScopesOk(s) && Issue(s, access, v, w, x, now, fin, legacy).Written?
    ensures Replayed(Issue(s, access, v, w, x, now, fin, legacy).next)
  {
    hide FoldAll, Uncharged, Admissions, GrantOk, HeadOk, WitnessOk, InGrant, ScopeOk;
    var n := Issue(s, access, v, w, x, now, fin, legacy).next;
    var r := FoldAll(s.incarnation, s.receipts, s.journal).value;
    var k := x.authority.scope;
    ChargeIsInvisible(s.scopes, k, s.scopes[k].effects + 1);
    AdmissionsUncharged(s.incarnation, n.scopes, v);
    AdmissionsUncharged(s.incarnation, s.scopes, v);
    OpenIsAdmitted(s.incarnation, s.scopes, x.authority, v);
    assert PermitGranted(r, Permit(w.effect, v, x));
  }

  lemma ChargeIsInvisible(scopes: map<Scope, ScopeState>, k: Scope, effects: nat)
    requires k in scopes
    ensures Uncharged(scopes[k := scopes[k].(effects := effects)]) == Uncharged(scopes)
  {
  }

  lemma OpenIsAdmitted(incarnation: Id, scopes: map<Scope, ScopeState>, b: Binding, v: Verifier)
    requires Standing(incarnation, scopes, b) && b.head.mode == Active
    ensures (b, v) in Admissions(incarnation, scopes, v)
  {
  }

  // ----- consume -----

  lemma ConsumeKeeps(s: Authority, access: Access, v: Verifier, p: Permit, call: Call, now: Time, fin: Time)
    requires Inv(s) && Consume(s, access, v, p, call, now, fin).Written?
    ensures Inv(Consume(s, access, v, p, call, now, fin).next)
  {
    hide Inv, ReceiptsOk, Replayed, GrantOk, HeadOk, EffectOk, ObligationsOk, ScopeOk, Behind;
    var n := Consume(s, access, v, p, call, now, fin).next;
    InvParts(s);
    assert PermitOk(s, p);
    forall k | k in s.receipts ensures ObligationsOk(n.permits, s.receipts[k]) {
      ReceiptAt(s, k);
      FreshConsumption(s.permits, p, n.permits[p], s.receipts[k]);
    }
    PermitReplaced(s, n, p);
  }

  lemma InvParts(s: Authority)
    requires Inv(s)
    ensures ScopesOk(s) && PermitsOk(s) && ReceiptsOk(s) && NoneAhead(s)
  {
    hide ScopesOk, PermitsOk, ReceiptsOk, NoneAhead, Replayed;
  }

  lemma ReceiptAt(s: Authority, k: Id)
    requires ReceiptsOk(s) && k in s.receipts
    ensures ReceiptOk(s, k)
  {
  }

  /** One record changes its receipts; what the transition receipts say of it must still be so. */
  lemma PermitReplaced(s: Authority, n: Authority, p: Permit)
    requires Inv(s) && p in s.permits && p in n.permits && n == s.(permits := s.permits[p := n.permits[p]])
    requires PermitOk(n, p) && forall k :: k in s.receipts ==> ObligationsOk(n.permits, s.receipts[k])
    ensures Inv(n)
  {
    hide Replayed, GrantOk, HeadOk, EffectOk, ObligationsOk, ScopeOk, Behind;
    SameKeysSameCounts(s, n);
    forall q | q in n.permits ensures PermitOk(n, q) { assert PermitOk(s, q); }
    forall k | k in n.receipts ensures ReceiptOk(n, k) { assert ReceiptOk(s, k); }
  }

  lemma SameKeysSameCounts(s: Authority, n: Authority)
    requires ScopesOk(s) && Replayed(s) && n == s.(permits := n.permits) && n.permits.Keys == s.permits.Keys
    ensures ScopesOk(n) && Replayed(n) && |n.permits| == |s.permits|
  {
  }

  /** A permit of the present generation is not yet in any receipt. */
  lemma FreshConsumption(permits: map<Permit, Record>, p: Permit, record: Record, receipt: Receipt)
    requires p in permits && permits[p].preflight.None? && ObligationsOk(permits, receipt)
    requires ScopeOf(p) == receipt.request.authority.scope ==> receipt.successor.generation <= GenerationOf(p)
    ensures ObligationsOk(permits[p := record], receipt)
  {
  }

  // ----- settle -----

  lemma SettleKeeps(s: Authority, p: Permit, f: Preflight, reported: Reported, now: Time)
    requires Inv(s) && Settle(s, p, f, reported, now).Written?
    ensures Inv(Settle(s, p, f, reported, now).next)
  {
    hide Inv, ReceiptsOk, Replayed, GrantOk, HeadOk, EffectOk, ObligationsOk, ReportedOk, ScopeOk, Behind;
    var n := Settle(s, p, f, reported, now).next;
    InvParts(s);
    assert PermitOk(s, p);
    forall k | k in s.receipts ensures ObligationsOk(n.permits, s.receipts[k]) {
      ReceiptAt(s, k);
      LateOutcome(s.permits, p, n.permits[p].outcome.value, s.receipts[k]);
    }
    PermitReplaced(s, n, p);
  }

  /** An outcome that arrives after a receipt changes nothing the receipt says. */
  lemma LateOutcome(permits: map<Permit, Record>, p: Permit, outcome: Outcome, receipt: Receipt)
    requires p in permits && permits[p].preflight.Some? && permits[p].outcome.None? && ObligationsOk(permits, receipt)
    ensures ObligationsOk(permits[p := permits[p].(outcome := Some(outcome))], receipt)
  {
  }

  // ----- transition -----

  /** Everything recorded for the scope was recorded no later than `now`. */
  ghost predicate ClockCaughtUp(permits: map<Permit, Record>, scope: Scope, now: Time) {
    forall p :: p in ConsumedIn(permits, scope) ==>
      && permits[p].preflight.value.recordedAt <= now
      && (permits[p].outcome.Some? ==> permits[p].outcome.value.recordedAt <= now)
  }

  /** The new receipt is as the validator wants it exactly when the clock has caught up. */
  lemma NewReceiptIff(permits: map<Permit, Record>, scopes: map<Scope, ScopeState>, receipt: Receipt)
    requires forall p :: p in permits ==> Behind(scopes, p)
    requires var k := receipt.request.authority.scope;
             && receipt.consumed == Consumed(permits, k) && k in scopes
             && Successor(scopes[k], receipt.request.action) == Some(receipt.successor)
    ensures ObligationsOk(permits, receipt) <==>
            ClockCaughtUp(permits, receipt.request.authority.scope, receipt.recordedAt)
  {
  }

  /** The replay takes the same step on its uncharged copy of the scope. */
  lemma TransitReplays(s: Authority, r: Replay, receipts: map<Id, Receipt>, key: Id)
    requires r.scopes == Uncharged(s.scopes) && key !in r.seen && key in receipts
    requires var b := receipts[key].request.authority;
             && Current(s.incarnation, s.scopes, b, receipts[key].recordedAt)
             && s.scopes[b.scope].grant.controllerKey in receipts[key].request.signature.validFor
             && s.scopes[b.scope].transitions < s.scopes[b.scope].grant.maxTransitions
             && Successor(s.scopes[b.scope], receipts[key].request.action) == Some(receipts[key].successor)
    ensures ReplayTransition(s.incarnation, receipts, r, key) == Some(r.(
      seen := r.seen + {key},
      scopes := Uncharged(s.scopes[receipts[key].request.authority.scope :=
                                     Moved(s.scopes[receipts[key].request.authority.scope], receipts[key])])))
  {
    hide HeadOk;
    var k := receipts[key].request.authority.scope;
    var moved := s.scopes[k := Moved(s.scopes[k], receipts[key])];
    assert r.scopes[k := Moved(r.scopes[k], receipts[key])] == Uncharged(moved);
  }

  lemma TransitFolds(s: Authority, access: Access, request: Request, now: Time, fin: Time)
    requires Replayed(s) && ScopesOk(s) && Transit(s, access, request, now, fin).Written?
    ensures Replayed(Transit(s, access, request, now, fin).next)
  {
    hide FoldAll, PermitGranted, HeadOk, Consumed, Uncharged, ReplayTransition, Admissions, ScopeOk, Successor, Moved, Identifier;
    var t := Transit(s, access, request, now, fin);
    var n, receipt := t.next, t.value;
    var r := FoldAll(s.incarnation, s.receipts, s.journal).value;
    FoldFrame(s.incarnation, s.receipts, n.receipts, s.journal);
    FoldLast(s.incarnation, n.receipts, s.journal, Transition(request.transition));
    TransitReplays(s, r, n.receipts, request.transition);
    var m := ReplayTransition(s.incarnation, n.receipts, r, request.transition).value;
    var v := s.configuration.value.verifier;
    var q := m.(admitted := m.admitted + Admissions(s.incarnation, m.scopes, v));
    AdmissionsUncharged(s.incarnation, n.scopes, v);
    assert FoldAll(n.incarnation, n.receipts, n.journal) == Some(q);
    forall p | p in n.permits ensures PermitGranted(q, p) { GrantedGrows(r, q, p); }
    assert forall k :: k in n.scopes ==> n.scopes[k].grant in q.grants by { MovedGrant(s.scopes[request.authority.scope], receipt); }
  }

  lemma MovedGrant(scope: ScopeState, receipt: Receipt)
    ensures Moved(scope, receipt).grant == scope.grant
  {
  }

  lemma ReceiptsInPlus(receipts: map<Id, Receipt>, key: Id, receipt: Receipt, k: Scope)
    requires key !in receipts
    ensures |ReceiptsIn(receipts[key := receipt], k)|
         == |ReceiptsIn(receipts, k)| + if k == receipt.request.authority.scope then 1 else 0
  {
    assert ReceiptsIn(receipts[key := receipt], k)
        == ReceiptsIn(receipts, k) + if k == receipt.request.authority.scope then {key} else {};
  }

  lemma TransitCounts(s: Authority, n: Authority, receipt: Receipt)
    requires ScopesOk(s) && n.permits == s.permits
    requires var k := receipt.request.authority.scope;
             && k in s.scopes && n.scopes == s.scopes[k := Moved(s.scopes[k], receipt)] && HeadOk(receipt.successor)
             && receipt.request.transition !in s.receipts
             && n.receipts == s.receipts[receipt.request.transition := receipt]
    ensures ScopesOk(n)
  {
    hide GrantOk, HeadOk, PermitsIn, ReceiptsIn;
    forall k | k in n.scopes ensures ScopeOk(n, k) {
      assert ScopeOk(s, k);
      ReceiptsInPlus(s.receipts, receipt.request.transition, receipt, k);
    }
  }

  /** Heads only move up, so nothing is ahead of the successor. */
  lemma TransitKeepsOrder(s: Authority, n: Authority, receipt: Receipt)
    requires NoneAhead(s) && ReceiptsOk(s) && n.permits == s.permits
    requires var k := receipt.request.authority.scope;
             && k in s.scopes && n.scopes == s.scopes[k := Moved(s.scopes[k], receipt)]
             && Successor(s.scopes[k], receipt.request.action) == Some(receipt.successor)
             && receipt.request.transition !in s.receipts
             && n.receipts == s.receipts[receipt.request.transition := receipt]
    ensures NoneAhead(n)
    ensures ObligationsOk(n.permits, receipt) ==> ReceiptsOk(n)
  {
  }

  lemma TransitKeeps(s: Authority, access: Access, request: Request, now: Time, fin: Time)
    requires Inv(s) && Transit(s, access, request, now, fin).Written?
    requires |s.journal| < 2 * MAX_TRANSITIONS && ClockCaughtUp(s.permits, request.authority.scope, fin)
    ensures Inv(Transit(s, access, request, now, fin).next)
  {
    hide Replayed, GrantOk, HeadOk, EffectOk, ObligationsOk, RecordOk, ScopesOk, ReceiptsOk, NoneAhead, Consumed, Moved, Successor, ClockCaughtUp;
    var t := Transit(s, access, request, now, fin);
    var n, receipt := t.next, t.value;
    TransitFolds(s, access, request, now, fin);
    TransitCounts(s, n, receipt);
    assert forall p :: p in s.permits ==> Behind(s.scopes, p) by { OrderGives(s); }
    NewReceiptIff(s.permits, s.scopes, receipt);
    TransitKeepsOrder(s, n, receipt);
    forall p | p in n.permits ensures PermitOk(n, p) { assert PermitOk(s, p); }
  }

  lemma OrderGives(s: Authority)
    requires NoneAhead(s)
    ensures forall p :: p in s.permits ==> Behind(s.scopes, p)
  {
  }
}
