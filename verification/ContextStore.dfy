/**
 * The context authority as a store: each method reads the projection, changes a
 * copy of it step by step, has the copy validated by replay and writes it back.
 */
module ContextStore {
  import opened Common
  import opened ContextModel

  lemma {:induction false} ReplayStuck(s: Authority, i: nat)
    requires i <= |s.journal| && ReplayAll(s, s.journal[..i]).None?
    ensures ReplayAll(s, s.journal).None?
    decreases |s.journal| - i
  {
    hide ReplayEvent;
    if i == |s.journal| {
      assert s.journal[..i] == s.journal;
    } else {
      assert s.journal[..i + 1][..i] == s.journal[..i];
      ReplayStuck(s, i + 1);
    }
  }

  /** `apply_configuration`: one grant after the other, then the omitted scopes are revoked. */
  method ApplyAll(incarnation: Id, held: Option<Configuration>, start: map<Scope, ScopeState>, c: Configuration)
    returns (after: Option<map<Scope, ScopeState>>)
    ensures after == ApplyConfiguration(incarnation, held, start, c)
  {
    hide GrantOk;
    if c.incarnation != incarnation || c.revision == 0 || |c.grants| > MAX_SCOPES
       || (held.Some? && c.revision <= held.value.revision) {
      return None;
    }
    var scopes := start;
    var admitted: set<Scope> := {};
    var i := 0;
    while i < |c.grants|
      invariant i <= |c.grants|
      invariant ApplyGrants(scopes, c.grants[i..], admitted) == ApplyGrants(start, c.grants, {})
      invariant admitted == GrantScopes(c.grants[..i])
    {
      var g := c.grants[i];
      assert c.grants[i..][0] == g && c.grants[i..][1..] == c.grants[i + 1..];
      assert c.grants[..i + 1] == c.grants[..i] + [g];
      if g.scope in admitted { return None; }
      var applied := ApplyOne(scopes, g);
      if applied.None? { return None; }
      scopes := applied.value;
      admitted := admitted + {g.scope};
      i := i + 1;
    }
    assert c.grants[..i] == c.grants;
    var revoked := RevokeAll(scopes, admitted);
    return Some(revoked);
  }

  method ApplyOne(scopes: map<Scope, ScopeState>, g: Grant) returns (after: Option<map<Scope, ScopeState>>)
    ensures after == ApplyGrant(scopes, g)
  {
    if !GrantOk(g) { return None; }
    if g.scope in scopes {
      var entry := scopes[g.scope];
      if entry.grant != g {
        if g.previous != Some(entry.grant) || g.initialHead != entry.head
           || g.maxEffects > entry.grant.maxEffects || g.maxTransitions > entry.grant.maxTransitions
           || g.writeRoot != entry.grant.writeRoot || g.actor != entry.grant.actor {
          return None;
        }
        entry := entry.(grant := g);
      } else if !entry.active {
        return None;
      }
      entry := entry.(active := true);
      assert entry == scopes[g.scope] ==> scopes[g.scope := entry] == scopes;
      return Some(scopes[g.scope := entry]);
    }
    if g.previous.Some? || |scopes| >= MAX_SCOPES { return None; }
    return Some(scopes[g.scope := ScopeState(g, g.initialHead, true, 0, 0, None)]);
  }

  method RevokeAll(scopes: map<Scope, ScopeState>, admitted: set<Scope>) returns (revoked: map<Scope, ScopeState>)
    ensures revoked == Revoke(scopes, admitted)
  {
    revoked := scopes;
    var left := scopes.Keys;
    while left != {}
      invariant left <= scopes.Keys && revoked.Keys == scopes.Keys
      invariant forall k :: k in scopes ==>
        revoked[k] == if k in left || k in admitted then scopes[k] else scopes[k].(active := false)
      decreases left
    {
      var k :| k in left;
      if k !in admitted { revoked := revoked[k := revoked[k].(active := false)]; }
      left := left - {k};
    }
  }

  /** The inventory check on one historical receipt. */
  method ObligationsHold(permits: map<Permit, Record>, receipt: Receipt) returns (ok: bool)
    ensures ok == ObligationsOk(permits, receipt)
  {
    hide ObligationOk;
    var expected := set p | p in permits && ScopeOf(p) == receipt.request.authority.scope && permits[p].preflight.Some?
                            && GenerationOf(p) < receipt.successor.generation;
    if expected != receipt.consumed.Keys { return false; }
    var left := receipt.consumed.Keys;
    while left != {}
      invariant left <= receipt.consumed.Keys
      invariant forall p :: p in receipt.consumed && p !in left ==>
        ObligationOk(permits[p], receipt.consumed[p], receipt.recordedAt)
      decreases left
    {
      var p :| p in left;
      if !ObligationOk(permits[p], receipt.consumed[p], receipt.recordedAt) { return false; }
      left := left - {p};
    }
    return true;
  }

  method OpenHeads(incarnation: Id, scopes: map<Scope, ScopeState>, verifier: Verifier) returns (heads: set<(Binding, Verifier)>)
    ensures heads == Admissions(incarnation, scopes, verifier)
  {
    heads := {};
    var left := scopes.Keys;
    while left != {}
      invariant left <= scopes.Keys
      invariant heads == set k | k in scopes && k !in left && Open(scopes[k]) :: (BindingOf(incarnation, scopes[k]), verifier)
      decreases left
    {
      var k :| k in left;
      if Open(scopes[k]) { heads := heads + {(BindingOf(incarnation, scopes[k]), verifier)}; }
      left := left - {k};
    }
  }

  /** The loop of the history validator over the journal. */
  method ReplayJournal(s: Authority) returns (result: Option<Replay>)
    ensures result == ReplayAll(s, s.journal)
  {
    hide ApplyConfiguration, ObligationsOk, Current, Successor, Moved, Admissions;
    var replay := EMPTY;
    var i := 0;
    while i < |s.journal|
      invariant i <= |s.journal|
      invariant ReplayAll(s, s.journal[..i]) == Some(replay)
    {
      var event := s.journal[i];
      assert s.journal[..i + 1][..i] == s.journal[..i];
      var next := ReplayOne(s, replay, event);
      if next.None? {
        ReplayStuck(s, i + 1);
        return None;
      }
      replay := next.value;
      i := i + 1;
    }
    assert s.journal[..i] == s.journal;
    return Some(replay);
  }

  method ReplayOne(s: Authority, replay: Replay, event: Event) returns (result: Option<Replay>)
    ensures result == ReplayEvent(s, replay, event)
  {
    hide ApplyConfiguration, ObligationsOk, Current, Successor, Admissions;
    var next := replay;
    match event {
      case Enrollment(c) =>
        var scopes := ApplyAll(s.incarnation, replay.configuration, replay.scopes, c);
        if scopes.None? { return None; }
        next := next.(configuration := Some(c), scopes := scopes.value, grants := next.grants + (set g | g in c.grants));
      case Transition(key) =>
        if key in next.seen || key !in s.receipts { return None; }
        next := next.(seen := next.seen + {key});
        var receipt := s.receipts[key];
        var b := receipt.request.authority;
        if !Current(s.incarnation, next.scopes, b, receipt.recordedAt) { return None; }
        assert b.scope in next.scopes by { CurrentIsThere(s.incarnation, next.scopes, b, receipt.recordedAt); }
        var scope := next.scopes[b.scope];
        if scope.grant.controllerKey !in receipt.request.signature.validFor
           || scope.transitions >= scope.grant.maxTransitions
           || Successor(scope, receipt.request.action) != Some(receipt.successor) {
          return None;
        }
        var ok := ObligationsHold(s.permits, receipt);
        if !ok { return None; }
        scope := scope.(head := receipt.successor, transitions := scope.transitions + 1);
        if receipt.request.action.Retire? { scope := scope.(retirement := Some(receipt)); }
        next := next.(scopes := next.scopes[b.scope := scope]);
    }
    if next.configuration.None? {
      if AnyOpen(next.scopes) { return None; }
      return Some(next);
    }
    var open := OpenHeads(s.incarnation, next.scopes, next.configuration.value.verifier);
    return Some(next.(admitted := next.admitted + open));
  }

  lemma CurrentIsThere(incarnation: Id, scopes: map<Scope, ScopeState>, b: Binding, now: Time)
    requires Current(incarnation, scopes, b, now)
    ensures b.scope in scopes
  {
  }

  method ProjectionHolds(s: Authority, r: Replay) returns (ok: bool)
    ensures ok == Projected(s, r)
  {
    hide PermitGranted, PermitsIn;
    if |r.seen| != |s.receipts| || r.configuration != s.configuration || |r.scopes| != |s.scopes| { return false; }
    var left := s.scopes.Keys;
    while left != {}
      invariant left <= s.scopes.Keys
      invariant forall k :: k in s.scopes && k !in left ==>
        k in r.scopes && r.scopes[k].(effects := |PermitsIn(s.permits, s.scopes[k].grant.scope)|) == s.scopes[k]
      decreases left
    {
      var k :| k in left;
      if k !in r.scopes || r.scopes[k].(effects := |PermitsIn(s.permits, s.scopes[k].grant.scope)|) != s.scopes[k] { return false; }
      left := left - {k};
    }
    var unchecked := s.permits.Keys;
    while unchecked != {}
      invariant unchecked <= s.permits.Keys
      invariant forall p :: p in s.permits && p !in unchecked ==> PermitGranted(r, p)
      decreases unchecked
    {
      var p :| p in unchecked;
      if !PermitGranted(r, p) { return false; }
      unchecked := unchecked - {p};
    }
    return true;
  }

  method InventoryHolds(s: Authority) returns (ok: bool)
    ensures ok <==>
      && |s.scopes| <= MAX_SCOPES && |s.permits| <= MAX_PERMITS && |s.receipts| <= MAX_TRANSITIONS
      && |s.approvals| == |s.permits|
      && (forall k :: k in s.scopes ==> ScopeOk(s, k))
      && (forall p :: p in s.permits ==> PermitOk(s, p))
      && (forall k :: k in s.receipts ==> s.receipts[k].request.transition == k)
  {
    hide ScopeOk, PermitOk;
    if |s.scopes| > MAX_SCOPES || |s.permits| > MAX_PERMITS || |s.receipts| > MAX_TRANSITIONS
       || |s.approvals| != |s.permits| {
      return false;
    }
    var scopes := s.scopes.Keys;
    while scopes != {}
      invariant scopes <= s.scopes.Keys && forall k :: k in s.scopes && k !in scopes ==> ScopeOk(s, k)
      decreases scopes
    {
      var k :| k in scopes;
      if !ScopeOk(s, k) { return false; }
      scopes := scopes - {k};
    }
    var permits := s.permits.Keys;
    while permits != {}
      invariant permits <= s.permits.Keys && forall p :: p in s.permits && p !in permits ==> PermitOk(s, p)
      decreases permits
    {
      var p :| p in permits;
      if !PermitOk(s, p) { return false; }
      permits := permits - {p};
    }
    var receipts := s.receipts.Keys;
    while receipts != {}
      invariant receipts <= s.receipts.Keys
      invariant forall k :: k in s.receipts && k !in receipts ==> s.receipts[k].request.transition == k
      decreases receipts
    {
      var k :| k in receipts;
      if s.receipts[k].request.transition != k { return false; }
      receipts := receipts - {k};
    }
    return true;
  }

  /** `validate_context_state`. */
  method Validate(s: Authority) returns (ok: bool)
    ensures ok == ValidState(s)
  {
    hide ReplayAll, Projected, ScopeOk, PermitOk;
    if |s.journal| > 2 * MAX_TRANSITIONS { return false; }
    var r := ReplayJournal(s);
    if r.None? { return false; }
    var projected := ProjectionHolds(s, r.value);
    if !projected { return false; }
    ok := InventoryHolds(s);
  }

  class Store {
    const size: Size
    var journal: seq<Event>
    var incarnation: Id
    var configuration: Option<Configuration>
    var scopes: map<Scope, ScopeState>
    var permits: map<Permit, Record>
    var approvals: map<ApprovalId, Permit>
    var receipts: map<Id, Receipt>

    function Snapshot(): Authority
      reads this
    {
      Authority(journal, incarnation, configuration, scopes, permits, approvals, receipts)
    }

    constructor (measure: Size, incarnationId: Id)
      ensures size == measure && Snapshot() == Initialized(incarnationId)
    {
      size := measure;
      journal, incarnation, configuration, scopes := [], incarnationId, None, map[];
      permits, approvals, receipts := map[], map[], map[];
    }

    /** Validate, measure, write the temporary file, sync, rename, sync the directory. */
    method Replace(next: Authority, interrupted: Option<Stage>) returns (failure: Option<Reply>)
      modifies this
      ensures Snapshot() ==
        if Writable(size, next) && !(interrupted.Some? && (interrupted.value.TempWrite? || interrupted.value.TempFsync?))
        then next else old(Snapshot())
      ensures failure ==
        if !Writable(size, next) then Some(Denied)
        else if interrupted.Some? then Some(Interrupted(interrupted.value)) else None
    {
      hide ValidState;
      var ok := Validate(next);
      if !ok { return Some(Denied); }
      if size(next) > MAX_STATE_BYTES { return Some(Denied); }
      if interrupted == Some(TempWrite) { return Some(Interrupted(TempWrite)); }
      if interrupted == Some(TempFsync) { return Some(Interrupted(TempFsync)); }
      journal, incarnation, configuration, scopes := next.journal, next.incarnation, next.configuration, next.scopes;
      permits, approvals, receipts := next.permits, next.approvals, next.receipts;
      if interrupted == Some(Rename) { return Some(Interrupted(Rename)); }
      if interrupted == Some(DirectoryFsync) { return Some(Interrupted(DirectoryFsync)); }
      return None;
    }

    method EnrollConfiguration(c: Configuration) returns (reply: Reply)
      modifies this
      ensures Snapshot() == Step(size, old(Snapshot()), DoEnroll(c)) && reply == ReplyTo(size, old(Snapshot()), DoEnroll(c))
    {
      hide ValidState, ApplyConfiguration;
      var s := Snapshot();
      if c.incarnation != s.incarnation || c.revision == 0 || |c.grants| > MAX_SCOPES { return Denied; }
      var access := Access(s.incarnation, c);
      if s.configuration.Some? {
        if s.configuration.value == c { return Enrolled(access); }
        if c.revision <= s.configuration.value.revision { return Denied; }
      }
      var applied := ApplyAll(s.incarnation, s.configuration, s.scopes, c);
      if applied.None? { return Denied; }
      s := s.(scopes := applied.value, configuration := Some(c));
      s := s.(journal := s.journal + [Enrollment(c)]);
      var failure := Replace(s, None);
      return if failure.Some? then failure.value else Enrolled(access);
    }

    /** The checks of an issue and what it would write. */
    method PlanIssue(access: Access, verifier: Verifier, w: Witness, context: ContextCall,
                     now: Time, finalNow: Time, legacy: set<ApprovalId>) returns (plan: Attempt<Permit>)
      ensures plan == Issue(Snapshot(), access, verifier, w, context, now, finalNow, legacy)
    {
      hide WitnessOk, InGrant, HeadOk;
      var s := Snapshot();
      if !HasAccess(s, access) || s.configuration.value.verifier != verifier { return Refused; }
      if !Current(s.incarnation, s.scopes, context.authority, now) { return Refused; }
      var scope := s.scopes[context.authority.scope];
      if scope.grant.controllerKey !in context.signature.validFor { return Refused; }
      if context.witnessed != w || scope.head.mode != Active { return Refused; }
      if !WitnessOk(verifier, w, now) || !InGrant(scope.grant, w.effect) { return Refused; }
      var permit := Permit(w.effect, verifier, context);
      var approval := ApprovalOf(w.effect);
      if approval in s.approvals {
        if s.approvals[approval] !in s.permits { return Refused; }
        return if s.approvals[approval] == permit then Kept(permit) else Refused;
      }
      if approval in legacy { return Refused; }
      if scope.effects >= scope.grant.maxEffects || |s.permits| >= MAX_PERMITS { return Refused; }
      if finalNow < now { return Refused; }
      if !Current(s.incarnation, s.scopes, context.authority, finalNow) || !WitnessOk(verifier, w, finalNow) { return Refused; }
      s := s.(scopes := s.scopes[context.authority.scope := scope.(effects := scope.effects + 1)]);
      s := s.(approvals := s.approvals[approval := permit]);
      s := s.(permits := s.permits[permit := Record(None, None)]);
      return Written(s, permit);
    }

    method IssuePermit(access: Access, verifier: Verifier, w: Witness, context: ContextCall,
                       now: Time, finalNow: Time, legacy: set<ApprovalId>) returns (reply: Reply)
      modifies this
      ensures var op := DoIssue(access, verifier, w, context, now, finalNow, legacy);
              Snapshot() == Step(size, old(Snapshot()), op) && reply == ReplyTo(size, old(Snapshot()), op)
    {
      hide Writable, Issue;
      var plan := PlanIssue(access, verifier, w, context, now, finalNow, legacy);
      match plan {
        case Refused => return Denied;
        case Kept(permit) => return Issued(permit);
        case Written(next, permit) =>
          var failure := Replace(next, None);
          return if failure.Some? then failure.value else Issued(permit);
      }
    }

    method ConsumePermit(access: Access, verifier: Verifier, permit: Permit, call: Call, now: Time, finalNow: Time)
      returns (reply: Reply)
      modifies this
      ensures var op := DoConsume(access, verifier, permit, call, now, finalNow);
              Snapshot() == Step(size, old(Snapshot()), op) && reply == ReplyTo(size, old(Snapshot()), op)
    {
      hide ValidState, HeadOk;
      var s := Snapshot();
      var b := permit.context.authority;
      if !HasAccess(s, access) || s.configuration.value.verifier != verifier { return Denied; }
      if !Current(s.incarnation, s.scopes, b, now) { return Denied; }
      var scope := s.scopes[b.scope];
      if scope.grant.controllerKey !in permit.context.signature.validFor { return Denied; }
      if permit !in s.permits { return Denied; }
      if permit.verifier != verifier || s.permits[permit].preflight.Some? || scope.head.mode != Active { return Denied; }
      if permit.effect.subject.call != call || permit.effect.subject.policyVersion != scope.grant.policyVersion
         || permit.effect.subject.actor != scope.grant.actor {
        return Denied;
      }
      if !Current(s.incarnation, s.scopes, b, finalNow) { return Denied; }
      if finalNow < now || finalNow < permit.effect.notBefore || finalNow >= permit.effect.expiresAt { return Denied; }
      var preflight := Preflight(permit, finalNow);
      s := s.(permits := s.permits[permit := s.permits[permit].(preflight := Some(preflight))]);
      var failure := Replace(s, None);
      return if failure.Some? then failure.value else Preflighted(preflight);
    }

    /** The checks of a transition and what it would write. */
    method PlanTransition(access: Access, request: Request, now: Time, finalNow: Time) returns (plan: Attempt<Receipt>)
      ensures plan == Transit(Snapshot(), access, request, now, finalNow)
    {
      hide HeadOk, Consumed, Identifier, Current;
      var s := Snapshot();
      var b := request.authority;
      if !HasAccess(s, access) { return Refused; }
      if request.transition in s.receipts {
        var known := s.receipts[request.transition];
        return if known.request == request then Kept(known) else Refused;
      }
      if !Current(s.incarnation, s.scopes, b, now) { return Refused; }
      CurrentIsThere(s.incarnation, s.scopes, b, now);
      var scope := s.scopes[b.scope];
      if scope.grant.controllerKey !in request.signature.validFor { return Refused; }
      if scope.transitions >= scope.grant.maxTransitions || |s.receipts| >= MAX_TRANSITIONS { return Refused; }
      var successor: Head;
      match request.action {
        case Retire(context) =>
          if !Identifier(context) || scope.head.generation >= U64_MAX { return Refused; }
          successor := Head(context, scope.head.generation + 1, Sealed);
        case Activate(retirement) =>
          if scope.head.mode != Sealed || scope.retirement != Some(retirement) { return Refused; }
          successor := scope.head.(mode := Active);
      }
      if !HeadOk(successor) { return Refused; }
      if finalNow < now || !Current(s.incarnation, s.scopes, b, finalNow) { return Refused; }
      var receipt := Receipt(request, successor, Consumed(s.permits, b.scope), finalNow);
      scope := scope.(head := successor, transitions := scope.transitions + 1);
      if request.action.Retire? { scope := scope.(retirement := Some(receipt)); }
      s := s.(scopes := s.scopes[b.scope := scope]);
      s := s.(receipts := s.receipts[request.transition := receipt]);
      s := s.(journal := s.journal + [Transition(request.transition)]);
      return Written(s, receipt);
    }

    method TransitionContext(access: Access, request: Request, now: Time, finalNow: Time, interrupted: Option<Stage>)
      returns (reply: Reply)
      modifies this
      ensures var op := DoTransit(access, request, now, finalNow, interrupted);
              Snapshot() == Step(size, old(Snapshot()), op) && reply == ReplyTo(size, old(Snapshot()), op)
    {
      hide Writable, Transit;
      var plan := PlanTransition(access, request, now, finalNow);
      match plan {
        case Refused => return Denied;
        case Kept(receipt) => return Transited(receipt);
        case Written(next, receipt) =>
          var failure := Replace(next, interrupted);
          return if failure.Some? then failure.value else Transited(receipt);
      }
    }

    method SettlePermit(permit: Permit, preflight: Preflight, reported: Reported, now: Time) returns (reply: Reply)
      modifies this
      ensures var op := DoSettle(permit, preflight, reported, now);
              Snapshot() == Step(size, old(Snapshot()), op) && reply == ReplyTo(size, old(Snapshot()), op)
    {
      hide ValidState, ReportedOk;
      if !ReportedOk(reported) { return Denied; }
      var s := Snapshot();
      if permit !in s.permits { return Denied; }
      var record := s.permits[permit];
      if record.preflight.None? { return Denied; }
      if record.preflight.value != preflight || now < record.preflight.value.recordedAt { return Denied; }
      if record.outcome.Some? {
        return if record.outcome.value.reported == reported then Settled(record.outcome.value) else Denied;
      }
      var outcome := Outcome(permit, preflight, reported, now);
      s := s.(permits := s.permits[permit := record.(outcome := Some(outcome))]);
      var failure := Replace(s, None);
      return if failure.Some? then failure.value else Settled(outcome);
    }
  }
}
