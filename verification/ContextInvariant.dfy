/** The incremental projection agrees with the replay, and what follows from it. */
module ContextInvariant {
  import opened Common
  import opened ContextModel

  // ----- the replay, with the obligation checks taken out -----

  function FoldEvent(incarnation: Id, receipts: map<Id, Receipt>, r: Replay, event: Event): Option<Replay> {
    var next :=
      match event
      case Enrollment(c) => ReplayEnrollment(incarnation, r, c)
      case Transition(key) => ReplayTransition(incarnation, receipts, r, key);
    if next.None? then None else NoteAdmissions(incarnation, next.value)
  }

  function FoldAll(incarnation: Id, receipts: map<Id, Receipt>, events: seq<Event>): Option<Replay> {
    if events == [] then Some(EMPTY)
    else
      var before := FoldAll(incarnation, receipts, events[..|events| - 1]);
      if before.None? then None else FoldEvent(incarnation, receipts, before.value, events[|events| - 1])
  }

  ghost predicate Met(s: Authority, event: Event) {
    event.Transition? ==> event.key in s.receipts && ObligationsOk(s.permits, s.receipts[event.key])
  }

  /** The order of the checks does not matter: replay is the fold plus every obligation check. */
  lemma {:induction false} ReplaySplits(s: Authority, events: seq<Event>)
    ensures ReplayAll(s, events)
         == if forall e :: e in events ==> Met(s, e) then FoldAll(s.incarnation, s.receipts, events) else None
  {
    hide ReplayEnrollment, ReplayTransition, NoteAdmissions, ObligationsOk;
    if events != [] {
      var front, last := events[..|events| - 1], events[|events| - 1];
      ReplaySplits(s, front);
      assert events == front + [last];
      assert last in events && forall e :: e in events <==> e in front || e == last;
      if forall e :: e in events ==> Met(s, e) {
        assert Met(s, last);
      } else if forall e :: e in front ==> Met(s, e) {
        assert !Met(s, last);
      }
    }
  }

  /** The fold only looks at the receipts the journal names. */
  lemma {:induction false} FoldFrame(incarnation: Id, before: map<Id, Receipt>, after: map<Id, Receipt>, events: seq<Event>)
    requires forall k :: k in before ==> k in after && after[k] == before[k]
    requires FoldAll(incarnation, before, events).Some?
    ensures FoldAll(incarnation, after, events) == FoldAll(incarnation, before, events)
  {
    hide ReplayEnrollment, NoteAdmissions, Current, Successor, Moved;
    if events != [] {
      FoldFrame(incarnation, before, after, events[..|events| - 1]);
    }
  }

  /** Every transition of a folded journal has its receipt. */
  lemma {:induction false} FoldSeen(incarnation: Id, receipts: map<Id, Receipt>, events: seq<Event>)
    requires FoldAll(incarnation, receipts, events).Some?
    ensures forall e :: e in events && e.Transition? ==> e.key in FoldAll(incarnation, receipts, events).value.seen
  {
    hide ApplyConfiguration, Current, Successor, Moved, Admissions;
    if events != [] {
      var front, last := events[..|events| - 1], events[|events| - 1];
      FoldSeen(incarnation, receipts, front);
      assert events == front + [last];
    }
  }

  // ----- enrollment does not look at charges -----

  function Uncharged(scopes: map<Scope, ScopeState>): map<Scope, ScopeState> {
    map k | k in scopes :: scopes[k].(effects := 0)
  }

  function UnchargedOption(scopes: Option<map<Scope, ScopeState>>): Option<map<Scope, ScopeState>> {
    if scopes.None? then None else Some(Uncharged(scopes.value))
  }

  lemma UnchargedGrant(scopes: map<Scope, ScopeState>, g: Grant)
    ensures ApplyGrant(Uncharged(scopes), g) == UnchargedOption(ApplyGrant(scopes, g))
  {
    hide GrantOk;
    CountKeys(Uncharged(scopes), scopes);
    var a, b := ApplyGrant(Uncharged(scopes), g), ApplyGrant(scopes, g);
    if b.Some? {
      assert a.Some? && a.value == Uncharged(b.value);
    }
  }

  lemma {:induction false} UnchargedGrants(scopes: map<Scope, ScopeState>, grants: seq<Grant>, admitted: set<Scope>)
    ensures ApplyGrants(Uncharged(scopes), grants, admitted) == UnchargedOption(ApplyGrants(scopes, grants, admitted))
    decreases |grants|
  {
    hide ApplyGrant, Uncharged;
    if grants != [] && grants[0].scope !in admitted {
      UnchargedGrant(scopes, grants[0]);
      var next := ApplyGrant(scopes, grants[0]);
      if next.Some? {
        UnchargedGrants(next.value, grants[1..], admitted + {grants[0].scope});
      }
    }
  }

  lemma UnchargedConfiguration(incarnation: Id, held: Option<Configuration>, scopes: map<Scope, ScopeState>, c: Configuration)
    ensures ApplyConfiguration(incarnation, held, Uncharged(scopes), c)
         == UnchargedOption(ApplyConfiguration(incarnation, held, scopes, c))
  {
    hide ApplyGrants;
    UnchargedGrants(scopes, c.grants, {});
    var applied := ApplyGrants(scopes, c.grants, {});
    if applied.Some? {
      var kept := GrantScopes(c.grants);
      assert Revoke(Uncharged(applied.value), kept) == Uncharged(Revoke(applied.value, kept));
    }
  }

  // ----- what enrollment does to one scope -----

  /** A scope keeps its history; its grant may be superseded; a new scope starts clean. */
  ghost predicate Carried(before: map<Scope, ScopeState>, after: map<Scope, ScopeState>, k: Scope)
    requires k in after
  {
    && (k in before ==>
          && after[k].head == before[k].head && after[k].effects == before[k].effects
          && after[k].transitions == before[k].transitions && after[k].retirement == before[k].retirement
          && (after[k].grant != before[k].grant ==> GrantOk(after[k].grant) && after[k].grant.previous == Some(before[k].grant))
          && (after[k].grant == before[k].grant && after[k].active ==> before[k].active))
    && (k !in before ==> after[k] == ScopeState(after[k].grant, after[k].grant.initialHead, after[k].active, 0, 0, None)
                         && GrantOk(after[k].grant))
  }

  lemma GrantCarries(scopes: map<Scope, ScopeState>, g: Grant)
    requires ApplyGrant(scopes, g).Some?
    ensures var next := ApplyGrant(scopes, g).value;
            && next.Keys == scopes.Keys + {g.scope} && (|scopes| <= MAX_SCOPES ==> |next| <= MAX_SCOPES)
            && (forall k :: k in scopes && k != g.scope ==> next[k] == scopes[k])
            && next[g.scope].grant == g && Carried(scopes, next, g.scope)
  {
    hide GrantOk;
  }

  lemma {:induction false} GrantsCarry(scopes: map<Scope, ScopeState>, grants: seq<Grant>, admitted: set<Scope>)
    requires ApplyGrants(scopes, grants, admitted).Some?
    requires forall k :: k in scopes ==> scopes[k].grant.scope == k
    ensures var after := ApplyGrants(scopes, grants, admitted).value;
            && scopes.Keys <= after.Keys && (|scopes| <= MAX_SCOPES ==> |after| <= MAX_SCOPES)
            && (forall k :: k in after ==> after[k].grant.scope == k && Carried(scopes, after, k))
            && (forall k :: k in after ==> (k in scopes && after[k].grant == scopes[k].grant) || after[k].grant in grants)
            && (forall k :: k in admitted && k in scopes ==> after[k] == scopes[k])
    decreases |grants|
  {
    hide GrantOk, ApplyGrant, Carried;
    if grants == [] {
      forall k | k in scopes ensures Carried(scopes, scopes, k) { CarriedSelf(scopes, k); }
    } else {
      var g := grants[0];
      var next := ApplyGrant(scopes, g).value;
      GrantCarries(scopes, g);
      GrantsCarry(next, grants[1..], admitted + {g.scope});
      var after := ApplyGrants(scopes, grants, admitted).value;
      forall k | k in after
        ensures after[k].grant.scope == k && Carried(scopes, after, k)
        ensures (k in scopes && after[k].grant == scopes[k].grant) || after[k].grant in grants
      {
        CarriedThrough(scopes, next, after, g, k);
        assert after[k].grant in grants[1..] ==> after[k].grant in grants;
      }
    }
  }

  lemma CarriedSelf(scopes: map<Scope, ScopeState>, k: Scope)
    requires k in scopes
    ensures Carried(scopes, scopes, k)
  {
  }

  /** Grants after the first leave the scope of the first alone and carry the others on. */
  lemma CarriedThrough(scopes: map<Scope, ScopeState>, next: map<Scope, ScopeState>, after: map<Scope, ScopeState>, g: Grant, k: Scope)
    requires next.Keys == scopes.Keys + {g.scope} && g.scope in after && k in after
    requires forall x :: x in scopes && x != g.scope ==> next[x] == scopes[x]
    requires Carried(scopes, next, g.scope) && after[g.scope] == next[g.scope] && Carried(next, after, k)
    ensures Carried(scopes, after, k)
  {
    hide GrantOk;
  }

  lemma ConfigurationCarries(incarnation: Id, held: Option<Configuration>, scopes: map<Scope, ScopeState>, c: Configuration)
    requires ApplyConfiguration(incarnation, held, scopes, c).Some?
    requires forall k :: k in scopes ==> scopes[k].grant.scope == k
    requires |scopes| <= MAX_SCOPES
    ensures var after := ApplyConfiguration(incarnation, held, scopes, c).value;
            && scopes.Keys <= after.Keys && |after| <= MAX_SCOPES
            && (forall k :: k in after ==> after[k].grant.scope == k && Carried(scopes, after, k))
            && (forall k :: k in after ==> (k in scopes && after[k].grant == scopes[k].grant) || after[k].grant in c.grants)
  {
    hide ApplyGrants, GrantOk;
    GrantsCarry(scopes, c.grants, {});
    var applied := ApplyGrants(scopes, c.grants, {}).value;
    CountKeys(Revoke(applied, GrantScopes(c.grants)), applied);
  }

  // ----- the invariant -----

  /** No permit is ahead of its scope, and a sealed head has issued nothing yet. */
  ghost predicate Behind(scopes: map<Scope, ScopeState>, p: Permit) {
    && ScopeOf(p) in scopes
    && GenerationOf(p) <= scopes[ScopeOf(p)].head.generation
    && (scopes[ScopeOf(p)].head.mode == Sealed ==> GenerationOf(p) < scopes[ScopeOf(p)].head.generation)
  }

  ghost predicate ReceiptOk(s: Authority, k: Id)
    requires k in s.receipts
  {
    var r := s.receipts[k];
    && r.request.transition == k && r.request.authority.scope in s.scopes
    && r.successor.generation <= s.scopes[r.request.authority.scope].head.generation
    && ObligationsOk(s.permits, r)
  }

  ghost predicate ConfigurationSeen(s: Authority, r: Replay) {
    if s.configuration.None? then s.scopes == map[]
    else Admissions(s.incarnation, s.scopes, s.configuration.value.verifier) <= r.admitted
  }

  /** The replayed state is the projection, except that it has no charges for effects. */
  ghost predicate Mirrors(s: Authority, r: Replay) {
    && r.seen == s.receipts.Keys && r.configuration == s.configuration && r.scopes == Uncharged(s.scopes)
    && ConfigurationSeen(s, r)
    && (forall k :: k in s.scopes ==> s.scopes[k].grant in r.grants)
    && (forall p :: p in s.permits ==> PermitGranted(r, p))
  }

  ghost predicate Inventoried(s: Authority) {
    && |s.scopes| <= MAX_SCOPES && |s.permits| <= MAX_PERMITS && |s.receipts| <= MAX_TRANSITIONS
    && |s.approvals| == |s.permits| && |s.journal| <= 2 * MAX_TRANSITIONS
  }

  ghost predicate ScopesOk(s: Authority) {
    forall k :: k in s.scopes ==> ScopeOk(s, k)
  }

  ghost predicate PermitsOk(s: Authority) {
    forall p :: p in s.permits ==> PermitOk(s, p)
  }

  ghost predicate NoneAhead(s: Authority) {
    forall p :: p in s.permits ==> Behind(s.scopes, p)
  }

  ghost predicate ReceiptsOk(s: Authority) {
    forall k :: k in s.receipts ==> ReceiptOk(s, k)
  }

  ghost predicate Replayed(s: Authority) {
    var r := FoldAll(s.incarnation, s.receipts, s.journal);
    r.Some? && Mirrors(s, r.value)
  }

  ghost predicate Inv(s: Authority) {
    Inventoried(s) && ScopesOk(s) && PermitsOk(s) && NoneAhead(s) && ReceiptsOk(s) && Replayed(s)
  }

  lemma ReplayAccepts(s: Authority)
    requires Replayed(s) && ReceiptsOk(s)
    ensures ReplayAll(s, s.journal) == FoldAll(s.incarnation, s.receipts, s.journal)
  {
    hide FoldAll, ObligationsOk;
    ReplaySplits(s, s.journal);
    FoldSeen(s.incarnation, s.receipts, s.journal);
    forall e | e in s.journal ensures Met(s, e) {
      if e.Transition? { assert ReceiptOk(s, e.key); }
    }
  }

  /** The invariant is enough for the validator. */
  lemma InvIsValid(s: Authority)
    requires Inv(s)
    ensures ValidState(s)
  {
    hide FoldAll, ReplayAll, PermitGranted, ObligationsOk, GrantOk, HeadOk, PermitOk, ValidHistory;
    InvIsProjected(s);
    forall k | k in s.receipts ensures s.receipts[k].request.transition == k { assert ReceiptOk(s, k); }
  }

  lemma InvIsProjected(s: Authority)
    requires Inv(s)
    ensures ValidHistory(s)
  {
    hide FoldAll, ReplayAll, PermitGranted, ObligationsOk, GrantOk, HeadOk, PermitOk, Behind, ReceiptsOk;
    ReplayAccepts(s);
    var r := FoldAll(s.incarnation, s.receipts, s.journal).value;
    CountKeys(r.scopes, s.scopes);
    assert |r.seen| == |s.receipts|;
    forall k | k in s.scopes
      ensures k in r.scopes && r.scopes[k].(effects := |PermitsIn(s.permits, s.scopes[k].grant.scope)|) == s.scopes[k]
    {
      assert ScopeOk(s, k);
    }
  }
}
