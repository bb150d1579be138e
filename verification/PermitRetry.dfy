/** An issue that died half-way, repeated later. */
module PermitRetry {
  import opened Common
  import opened PermitModel
  import opened PermitInvariant

  /** The same reservation in the family; how long the attempt may take does not matter to it. */
  predicate SameSlot(a: Option<Attempt>, b: Option<Attempt>) {
    && (a.None? <==> b.None?)
    && (a.Some? ==> a.value.operation == b.value.operation && a.value.maxAttempts == b.value.maxAttempts
                    && a.value.number == b.value.number && a.value.attemptId == b.value.attemptId)
  }

  /** Two acceptable issues of one permit id, each at its own time and with its own absolute times. */
  ghost predicate Restamped(f: Format, st: Store, x: Draft, now: Time, y: Draft, later: Time) {
    && PlanIssue(f, st, x, now).Some? && PlanIssue(f, st, y, later).Some?
    && IdOf(PlanIssue(f, st, x, now).value.permit) == IdOf(PlanIssue(f, st, y, later).value.permit)
    && SameSlot(x.attempt, y.attempt)
  }

  /** What the first issue wrote before it ended is short enough to be read again. */
  ghost predicate Rereads(f: Format, x: Draft, plan: Plan, crash: Crash) {
    && (x.binding.parent.Some? && x.attempt.Some? ==> FamiliesLegible(f, plan.families))
    && (plan.parent.Some? && crash != AfterFamily ==> f.record(plan.parent.value) <= MAX_RECORD_BYTES)
    && (crash == NoCrash ==> f.record(Blank(plan.permit)) <= MAX_RECORD_BYTES)
  }

  /**
   * The second issue may do again what the first did: nothing it needs is out of
   * reach, and it asks for the same times if the first got through.
   */
  ghost predicate MayRepeat(f: Format, x: Draft, plan: Plan, crash: Crash, again: Plan) {
    Rereads(f, x, plan, crash) && (crash == NoCrash ==> plan.permit == again.permit)
  }

  /**
   * A crash after the family or the parent was written charges nothing twice: in
   * any reachable store a later issue of the same id, even with new absolute
   * times, ends where it would have ended had the first never been made, and
   * returns the same permit, if and only if what the first wrote can be read
   * again. A first issue that got through stands with the times it had.
   */
  lemma RetryAfterCrash(f: Format, trace: seq<Store>, ops: seq<Op>, i: nat,
                        x: Draft, now: Time, crash: Crash, y: Draft, later: Time)
    requires IsRun(f, trace, ops) && i < |trace| && Restamped(f, trace[i], x, now, y, later)
    ensures var plan, again := PlanIssue(f, trace[i], x, now).value, PlanIssue(f, trace[i], y, later).value;
            var dead := StepReply(f, trace[i], DoIssue(x, now, crash)).0;
            && StepReply(f, trace[i], DoIssue(y, later, NoCrash)).1 == Returned(Blank(again.permit))
            && StepReply(f, dead, DoIssue(y, later, NoCrash)) ==
               (if MayRepeat(f, x, plan, crash, again) then StepReply(f, trace[i], DoIssue(y, later, NoCrash)) else (dead, Denied))
  {
    hide Inv, PlanIssue, IdOf, Carry, MayRepeat;
    RunKeepsInv(f, trace, ops, i);
    RetryFrom(f, trace[i], x, now, crash, y, later);
  }

  lemma RetryFrom(f: Format, st: Store, x: Draft, now: Time, crash: Crash, y: Draft, later: Time)
    requires Inv(f.digest, st) && Restamped(f, st, x, now, y, later)
    ensures var plan, again := PlanIssue(f, st, x, now).value, PlanIssue(f, st, y, later).value;
            var dead := Carry(st, plan, crash);
            && (MayRepeat(f, x, plan, crash, again) ==>
                  PlanIssue(f, dead, y, later) == Some(again) && Carry(dead, again, NoCrash) == Carry(st, again, NoCrash))
            && (!MayRepeat(f, x, plan, crash, again) ==> PlanIssue(f, dead, y, later).None?)
  {
    hide Inv, PlanIssue, Carry, IdOf, Rereads;
    var plan, again := PlanIssue(f, st, x, now).value, PlanIssue(f, st, y, later).value;
    if MayRepeat(f, x, plan, crash, again) {
      RetryRepeats(f, st, x, now, crash, y, later);
    } else {
      RetryRefused(f, st, x, now, crash, y, later);
    }
  }

  /** What a crash leaves, record by record. */
  lemma Wreck(f: Format, st: Store, x: Draft, now: Time, crash: Crash)
    requires Inv(f.digest, st) && PlanIssue(f, st, x, now).Some?
    ensures var plan := PlanIssue(f, st, x, now).value;
            var dead, id := Carry(st, plan, crash), IdOf(plan.permit);
            && dead.families == plan.families && (plan.parent.None? ==> plan.families == st.families)
            && dead.records.Keys == st.records.Keys + (if crash == NoCrash then {id} else {})
            && (crash == NoCrash ==> dead.records[id] == Blank(plan.permit))
            && (plan.parent.Some? ==> x.binding.parent.value != id)
            && forall k :: k in st.records ==>
                 (dead.records[k] == if plan.parent.Some? && k == x.binding.parent.value && crash != AfterFamily
                                     then plan.parent.value else st.records[k])
  {
    hide Inv, PlanIssue, PermitOk, AllocationsFit, Delegated, RecordOk, IdOf;
    var plan := PlanIssue(f, st, x, now).value;
    PlanFacts(f, st, x, now);
    if plan.parent.None? {
      RootFamilies(f, st, x, now);
    } else {
      FiledUnderItsId(f.digest, st, x.binding.parent.value);
      NotItsOwnParent(plan.permit);
    }
  }

  lemma RootFamilies(f: Format, st: Store, x: Draft, now: Time)
    requires PlanIssue(f, st, x, now).Some? && x.binding.parent.None?
    ensures PlanIssue(f, st, x, now).value.families == st.families
  {
    hide PermitOk, BindingOk, CeilingOk, LeaseOk, IdOf, Read;
  }

  lemma PlansPermit(f: Format, st: Store, x: Draft, now: Time)
    requires PlanIssue(f, st, x, now).Some?
    ensures DelegationFor(f, st, x.binding).Some?
    ensures PlanIssue(f, st, x, now).value.permit
         == Permit(x.binding, x.purpose, x.ceiling, DelegationFor(f, st, x.binding).value, x.executables)
  {
    hide PermitOk, BindingOk, CeilingOk, LeaseOk, IdOf, ParentOk, AllocationsFit, ReserveAttempt, DelegationFor;
  }

  lemma SameId(p: Permit, q: Permit)
    requires IdOf(p) == IdOf(q)
    ensures p.binding.parent == q.binding.parent && p.binding.budget == q.binding.budget && p.delegation == q.delegation
  {
  }

  lemma ReserveTwice(families: map<PermitId, Family>, parent: PermitId, a: Attempt, b: Attempt, permit: PermitId)
    requires ReserveAttempt(families, parent, a, permit).Some? && SameSlot(Some(a), Some(b))
    ensures var f := ReserveAttempt(families, parent, a, permit);
            ReserveAttempt(families, parent, b, permit) == f && ReserveAttempt(f.value, parent, b, permit) == f
  {
  }

  lemma NotItsOwnParent(permit: Permit)
    requires permit.binding.parent.Some?
    ensures IdOf(permit) != permit.binding.parent.value
  {
  }

  // ----- refused -----

  /** What an acceptable issue has read. */
  lemma PlanHasRead(f: Format, st: Store, x: Draft, now: Time)
    requires PlanIssue(f, st, x, now).Some?
    ensures var id := IdOf(PlanIssue(f, st, x, now).value.permit);
            id in st.records ==> Read(f, st, id) == Some(Blank(PlanIssue(f, st, x, now).value.permit))
    ensures x.binding.parent.Some? ==> Read(f, st, x.binding.parent.value).Some?
    ensures x.binding.parent.Some? && x.attempt.Some? ==> FamiliesLegible(f, st.families) && Scanned(f, st)
  {
    hide PermitOk, BindingOk, CeilingOk, LeaseOk, IdOf, ParentOk, AllocationsFit, ReserveAttempt, Read, Scanned, FamiliesLegible;
    PlansPermit(f, st, x, now);
  }

  lemma RetryRefused(f: Format, st: Store, x: Draft, now: Time, crash: Crash, y: Draft, later: Time)
    requires Inv(f.digest, st) && Restamped(f, st, x, now, y, later)
    requires !MayRepeat(f, x, PlanIssue(f, st, x, now).value, crash, PlanIssue(f, st, y, later).value)
    ensures PlanIssue(f, Carry(st, PlanIssue(f, st, x, now).value, crash), y, later).None?
  {
    hide Inv, PlanIssue, Carry, IdOf, Read, FamiliesLegible, Scanned;
    var plan, again := PlanIssue(f, st, x, now).value, PlanIssue(f, st, y, later).value;
    var dead := Carry(st, plan, crash);
    if PlanIssue(f, dead, y, later).Some? {
      Wreck(f, st, x, now, crash);
      PlanFacts(f, st, x, now);
      PlanFacts(f, st, y, later);
      SameId(plan.permit, again.permit);
      PlanHasRead(f, dead, y, later);
      if x.binding.parent.Some? { ReadIsShort(f, dead, x.binding.parent.value); }
      if crash == NoCrash {
        SamePermit(f, st, dead, y, later);
        ReadIsShort(f, dead, IdOf(plan.permit));
      }
      assert false;
    }
  }

  lemma ReadIsShort(f: Format, st: Store, id: PermitId)
    requires Read(f, st, id).Some?
    ensures id in st.records && Read(f, st, id) == Some(st.records[id]) && f.record(st.records[id]) <= MAX_RECORD_BYTES
  {
    hide Checked, IdOf;
  }

  /** A wreck names the same parent, so it yields the same permit. */
  lemma SamePermit(f: Format, st: Store, dead: Store, y: Draft, later: Time)
    requires PlanIssue(f, st, y, later).Some? && PlanIssue(f, dead, y, later).Some?
    requires y.binding.parent.Some? && y.binding.parent.value in st.records ==>
      && y.binding.parent.value in dead.records
      && dead.records[y.binding.parent.value].permit == st.records[y.binding.parent.value].permit
    ensures PlanIssue(f, dead, y, later).value.permit == PlanIssue(f, st, y, later).value.permit
  {
    hide PlanIssue, Checked, IdOf;
    PlansPermit(f, st, y, later);
    PlansPermit(f, dead, y, later);
  }

  // ----- repeated -----

  lemma OpenIsLegible(f: Format, st: Store, id: PermitId)
    requires Inv(f.digest, st) && id in st.records && st.records[id].state.Issued?
    requires f.record(st.records[id]) <= MAX_RECORD_BYTES
    ensures Read(f, st, id) == Some(st.records[id])
  {
    hide PermitOk, IdOf, Delegated, AllocationsFit, ReceiptsOk, SettlementOk;
    InvAt(f.digest, st, id);
  }

  /** The wreck reads what the first issue read, and what it wrote. */
  lemma WreckReads(f: Format, st: Store, x: Draft, now: Time, crash: Crash)
    requires Inv(f.digest, st) && PlanIssue(f, st, x, now).Some? && Rereads(f, x, PlanIssue(f, st, x, now).value, crash)
    ensures var plan := PlanIssue(f, st, x, now).value;
            var dead, id := Carry(st, plan, crash), IdOf(plan.permit);
            && (id in dead.records ==> Read(f, dead, id) == Some(Blank(plan.permit)))
            && (x.binding.parent.Some? ==>
                  && x.binding.parent.value in dead.records
                  && Read(f, dead, x.binding.parent.value) == Some(dead.records[x.binding.parent.value]))
            && (x.binding.parent.Some? && x.attempt.Some? ==> Scanned(f, dead))
  {
    hide Inv, PlanIssue, Carry, IdOf, Read, FamiliesLegible, Scanned, RecordOk, PermitOk, AllocationsFit, Delegated;
    var plan := PlanIssue(f, st, x, now).value;
    var dead, id := Carry(st, plan, crash), IdOf(plan.permit);
    Wreck(f, st, x, now, crash);
    PlanFacts(f, st, x, now);
    PlanHasRead(f, st, x, now);
    IssueKeeps(f, st, x, now, crash);
    if id in dead.records {
      if id in st.records { ReadIsShort(f, st, id); }
      OpenIsLegible(f, dead, id);
    }
    if x.binding.parent.Some? {
      ReadIsShort(f, st, x.binding.parent.value);
      OpenIsLegible(f, dead, x.binding.parent.value);
      if x.attempt.Some? { WreckScans(f, st, dead, id, x.binding.parent.value); }
    }
  }

  lemma WreckScans(f: Format, st: Store, dead: Store, id: PermitId, parent: PermitId)
    requires Inv(f.digest, dead) && Scanned(f, st) && FamiliesLegible(f, dead.families)
    requires dead.records.Keys <= st.records.Keys + {id}
    requires id in dead.records ==> Read(f, dead, id).Some?
    requires parent in dead.records && Read(f, dead, parent).Some?
    requires forall k :: k in st.records ==> k in dead.records && (k == parent || dead.records[k] == st.records[k])
    ensures Scanned(f, dead)
  {
    hide Inv, Read, FamiliesLegible;
    forall k | k in dead.records ensures Read(f, dead, k).Some? {
      if k != id && k != parent {
        ReadIsShort(f, st, k);
        ReadIff(f, dead, k);
      }
    }
  }

  /** The plan of a child, made again on the wreck of itself. */
  lemma PlanChildAgain(f: Format, st: Store, dead: Store, p: Permit, q: Permit, a: Option<Attempt>, b: Option<Attempt>,
                       now: Time, later: Time, crash: Crash)
    requires p.binding.parent.Some? && Read(f, st, p.binding.parent.value).Some? && p.binding.parent == q.binding.parent
    requires IdOf(p) == IdOf(q) && p.binding.budget == q.binding.budget && SameSlot(a, b)
    requires PlanChild(f, st, p, a, now).Some? && PlanChild(f, st, q, b, later).Some?
    requires dead.families == PlanChild(f, st, p, a, now).value.families
    requires Read(f, dead, p.binding.parent.value) ==
      Some(if crash == AfterFamily then Read(f, st, p.binding.parent.value).value else PlanChild(f, st, p, a, now).value.parent.value)
    requires a.Some? ==> Scanned(f, dead) && FamiliesLegible(f, dead.families)
    ensures PlanChild(f, dead, q, b, later) == PlanChild(f, st, q, b, later)
  {
    hide AllocationsFit, IdOf, EdgeOk, ReserveAttempt, Read, Scanned, FamiliesLegible;
    var parent, id := p.binding.parent.value, IdOf(p);
    if a.Some? { ReserveTwice(st.families, parent, a.value, b.value, id); }
    var was := Read(f, st, parent).value.allocations;
    assert was[id := p.binding.budget][id := p.binding.budget] == was[id := p.binding.budget];
  }

  lemma RetryRepeats(f: Format, st: Store, x: Draft, now: Time, crash: Crash, y: Draft, later: Time)
    requires Inv(f.digest, st) && Restamped(f, st, x, now, y, later)
    requires MayRepeat(f, x, PlanIssue(f, st, x, now).value, crash, PlanIssue(f, st, y, later).value)
    ensures var plan, again := PlanIssue(f, st, x, now).value, PlanIssue(f, st, y, later).value;
            var dead := Carry(st, plan, crash);
            PlanIssue(f, dead, y, later) == Some(again) && Carry(dead, again, NoCrash) == Carry(st, again, NoCrash)
  {
    hide Inv, PlanIssue, Carry, IdOf, Read, Rereads;
    RetryPlans(f, st, x, now, crash, y, later);
    RetryCarries(f, st, x, now, crash, y, later);
  }

  lemma RetryPlans(f: Format, st: Store, x: Draft, now: Time, crash: Crash, y: Draft, later: Time)
    requires Inv(f.digest, st) && Restamped(f, st, x, now, y, later)
    requires MayRepeat(f, x, PlanIssue(f, st, x, now).value, crash, PlanIssue(f, st, y, later).value)
    ensures PlanIssue(f, Carry(st, PlanIssue(f, st, x, now).value, crash), y, later) == PlanIssue(f, st, y, later)
  {
    hide Inv, Carry, IdOf, Read, Scanned, FamiliesLegible, PermitOk, BindingOk, CeilingOk, LeaseOk, PlanChild, AllocationsFit,
      Delegated, RecordOk;
    var plan, again := PlanIssue(f, st, x, now).value, PlanIssue(f, st, y, later).value;
    var dead := Carry(st, plan, crash);
    Wreck(f, st, x, now, crash);
    WreckReads(f, st, x, now, crash);
    PlanFacts(f, st, x, now);
    PlanFacts(f, st, y, later);
    PlansPermit(f, st, x, now);
    PlansPermit(f, st, y, later);
    SameId(plan.permit, again.permit);
    PlanHasRead(f, st, x, now);
    PlanHasRead(f, st, y, later);
    if x.binding.parent.Some? {
      ReadIsShort(f, st, x.binding.parent.value);
      PlanChildAgain(f, st, dead, plan.permit, again.permit, x.attempt, y.attempt, now, later, crash);
    }
  }

  lemma RetryCarries(f: Format, st: Store, x: Draft, now: Time, crash: Crash, y: Draft, later: Time)
    requires Inv(f.digest, st) && Restamped(f, st, x, now, y, later)
    requires crash == NoCrash ==> PlanIssue(f, st, x, now).value.permit == PlanIssue(f, st, y, later).value.permit
    ensures var plan, again := PlanIssue(f, st, x, now).value, PlanIssue(f, st, y, later).value;
            Carry(Carry(st, plan, crash), again, NoCrash) == Carry(st, again, NoCrash)
  {
    hide Inv, PlanIssue, IdOf, PermitOk, AllocationsFit, Delegated, RecordOk;
    var plan, again := PlanIssue(f, st, x, now).value, PlanIssue(f, st, y, later).value;
    var dead := Carry(st, plan, crash);
    Wreck(f, st, x, now, crash);
    PlanFacts(f, st, x, now);
    PlanFacts(f, st, y, later);
    SameId(plan.permit, again.permit);
    if x.binding.parent.Some? { FiledUnderItsId(f.digest, st, x.binding.parent.value); }
    assert Carry(dead, again, NoCrash).records == Carry(st, again, NoCrash).records;
  }
}
