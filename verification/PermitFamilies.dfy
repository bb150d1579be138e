/** Normal-chat attempt families: at most so many attempts under a control, each for one permit. */
module PermitFamilies {
  import opened Common
  import opened PermitModel
  import opened PermitInvariant

  ghost predicate FamilyOk(f: Family) {
    |f.attempts| <= f.maxAttempts && forall n :: n in f.attempts ==> 0 < n <= f.maxAttempts
  }

  ghost predicate FamiliesOk(families: map<PermitId, Family>) {
    forall p :: p in families ==> FamilyOk(families[p])
  }

  /** A family keeps its terms and every attempt it has reserved. */
  ghost predicate FamiliesKept(before: map<PermitId, Family>, after: map<PermitId, Family>) {
    forall p :: p in before ==>
      && p in after && after[p].operation == before[p].operation && after[p].maxAttempts == before[p].maxAttempts
      && forall n :: n in before[p].attempts ==> n in after[p].attempts && after[p].attempts[n] == before[p].attempts[n]
  }

  lemma ReserveKeeps(families: map<PermitId, Family>, parent: PermitId, a: Attempt, permit: PermitId)
    requires FamiliesOk(families) && ReserveAttempt(families, parent, a, permit).Some?
    ensures FamiliesOk(ReserveAttempt(families, parent, a, permit).value)
    ensures FamiliesKept(families, ReserveAttempt(families, parent, a, permit).value)
  {
  }

  lemma PlanFamilies(f: Format, st: Store, x: Draft, now: Time)
    requires FamiliesOk(st.families) && PlanIssue(f, st, x, now).Some?
    ensures FamiliesOk(PlanIssue(f, st, x, now).value.families)
    ensures FamiliesKept(st.families, PlanIssue(f, st, x, now).value.families)
  {
    hide ReserveAttempt, FamiliesOk, FamiliesKept, PermitOk, BindingOk, CeilingOk, ParentOk, AllocationsFit, IdOf;
    FamiliesSelf(st.families);
    var plan := PlanIssue(f, st, x, now).value;
    if x.binding.parent.Some? && x.attempt.Some? {
      ReserveKeeps(st.families, x.binding.parent.value, x.attempt.value, IdOf(plan.permit));
    }
  }

  lemma FamiliesSelf(families: map<PermitId, Family>)
    ensures FamiliesKept(families, families)
  {
  }

  lemma StepKeepsFamilies(f: Format, st: Store, op: Op)
    requires FamiliesOk(st.families)
    ensures FamiliesOk(StepReply(f, st, op).0.families)
    ensures FamiliesKept(st.families, StepReply(f, st, op).0.families)
  {
    hide FamiliesOk, FamiliesKept, PlanIssue, Proposed, RecordOk, IdOf;
    FamiliesSelf(st.families);
    if op.DoIssue? {
      if PlanIssue(f, st, op.draft, op.now).Some? { PlanFamilies(f, st, op.draft, op.now); }
    } else {
      StepIsReplace(f, st, op);
    }
  }

  lemma {:induction false} RunKeepsFamilies(f: Format, trace: seq<Store>, ops: seq<Op>, i: nat)
    requires IsRun(f, trace, ops) && i < |trace|
    ensures FamiliesOk(trace[i].families)
  {
    hide StepReply;
    if i > 0 {
      RunKeepsFamilies(f, trace, ops, i - 1);
      StepKeepsFamilies(f, trace[i - 1], ops[i - 1]);
    }
  }

  /** The chat permits consumed under a control. */
  function ChatsUnder(st: Store, control: PermitId): set<PermitId> {
    set x | x in st.records && x.parent == Some(control) && st.records[x].retained.Some?
  }

  function ReservedFor(attempts: map<nat, Reservation>): set<PermitId> {
    set n | n in attempts :: attempts[n].permit
  }

  lemma {:induction false} ReservedCount(attempts: map<nat, Reservation>)
    ensures |ReservedFor(attempts)| <= |attempts|
    decreases attempts.Keys
  {
    if attempts.Keys != {} {
      var n :| n in attempts;
      var rest := attempts - {n};
      ReservedCount(rest);
      assert ReservedFor(attempts) == ReservedFor(rest) + {attempts[n].permit};
      assert rest.Keys == attempts.Keys - {n};
    }
  }

  lemma ChatIsReserved(digest: Digest, st: Store, control: PermitId, x: PermitId)
    requires Inv(digest, st) && x in ChatsUnder(st, control)
    ensures control in st.families
    ensures var n := st.records[x].retained.value.number;
            n in st.families[control].attempts && st.families[control].attempts[n].permit == x
  {
    hide PermitOk, ReceiptsOk, SettlementOk, AllocationsFit;
    InvAt(digest, st, x);
  }

  /**
   * In every reachable store the chat permits consumed under a control are no more
   * than the attempts its family allows, and no attempt number serves two permits.
   */
  lemma ChatAttemptsAreBounded(f: Format, trace: seq<Store>, ops: seq<Op>, i: nat, control: PermitId)
    requires IsRun(f, trace, ops) && i < |trace| && ChatsUnder(trace[i], control) != {}
    ensures control in trace[i].families && |ChatsUnder(trace[i], control)| <= trace[i].families[control].maxAttempts
    ensures forall x, y ::
              (x in ChatsUnder(trace[i], control) && y in ChatsUnder(trace[i], control)
               && trace[i].records[x].retained.value.number == trace[i].records[y].retained.value.number) ==> x == y
  {
    hide Inv, IsRun;
    var st := trace[i];
    RunKeepsInv(f, trace, ops, i);
    RunKeepsFamilies(f, trace, ops, i);
    forall x | x in ChatsUnder(st, control)
      ensures control in st.families
      ensures var n := st.records[x].retained.value.number;
              n in st.families[control].attempts && st.families[control].attempts[n].permit == x
    {
      ChatIsReserved(f.digest, st, control, x);
    }
    var attempts := st.families[control].attempts;
    assert ChatsUnder(st, control) <= ReservedFor(attempts);
    ReservedCount(attempts);
    assert ReservedFor(attempts) == ChatsUnder(st, control) + (ReservedFor(attempts) - ChatsUnder(st, control));
  }
}
