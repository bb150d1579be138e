/** What every operation on the permit store keeps, wherever it is interrupted. */
module PermitInvariant {
  import opened Common
  import opened PermitModel

  /** A record is filed under its own id and passes the checks made on every read. */
  ghost predicate Sound(digest: Digest, st: Store, id: PermitId)
    requires id in st.records
  {
    IdOf(st.records[id].permit) == id && PermitOk(digest, st.records[id].permit) && RecordOk(st.families, st.records[id])
  }

  ghost predicate Delegated(digest: Digest, child: Permit, parent: Permit) {
    EdgeOk(digest, child, parent, false) || EdgeOk(digest, child, parent, true)
  }

  /** A child's parent is there, has reserved its budget, and delegated no more than it had. */
  ghost predicate Linked(digest: Digest, st: Store, id: PermitId)
    requires id in st.records
  {
    id.parent.Some? ==>
      && id.parent.value in st.records
      && id in st.records[id.parent.value].allocations
      && Delegated(digest, st.records[id].permit, st.records[id.parent.value].permit)
  }

  /** Reservations are for children, at the budget in the child's id, and fit the ceiling. */
  ghost predicate Charged(st: Store, id: PermitId)
    requires id in st.records
  {
    var r := st.records[id];
    && (forall c :: c in r.allocations ==> c.parent == Some(id) && r.allocations[c] == c.body.budget)
    && (if r.permit.ceiling.None? then r.allocations == map[]
        else AllocationsFit(r.allocations, r.permit.ceiling.value.budget))
  }

  ghost predicate Inv(digest: Digest, st: Store) {
    forall id :: id in st.records ==> Sound(digest, st, id) && Linked(digest, st, id) && Charged(st, id)
  }

  lemma InvAt(digest: Digest, st: Store, id: PermitId)
    requires Inv(digest, st) && id in st.records
    ensures Sound(digest, st, id) && Linked(digest, st, id) && Charged(st, id)
  {
  }

  // ----- replacing a record -----

  /** Only state and receipts of one record change. */
  lemma ReplaceKeeps(digest: Digest, st: Store, id: PermitId, r: Record)
    requires Inv(digest, st) && id in st.records
    requires r.permit == st.records[id].permit && r.allocations == st.records[id].allocations
    requires RecordOk(st.families, r)
    ensures IdOf(r.permit) == id && Inv(digest, st.(records := st.records[id := r]))
  {
    hide RecordOk, PermitOk, IdOf, Delegated, AllocationsFit;
    var n := st.(records := st.records[id := r]);
    InvAt(digest, st, id);
    forall k | k in n.records ensures Sound(digest, n, k) && Linked(digest, n, k) && Charged(n, k) {
      InvAt(digest, st, k);
    }
  }

  // ----- issuing -----

  lemma {:induction false} EmptyAllocations(d: Dimension)
    ensures Allocated(map[], d) == 0
  {
  }

  /** A reservation only adds attempts, so every record stays as valid as it was. */
  lemma FamiliesGrow(families: map<PermitId, Family>, parent: PermitId, a: Attempt, permit: PermitId, r: Record)
    requires ReserveAttempt(families, parent, a, permit).Some? && RecordOk(families, r)
    ensures RecordOk(ReserveAttempt(families, parent, a, permit).value, r)
  {
    hide ReceiptsOk, SettlementOk, IdOf, ClosedLane;
  }

  lemma FamiliesKeep(digest: Digest, st: Store, families: map<PermitId, Family>)
    requires Inv(digest, st)
    requires forall id :: id in st.records ==> RecordOk(families, st.records[id])
    ensures Inv(digest, st.(families := families))
  {
    hide RecordOk, PermitOk, IdOf, Delegated, AllocationsFit;
    var n := st.(families := families);
    forall k | k in n.records ensures Sound(digest, n, k) && Linked(digest, n, k) && Charged(n, k) {
      InvAt(digest, st, k);
    }
  }

  /** An open record has no receipts, so its reservations may change freely. */
  lemma OpenRecordOk(families: map<PermitId, Family>, r: Record, allocations: map<PermitId, Budget>)
    requires RecordOk(families, r) && r.state.Issued?
    ensures RecordOk(families, r.(allocations := allocations))
  {
  }

  lemma ChargeParent(digest: Digest, st: Store, parent: PermitId, child: PermitId)
    requires Inv(digest, st) && parent in st.records && st.records[parent].state.Issued?
    requires child.parent == Some(parent) && st.records[parent].permit.ceiling.Some?
    requires AllocationsFit(st.records[parent].allocations[child := child.body.budget],
                            st.records[parent].permit.ceiling.value.budget)
    ensures var r := st.records[parent].(allocations := st.records[parent].allocations[child := child.body.budget]);
            Inv(digest, st.(records := st.records[parent := r]))
  {
    hide RecordOk, PermitOk, IdOf, Delegated, AllocationsFit;
    var r := st.records[parent].(allocations := st.records[parent].allocations[child := child.body.budget]);
    var n := st.(records := st.records[parent := r]);
    InvAt(digest, st, parent);
    OpenRecordOk(st.families, st.records[parent], r.allocations);
    forall k | k in n.records ensures Sound(digest, n, k) && Linked(digest, n, k) && Charged(n, k) {
      if k != parent { OthersStay(digest, st, n, parent, k); }
    }
  }

  /** The other records do not notice that one of them has reserved more. */
  lemma OthersStay(digest: Digest, st: Store, n: Store, id: PermitId, k: PermitId)
    requires Inv(digest, st) && id in st.records && id in n.records && k in st.records && k != id
    requires n == st.(records := st.records[id := n.records[id]])
    requires n.records[id].permit == st.records[id].permit
    requires st.records[id].allocations.Keys <= n.records[id].allocations.Keys
    ensures Sound(digest, n, k) && Linked(digest, n, k) && Charged(n, k)
  {
    hide RecordOk, PermitOk, IdOf, Delegated, AllocationsFit;
    InvAt(digest, st, k);
  }

  lemma AddChild(digest: Digest, st: Store, p: Permit)
    requires Inv(digest, st) && PermitOk(digest, p) && IdOf(p) !in st.records
    requires p.binding.parent.Some? ==>
      && p.binding.parent.value in st.records && IdOf(p) in st.records[p.binding.parent.value].allocations
      && Delegated(digest, p, st.records[p.binding.parent.value].permit)
    ensures Inv(digest, st.(records := st.records[IdOf(p) := Blank(p)]))
  {
    hide Inv, Sound, Linked, Charged, PermitOk, Delegated, IdOf;
    var n := st.(records := st.records[IdOf(p) := Blank(p)]);
    forall k | k in n.records ensures Sound(digest, n, k) && Linked(digest, n, k) && Charged(n, k) {
      if k == IdOf(p) { ChildIsSound(digest, n, p); } else { OthersStand(digest, st, p, k); }
    }
    assert Inv(digest, n) by { InvFrom(digest, n); }
  }

  lemma InvFrom(digest: Digest, st: Store)
    requires forall k :: k in st.records ==> Sound(digest, st, k) && Linked(digest, st, k) && Charged(st, k)
    ensures Inv(digest, st)
  {
  }

  lemma ChildIsSound(digest: Digest, n: Store, p: Permit)
    requires PermitOk(digest, p) && IdOf(p) in n.records && n.records[IdOf(p)] == Blank(p)
    requires p.binding.parent.Some? ==>
      && p.binding.parent.value in n.records && IdOf(p) in n.records[p.binding.parent.value].allocations
      && Delegated(digest, p, n.records[p.binding.parent.value].permit)
    ensures Sound(digest, n, IdOf(p)) && Linked(digest, n, IdOf(p)) && Charged(n, IdOf(p))
  {
    hide PermitOk, Delegated, Allocated;
    forall d: Dimension ensures Allocated(map[], d) == 0 { EmptyAllocations(d); }
  }

  lemma OthersStand(digest: Digest, st: Store, p: Permit, k: PermitId)
    requires Inv(digest, st) && IdOf(p) !in st.records && k in st.records
    ensures var n := st.(records := st.records[IdOf(p) := Blank(p)]);
            Sound(digest, n, k) && Linked(digest, n, k) && Charged(n, k)
  {
    hide PermitOk, Delegated, IdOf, RecordOk, AllocationsFit;
    InvAt(digest, st, k);
  }

  /** What a plan is worth: each of its writes, in order, keeps the store as it should be. */
  lemma PlanFacts(f: Format, st: Store, x: Draft, now: Time)
    requires Inv(f.digest, st) && PlanIssue(f, st, x, now).Some?
    ensures var plan := PlanIssue(f, st, x, now).value;
            && plan.permit.binding == x.binding && PermitOk(f.digest, plan.permit)
            && (IdOf(plan.permit) in st.records ==> st.records[IdOf(plan.permit)] == Blank(plan.permit))
            && (plan.parent.None? <==> x.binding.parent.None?)
            && (forall id :: id in st.records ==> RecordOk(plan.families, st.records[id]))
            && (plan.parent.Some? ==>
                  && x.binding.parent.value in st.records
                  && var q := st.records[x.binding.parent.value];
                  && q.state.Issued? && q.permit.ceiling.Some?
                  && plan.parent.value == q.(allocations := q.allocations[IdOf(plan.permit) := x.binding.budget])
                  && AllocationsFit(plan.parent.value.allocations, q.permit.ceiling.value.budget)
                  && Delegated(f.digest, plan.permit, q.permit))
  {
    hide PermitOk, BindingOk, CeilingOk, LeaseOk, AllocationsFit, IdOf, EdgeOk, RecordOk, ReserveAttempt;
    var plan := PlanIssue(f, st, x, now).value;
    if x.binding.parent.Some? {
      EdgeCeiling(f.digest, plan.permit, st.records[x.binding.parent.value].permit, x.attempt.Some?);
    }
    forall id | id in st.records ensures RecordOk(plan.families, st.records[id]) {
      InvAt(f.digest, st, id);
      if x.binding.parent.Some? && x.attempt.Some? {
        FamiliesGrow(st.families, x.binding.parent.value, x.attempt.value, IdOf(plan.permit), st.records[id]);
      }
    }
  }

  lemma IssueKeeps(f: Format, st: Store, x: Draft, now: Time, crash: Crash)
    requires Inv(f.digest, st) && PlanIssue(f, st, x, now).Some?
    ensures Inv(f.digest, Carry(st, PlanIssue(f, st, x, now).value, crash))
  {
    hide Inv, PlanIssue, PermitOk, AllocationsFit, Delegated, RecordOk;
    var plan := PlanIssue(f, st, x, now).value;
    PlanFacts(f, st, x, now);
    FamiliesKeep(f.digest, st, plan.families);
    var reserved := st.(families := plan.families);
    if crash != AfterFamily {
      var charged := reserved;
      if plan.parent.Some? {
        var parent := x.binding.parent.value;
        assert IdOf(plan.parent.value.permit) == parent by { FiledUnderItsId(f.digest, st, parent); }
        ChargeParent(f.digest, reserved, parent, IdOf(plan.permit));
        charged := reserved.(records := reserved.records[parent := plan.parent.value]);
        assert charged == Carry(st, plan, AfterParent);
      }
      if crash == NoCrash && IdOf(plan.permit) !in st.records {
        AddChild(f.digest, charged, plan.permit);
      }
    }
  }

  lemma FiledUnderItsId(digest: Digest, st: Store, id: PermitId)
    requires Inv(digest, st) && id in st.records
    ensures IdOf(st.records[id].permit) == id
  {
  }

  // ----- every step -----

  /** The record, if any, that a step other than an issue wants to write. */
  function Proposed(f: Format, st: Store, op: Op): Option<Record> {
    match op
    case DoIssue(_, _, _) => None
    case DoConsume(id, dispatch, now, _) => ConsumePlain(f, st, id, dispatch, now)
    case DoConsumeRecorded(id, dispatch, now, fin) => ConsumeRecorded(f, st, id, dispatch, now, fin)
    case DoConsumeChat(id, a, admitted, now, fin) => ConsumeChat(f, st, id, a, admitted, now, fin)
    case DoRevoke(id, reason, now, _) => RevokeRecord(f, st, id, reason, now)
    case DoReport(id, evidence, reported, now) =>
      var c := ReportOutcome(f, st, id, evidence, reported, now); if c.Write? then Some(c.record) else None
    case DoSettle(id, evidence, x, y) =>
      var c := SettleChat(f, st, id, evidence, x, y); if c.Write? then Some(c.record) else None
  }

  function TargetOf(op: Op): Option<PermitId> {
    match op
    case DoIssue(_, _, _) => None
    case DoConsume(id, _, _, _) => Some(id)
    case DoConsumeRecorded(id, _, _, _) => Some(id)
    case DoConsumeChat(id, _, _, _, _) => Some(id)
    case DoRevoke(id, _, _, _) => Some(id)
    case DoReport(id, _, _, _) => Some(id)
    case DoSettle(id, _, _, _) => Some(id)
  }

  lemma ProposedKeepsPermit(f: Format, st: Store, op: Op)
    requires Proposed(f, st, op).Some?
    ensures TargetOf(op).Some? && TargetOf(op).value in st.records
    ensures var r := Proposed(f, st, op).value;
            r.permit == st.records[TargetOf(op).value].permit && r.allocations == st.records[TargetOf(op).value].allocations
  {
    hide DispatchOk, ParentAllows, BindingOk, ReportedOk;
  }

  /** A step other than an issue writes what it proposes or nothing. */
  lemma StepIsReplace(f: Format, st: Store, op: Op)
    requires !op.DoIssue?
    ensures var n := StepReply(f, st, op).0;
            || n == st
            || (Proposed(f, st, op).Some? && RecordOk(st.families, Proposed(f, st, op).value)
                && n == st.(records := st.records[IdOf(Proposed(f, st, op).value.permit) := Proposed(f, st, op).value]))
  {
    hide ConsumePlain, ConsumeRecorded, ConsumeChat, RevokeRecord, ReportOutcome, SettleChat, RecordOk, IdOf;
  }

  lemma StepKeepsInv(f: Format, st: Store, op: Op)
    requires Inv(f.digest, st)
    ensures Inv(f.digest, StepReply(f, st, op).0)
  {
    hide Inv, PlanIssue, Carry, Proposed, TargetOf, RecordOk, IdOf;
    if op.DoIssue? {
      if PlanIssue(f, st, op.draft, op.now).Some? { IssueKeeps(f, st, op.draft, op.now, op.crash); }
    } else {
      StepIsReplace(f, st, op);
      if StepReply(f, st, op).0 != st {
        ProposedKeepsPermit(f, st, op);
        ReplaceKeeps(f.digest, st, TargetOf(op).value, Proposed(f, st, op).value);
      }
    }
  }

  lemma {:induction false} RunKeepsInv(f: Format, trace: seq<Store>, ops: seq<Op>, i: nat)
    requires IsRun(f, trace, ops) && i < |trace|
    ensures Inv(f.digest, trace[i])
  {
    hide StepReply;
    if i > 0 {
      RunKeepsInv(f, trace, ops, i - 1);
      StepKeepsInv(f, trace[i - 1], ops[i - 1]);
    }
  }

  // ----- reading back -----

  /** What is stored is consistent, so its length alone decides whether it is read. */
  lemma ReadIff(f: Format, st: Store, id: PermitId)
    requires Inv(f.digest, st) && id in st.records
    ensures Read(f, st, id) == if Legible(f, st.families, st.records[id]) then Some(st.records[id]) else None
  {
    hide RecordOk, PermitOk, IdOf, Delegated, AllocationsFit;
    InvAt(f.digest, st, id);
  }

  /** In every reachable store a record is read back, as it was written, exactly when it is short enough. */
  lemma ReadBackIff(f: Format, trace: seq<Store>, ops: seq<Op>, i: nat, id: PermitId)
    requires IsRun(f, trace, ops) && i < |trace| && id in trace[i].records
    ensures Read(f, trace[i], id)
         == if Legible(f, trace[i].families, trace[i].records[id]) then Some(trace[i].records[id]) else None
  {
    hide Inv, IsRun, Read, Legible;
    RunKeepsInv(f, trace, ops, i);
    ReadIff(f, trace[i], id);
  }
}
