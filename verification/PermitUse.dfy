/** Single use: what a permit's record may become, over any run with any interruption. */
module PermitUse {
  import opened Common
  import opened PermitModel
  import opened PermitInvariant

  /** A record is never dropped or rebound; once it left `Issued` only a missing outcome or settlement may be added. */
  ghost predicate Later(r: Record, n: Record) {
    && n.permit == r.permit
    && (!r.state.Issued? ==>
          n.state == r.state && n.allocations == r.allocations && n.preflight == r.preflight && n.retained == r.retained)
    && (r.outcome.Some? ==> n.outcome == r.outcome)
    && (r.settlement.Some? ==> n.settlement == r.settlement)
  }

  ghost predicate Extends(st: Store, n: Store) {
    forall id :: id in st.records ==> id in n.records && Later(st.records[id], n.records[id])
  }

  lemma ProposedIsLater(f: Format, st: Store, op: Op)
    requires Proposed(f, st, op).Some?
    ensures TargetOf(op).Some? && TargetOf(op).value in st.records
    ensures Later(st.records[TargetOf(op).value], Proposed(f, st, op).value)
  {
    hide ParentAllows, BindingOk, ReportedOk;
  }

  lemma IssueExtends(f: Format, st: Store, x: Draft, now: Time, crash: Crash)
    requires Inv(f.digest, st) && PlanIssue(f, st, x, now).Some?
    ensures Extends(st, Carry(st, PlanIssue(f, st, x, now).value, crash))
  {
    hide Inv, PlanIssue, PermitOk, AllocationsFit, Delegated, RecordOk, IdOf;
    PlanFacts(f, st, x, now);
    if x.binding.parent.Some? { FiledUnderItsId(f.digest, st, x.binding.parent.value); }
  }

  lemma StepExtends(f: Format, st: Store, op: Op)
    requires Inv(f.digest, st)
    ensures Extends(st, StepReply(f, st, op).0)
  {
    hide Inv, PlanIssue, Carry, Proposed, TargetOf, RecordOk, IdOf;
    if op.DoIssue? {
      if PlanIssue(f, st, op.draft, op.now).Some? { IssueExtends(f, st, op.draft, op.now, op.crash); }
    } else {
      StepIsReplace(f, st, op);
      if StepReply(f, st, op).0 != st {
        ProposedIsLater(f, st, op);
        ProposedKeepsPermit(f, st, op);
        FiledUnderItsId(f.digest, st, TargetOf(op).value);
      }
    }
  }

  lemma {:induction false} RunExtends(f: Format, trace: seq<Store>, ops: seq<Op>, i: nat, j: nat)
    requires IsRun(f, trace, ops) && i <= j < |trace|
    ensures Extends(trace[i], trace[j])
    decreases j - i
  {
    hide StepReply, Inv;
    if i < j {
      RunExtends(f, trace, ops, i, j - 1);
      RunKeepsInv(f, trace, ops, j - 1);
      StepExtends(f, trace[j - 1], ops[j - 1]);
      forall id | id in trace[i].records ensures id in trace[j].records && Later(trace[i].records[id], trace[j].records[id]) {
        assert Later(trace[i].records[id], trace[j - 1].records[id]);
        assert Later(trace[j - 1].records[id], trace[j].records[id]);
      }
    }
  }

  // ----- consumption -----

  /** A consuming call on `id`, by whichever path. */
  predicate Consuming(op: Op, id: PermitId) {
    (op.DoConsume? || op.DoConsumeRecorded? || op.DoConsumeChat?) && TargetOf(op) == Some(id)
  }

  /** The call returned its evidence. */
  ghost predicate Consumes(f: Format, st: Store, op: Op, id: PermitId) {
    Consuming(op, id) && StepReply(f, st, op).1.Returned?
  }

  lemma ConsumeNeedsIssued(f: Format, st: Store, op: Op, id: PermitId)
    requires Consuming(op, id) && Proposed(f, st, op).Some?
    ensures id in st.records && st.records[id].state.Issued? && Proposed(f, st, op).value.state.Consumed?
    ensures id in st.records && st.records[id].permit.binding.parent.Some? ==>
              && st.records[id].permit.binding.parent.value in st.records
              && st.records[st.records[id].permit.binding.parent.value].state.Issued?
  {
    hide EdgeOk, BindingOk, RecordOk;
  }

  lemma ConsumeTakesEffect(f: Format, st: Store, op: Op, id: PermitId)
    requires Inv(f.digest, st) && Consumes(f, st, op, id)
    ensures id in st.records && st.records[id].state.Issued?
    ensures id in StepReply(f, st, op).0.records && StepReply(f, st, op).0.records[id].state.Consumed?
  {
    hide Inv, ConsumePlain, ConsumeRecorded, ConsumeChat, RecordOk, IdOf;
    assert Proposed(f, st, op).Some?;
    ConsumeNeedsIssued(f, st, op, id);
    ProposedKeepsPermit(f, st, op);
    FiledUnderItsId(f.digest, st, id);
  }

  /** At most one consuming call on a permit ever returns evidence. */
  lemma ConsumedOnce(f: Format, trace: seq<Store>, ops: seq<Op>, i: nat, j: nat, id: PermitId)
    requires IsRun(f, trace, ops) && i < |ops| && j < |ops|
    requires Consumes(f, trace[i], ops[i], id) && Consumes(f, trace[j], ops[j], id)
    ensures i == j
  {
    hide StepReply, Inv, Consumes;
    if i > j {
      ConsumedOnce(f, trace, ops, j, i, id);
    } else if i < j {
      RunKeepsInv(f, trace, ops, i);
      RunKeepsInv(f, trace, ops, j);
      ConsumeTakesEffect(f, trace[i], ops[i], id);
      ConsumeTakesEffect(f, trace[j], ops[j], id);
      RunExtends(f, trace, ops, i + 1, j);
    }
  }

  /**
   * A permit that left `Issued`, even in a call that was cut short after the
   * rename, stays as it is: it is not consumed, revoked or issued again.
   */
  lemma SpentForever(f: Format, trace: seq<Store>, ops: seq<Op>, i: nat, j: nat, id: PermitId, x: Draft, now: Time)
    requires IsRun(f, trace, ops) && i <= j < |trace|
    requires id in trace[i].records && !trace[i].records[id].state.Issued?
    ensures id in trace[j].records && trace[j].records[id].state == trace[i].records[id].state
    ensures PlanIssue(f, trace[j], x, now).Some? ==> IdOf(PlanIssue(f, trace[j], x, now).value.permit) != id
    ensures j < |ops| && Consuming(ops[j], id) ==> StepReply(f, trace[j], ops[j]).1 == Denied
    ensures j < |ops| && ops[j].DoRevoke? && ops[j].revoked == id ==> StepReply(f, trace[j], ops[j]).1 == Denied
  {
    hide Inv, PlanIssue, RecordOk, IdOf, DispatchOk, ParentAllows, BindingOk;
    RunExtends(f, trace, ops, i, j);
    RunKeepsInv(f, trace, ops, j);
    if PlanIssue(f, trace[j], x, now).Some? { PlanFacts(f, trace[j], x, now); }
    if j < |ops| && Consuming(ops[j], id) && Proposed(f, trace[j], ops[j]).Some? {
      ConsumeNeedsIssued(f, trace[j], ops[j], id);
    }
  }

  /** Once a control is no longer `Issued`, none of its children is ever consumed. */
  lemma NoChildOfASpentControl(f: Format, trace: seq<Store>, ops: seq<Op>, i: nat, j: nat, control: PermitId, child: PermitId)
    requires IsRun(f, trace, ops) && i <= j < |ops|
    requires control in trace[i].records && !trace[i].records[control].state.Issued?
    requires child.parent == Some(control) && Consuming(ops[j], child)
    ensures StepReply(f, trace[j], ops[j]) == (trace[j], Denied)
  {
    hide Inv, RecordOk, DispatchOk, ParentAllows, BindingOk;
    RunExtends(f, trace, ops, i, j);
    RunKeepsInv(f, trace, ops, j);
    if Proposed(f, trace[j], ops[j]).Some? {
      ConsumeNeedsIssued(f, trace[j], ops[j], child);
      FiledUnderItsId(f.digest, trace[j], child);
    }
  }

  // ----- outcomes and settlements -----

  /** The reply of a call that only reads its record back. */
  function ReadBack(f: Format, st: Store, id: PermitId): Reply
    requires id in st.records
  {
    if Legible(f, st.families, st.records[id]) then Returned(st.records[id]) else Denied
  }

  /**
   * A reported outcome stands; another report is refused. The same report again is
   * acknowledged exactly when the record with the outcome is short enough to read.
   */
  lemma OutcomeIsFinal(f: Format, trace: seq<Store>, ops: seq<Op>, i: nat, j: nat, id: PermitId, reported: Reported, now: Time)
    requires IsRun(f, trace, ops) && i <= j < |trace|
    requires id in trace[i].records && trace[i].records[id].outcome.Some?
    ensures id in trace[j].records && trace[j].records[id].outcome == trace[i].records[id].outcome
    ensures var o := trace[i].records[id].outcome.value;
            && (reported == o.reported && now >= o.preflight.recordedAt ==>
                  StepReply(f, trace[j], DoReport(id, o.preflight, reported, now)) == (trace[j], ReadBack(f, trace[j], id)))
            && (reported != o.reported ==>
                  forall e: Preflight :: StepReply(f, trace[j], DoReport(id, e, reported, now)) == (trace[j], Denied))
  {
    hide Inv, Read, Legible;
    RunExtends(f, trace, ops, i, j);
    RunKeepsInv(f, trace, ops, j);
    ReadIff(f, trace[j], id);
    OutcomeIsBound(f.digest, trace[j], id);
  }

  lemma OutcomeIsBound(digest: Digest, st: Store, id: PermitId)
    requires Inv(digest, st) && id in st.records && st.records[id].outcome.Some?
    ensures st.records[id].preflight == Some(st.records[id].outcome.value.preflight)
    ensures ReportedOk(st.records[id].outcome.value.reported)
  {
  }

  /**
   * A settlement stands; another is refused. The same settlement again is
   * acknowledged exactly when the settled record can be read.
   */
  lemma SettlementIsFinal(f: Format, trace: seq<Store>, ops: seq<Op>, i: nat, j: nat, id: PermitId, response: Document, observation: Document)
    requires IsRun(f, trace, ops) && i <= j < |trace|
    requires id in trace[i].records && trace[i].records[id].settlement.Some?
    ensures id in trace[j].records && trace[j].records[id].settlement == trace[i].records[id].settlement
    ensures var x := trace[i].records[id].settlement.value;
            if response == x.response && observation == x.observation
            then StepReply(f, trace[j], DoSettle(id, x.outcome.preflight, response, observation))
                 == (trace[j], ReadBack(f, trace[j], id))
            else forall e: Preflight :: StepReply(f, trace[j], DoSettle(id, e, response, observation)) == (trace[j], Denied)
  {
    hide Inv, RecordOk, Read, Legible;
    RunExtends(f, trace, ops, i, j);
    RunKeepsInv(f, trace, ops, j);
    ReadIff(f, trace[j], id);
    SettlementIsBound(f.digest, trace[j], id);
    OutcomeIsBound(f.digest, trace[j], id);
  }

  lemma SettlementIsBound(digest: Digest, st: Store, id: PermitId)
    requires Inv(digest, st) && id in st.records && st.records[id].settlement.Some?
    ensures st.records[id].outcome == Some(st.records[id].settlement.value.outcome)
  {
  }
}
