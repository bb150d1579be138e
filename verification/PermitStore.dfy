/** The permit store as an object whose record files are replaced one at a time. */
module PermitStore {
  import opened Common
  import opened PermitModel

  /** `DelegationCeilingV1::validate`: two passes over sorted lists. */
  method CheckCeiling(digest: Digest, c: Ceiling) returns (ok: bool)
    ensures ok == CeilingOk(digest, c)
  {
    hide Before, ActionOk;
    if c.policyVersion == "" || c.actions == [] || c.audiences == [] || c.notBefore >= c.expiresAt || !c.budget.Positive() {
      return false;
    }
    var i := 0;
    while i < |c.audiences|
      invariant i <= |c.audiences|
      invariant forall k :: 0 <= k < i ==> c.audiences[k] != "" && Plain(c.audiences[k])
      invariant forall k :: 0 < k < i ==> Before(c.audiences[k - 1], c.audiences[k])
    {
      assert c.audiences[i] in c.audiences;
      if c.audiences[i] == "" || !Plain(c.audiences[i]) { return false; }
      if i > 0 && !Before(c.audiences[i - 1], c.audiences[i]) { return false; }
      i := i + 1;
    }
    var j := 0;
    while j < |c.actions|
      invariant j <= |c.actions|
      invariant forall k :: 0 <= k < j ==> ActionOk(c.actions[k])
      invariant forall k :: 0 < k < j ==> digest(c.actions[k - 1]) < digest(c.actions[k])
    {
      if !ActionOk(c.actions[j]) { return false; }
      if j > 0 && digest(c.actions[j - 1]) >= digest(c.actions[j]) { return false; }
      j := j + 1;
    }
    return true;
  }

  /** `so` is what the allocations outside `left` add up to. */
  ghost predicate AddedUp(allocations: map<PermitId, Budget>, left: set<PermitId>, d: Dimension, so: nat)
    requires left <= allocations.Keys
  {
    so + SumOn(allocations, left, Amount(d)) == Allocated(allocations, d)
  }

  lemma AddOne(allocations: map<PermitId, Budget>, left: set<PermitId>, d: Dimension, so: nat, id: PermitId)
    requires left <= allocations.Keys && id in left && AddedUp(allocations, left, d, so)
    ensures AddedUp(allocations, left - {id}, d, so + allocations[id].At(d))
    ensures so + allocations[id].At(d) <= Allocated(allocations, d)
  {
    SumOnRemove(allocations, left, Amount(d), id);
  }

  /** The checked fold over the allocation map: a total, or none if some dimension overflows. */
  method CheckedTotal(allocations: map<PermitId, Budget>) returns (total: Option<Budget>)
    ensures total.Some? ==> forall d: Dimension :: total.value.At(d) == Allocated(allocations, d)
    ensures total.None? ==> exists d: Dimension :: Allocated(allocations, d) > U64_MAX
  {
    hide Allocated, SumOn;
    var sum := Budget(0, 0, 0);
    var left := allocations.Keys;
    assert forall d: Dimension :: AddedUp(allocations, left, d, sum.At(d)) by { NothingYet(allocations); }
    while left != {}
      invariant left <= allocations.Keys
      invariant forall d: Dimension :: AddedUp(allocations, left, d, sum.At(d))
      decreases left
    {
      var id :| id in left;
      var b := allocations[id];
      assert sum.At(WallTime) == sum.wallTimeMs && sum.At(Output) == sum.outputBytes && sum.At(Artifact) == sum.artifactBytes;
      forall d: Dimension
        ensures AddedUp(allocations, left - {id}, d, sum.At(d) + b.At(d))
        ensures sum.At(d) + b.At(d) <= Allocated(allocations, d)
      {
        AddOne(allocations, left, d, sum.At(d), id);
      }
      if sum.wallTimeMs + b.wallTimeMs > U64_MAX { assert Allocated(allocations, WallTime) > U64_MAX; return None; }
      if sum.outputBytes + b.outputBytes > U64_MAX { assert Allocated(allocations, Output) > U64_MAX; return None; }
      if sum.artifactBytes + b.artifactBytes > U64_MAX { assert Allocated(allocations, Artifact) > U64_MAX; return None; }
      ghost var was := sum;
      sum := Budget(sum.wallTimeMs + b.wallTimeMs, sum.outputBytes + b.outputBytes, sum.artifactBytes + b.artifactBytes);
      assert forall d: Dimension :: sum.At(d) == was.At(d) + b.At(d);
      left := left - {id};
    }
    forall d: Dimension ensures sum.At(d) == Allocated(allocations, d) { AllAdded(allocations, d, sum.At(d)); }
    return Some(sum);
  }

  lemma NothingYet(allocations: map<PermitId, Budget>)
    ensures forall d: Dimension :: AddedUp(allocations, allocations.Keys, d, 0)
  {
  }

  lemma AllAdded(allocations: map<PermitId, Budget>, d: Dimension, so: nat)
    requires AddedUp(allocations, {}, d, so)
    ensures so == Allocated(allocations, d)
  {
  }

  method Fits(allocations: map<PermitId, Budget>, ceiling: Budget) returns (fits: bool)
    ensures fits == AllocationsFit(allocations, ceiling)
  {
    hide Allocated;
    var total := CheckedTotal(allocations);
    if total.None? { return false; }
    var t := total.value;
    fits := t.Within(ceiling);
    assert t.At(WallTime) == t.wallTimeMs && t.At(Output) == t.outputBytes && t.At(Artifact) == t.artifactBytes;
    assert ceiling.At(WallTime) == ceiling.wallTimeMs && ceiling.At(Output) == ceiling.outputBytes
        && ceiling.At(Artifact) == ceiling.artifactBytes;
    if fits {
      forall d: Dimension ensures Allocated(allocations, d) <= ceiling.At(d) {
        match d
        case WallTime =>
        case Output =>
        case Artifact =>
      }
    }
  }

  class DurableStore {
    const format: Format
    var records: map<PermitId, Record>
    var families: map<PermitId, Family>

    function Snapshot(): Store
      reads this
    {
      Store(records, families)
    }

    constructor (f: Format)
      ensures format == f && Snapshot() == EMPTY
    {
      format, records, families := f, map[], map[];
    }

    /** `read_record`: too long, filed under another id or inconsistent is as good as not there. */
    method ReadRecord(id: PermitId) returns (record: Option<Record>)
      ensures record == Read(format, Snapshot(), id)
    {
      hide RecordOk, IdOf;
      if id !in records { return None; }
      var r := records[id];
      if format.record(r) > MAX_RECORD_BYTES { return None; }
      if IdOf(r.permit) != id { return None; }
      if !Checked(format, families, r) { return None; }
      return Some(r);
    }

    /** `validate_normal_chat_permit_directory`. */
    method ScanDirectory() returns (ok: bool)
      ensures ok == Scanned(format, Snapshot())
    {
      hide Read;
      var left := records.Keys;
      while left != {}
        invariant left <= records.Keys
        invariant forall id :: id in records && id !in left ==> Read(format, Snapshot(), id).Some?
        decreases left
      {
        var id :| id in left;
        var record := ReadRecord(id);
        if record.None? { return false; }
        left := left - {id};
      }
      return true;
    }

    /** `replace_record`: check, write aside, sync, rename, sync the directory. */
    method ReplaceRecord(record: Record, stage: Option<Stage>) returns (reply: Reply)
      modifies `records
      ensures (Snapshot(), reply) == Replace(format, old(Snapshot()), Some(record), stage)
    {
      hide RecordOk, IdOf;
      if !Checked(format, families, record) { return Denied; }
      if stage == Some(TempWrite) || stage == Some(TempFsync) { return Died; }
      records := records[IdOf(record.permit) := record];
      if stage == Some(Rename) || stage == Some(DirectoryFsync) { return Died; }
      return Returned(record);
    }

    method ReserveFamily(parent: PermitId, a: Attempt, permit: PermitId) returns (ok: bool)
      modifies `families
      ensures var reserved := Reserved(format, old(Snapshot()), parent, a, permit);
              ok == reserved.Some? && families == if ok then reserved.value else old(families)
    {
      hide Scanned;
      var scanned := ScanDirectory();
      if !scanned { return false; }
      if a.number == 0 || a.number > a.maxAttempts { return false; }
      if !FamiliesLegible(format, families) { return false; }
      var f := if parent in families then families[parent] else Family(a.operation, a.maxAttempts, map[]);
      if f.operation != a.operation || f.maxAttempts != a.maxAttempts { return false; }
      if a.number in f.attempts { return f.attempts[a.number] == Reservation(a.attemptId, permit); }
      if |f.attempts| >= f.maxAttempts { return false; }
      families := families[parent := f.(attempts := f.attempts[a.number := Reservation(a.attemptId, permit)])];
      return true;
    }

    /** Reserve the child's budget in its parent; the parent's record is what the journal is. */
    method ChargeParent(permit: Permit, attempt: Option<Attempt>, now: Time, crash: Crash) returns (reply: Reply, ghost plan: Option<Plan>)
      requires permit.binding.parent.Some? && Read(format, Snapshot(), permit.binding.parent.value).Some?
      modifies this
      ensures plan == PlanChild(format, old(Snapshot()), permit, attempt, now)
      ensures plan.None? ==> Snapshot() == old(Snapshot()) && reply == Denied
      ensures plan.Some? ==>
        && Snapshot() == Carry(old(Snapshot()), plan.value, if crash == AfterFamily then AfterFamily else AfterParent)
        && reply == if crash == NoCrash then Returned(Blank(permit)) else Died
    {
      hide AllocationsFit, Reserved, EdgeOk, IdOf, Checked;
      ghost var st := Snapshot();
      plan := PlanChild(format, st, permit, attempt, now);
      var found := ReadRecord(permit.binding.parent.value);
      var parent := found.value;
      if !ParentOk(format.digest, permit, parent, now, attempt.Some?) { return Denied, plan; }
      assert parent.permit.ceiling.Some? by { EdgeCeiling(format.digest, permit, parent.permit, attempt.Some?); }
      var id := IdOf(permit);
      if id in parent.allocations && parent.allocations[id] != permit.binding.budget { return Denied, plan; }
      parent := parent.(allocations := parent.allocations[id := permit.binding.budget]);
      var fits := Fits(parent.allocations, parent.permit.ceiling.value.budget);
      if !fits { return Denied, plan; }
      if attempt.Some? {
        var reserved := ReserveFamily(permit.binding.parent.value, attempt.value, id);
        if !reserved { return Denied, plan; }
      }
      if crash == AfterFamily { return Died, plan; }
      records := records[IdOf(parent.permit) := parent];
      return if crash == NoCrash then Returned(Blank(permit)) else Died, plan;
    }

    /** `issue_authority`, dying after the family or the parent write if told to. */
    method Issue(x: Draft, now: Time, crash: Crash) returns (reply: Reply)
      modifies this
      ensures (Snapshot(), reply) == StepReply(format, old(Snapshot()), DoIssue(x, now, crash))
    {
      hide BindingOk, CeilingOk, PermitOk, DelegationFrom, IdOf, PlanChild, LeaseOk, Checked;
      ghost var st := Snapshot();
      if !BindingOk(x.binding) { return Denied; }
      if x.ceiling.Some? {
        var ok := CheckCeiling(format.digest, x.ceiling.value);
        if !ok { return Denied; }
      }
      if !LeaseOk(x.binding, now) { return Denied; }
      var delegation := DelegationFor(format, Snapshot(), x.binding);
      if delegation.None? { return Denied; }
      var permit := Permit(x.binding, x.purpose, x.ceiling, delegation.value, x.executables);
      if !PermitOk(format.digest, permit) { return Denied; }
      var id := IdOf(permit);
      var existing := id in records;
      if existing {
        var found := ReadRecord(id);
        if found != Some(Blank(permit)) { return Denied; }
      }
      if x.binding.parent.Some? {
        var charged;
        ghost var plan;
        charged, plan := ChargeParent(permit, x.attempt, now, crash);
        PlannedPermit(format, st, permit, x.attempt, now);
        if !charged.Returned? { return charged; }
      } else if crash != NoCrash {
        return Died;
      }
      if !existing { records := records[id := Blank(permit)]; }
      return Returned(Blank(permit));
    }

    method Consume(id: PermitId, dispatch: Binding, now: Time, stage: Option<Stage>) returns (reply: Reply)
      modifies this
      ensures (Snapshot(), reply) == StepReply(format, old(Snapshot()), DoConsume(id, dispatch, now, stage))
    {
      hide BindingOk, DispatchOk, ParentAllows, Checked, IdOf, Read;
      if !BindingOk(dispatch) { return Denied; }
      var found := ReadRecord(id);
      if found.None? { return Denied; }
      var r := found.value;
      if r.permit.binding.tool == NORMAL_CHAT_LANE { return Denied; }
      if !DispatchOk(r, dispatch, now) { return Denied; }
      if !ParentAllows(format, Snapshot(), r.permit, now, false) { return Denied; }
      reply := ReplaceRecord(r.(state := Consumed(now)), stage);
    }

    method ConsumeWithPreflight(id: PermitId, dispatch: Binding, now: Time, finalNow: Time) returns (reply: Reply)
      modifies this
      ensures (Snapshot(), reply) == StepReply(format, old(Snapshot()), DoConsumeRecorded(id, dispatch, now, finalNow))
    {
      hide BindingOk, DispatchOk, ParentAllows, Checked, IdOf, Read;
      if !BindingOk(dispatch) { return Denied; }
      var found := ReadRecord(id);
      if found.None? { return Denied; }
      var r := found.value;
      if r.permit.binding.tool == NORMAL_CHAT_LANE { return Denied; }
      if !DispatchOk(r, dispatch, now) || !ParentAllows(format, Snapshot(), r.permit, now, false) { return Denied; }
      if finalNow < now { return Denied; }
      if !DispatchOk(r, dispatch, finalNow) || !ParentAllows(format, Snapshot(), r.permit, finalNow, false) { return Denied; }
      r := r.(state := Consumed(finalNow));
      r := r.(preflight := Some(Preflight(r.permit, r.allocations, finalNow)));
      reply := ReplaceRecord(r, None);
    }

    method ConsumeNormalChat(id: PermitId, a: Attempt, admitted: bool, now: Time, finalNow: Time) returns (reply: Reply)
      modifies this
      ensures (Snapshot(), reply) == StepReply(format, old(Snapshot()), DoConsumeChat(id, a, admitted, now, finalNow))
    {
      hide DispatchOk, ParentAllows, Checked, IdOf, Read;
      var found := ReadRecord(id);
      if found.None? { return Denied; }
      var r := found.value;
      if !DispatchOk(r, r.permit.binding, now) || !admitted || r.permit.purpose != Effect { return Denied; }
      if finalNow < now || finalNow >= a.expiresAt { return Denied; }
      if !DispatchOk(r, r.permit.binding, finalNow) { return Denied; }
      if !ParentAllows(format, Snapshot(), r.permit, finalNow, true) { return Denied; }
      r := r.(state := Consumed(finalNow));
      r := r.(preflight := Some(Preflight(r.permit, r.allocations, finalNow)));
      r := r.(retained := Some(a));
      reply := ReplaceRecord(r, None);
    }

    method Revoke(id: PermitId, reason: RevocationReason, now: Time, stage: Option<Stage>) returns (reply: Reply)
      modifies this
      ensures (Snapshot(), reply) == StepReply(format, old(Snapshot()), DoRevoke(id, reason, now, stage))
    {
      hide Checked, IdOf, Read;
      var found := ReadRecord(id);
      if found.None? { return Denied; }
      var r := found.value;
      if now < r.permit.binding.issuedAt { return Denied; }
      match r.state {
        case Issued =>
        case Consumed(_) => return Denied;
        case Revoked(_, _) => return Denied;
      }
      reply := ReplaceRecord(r.(state := Revoked(now, reason)), stage);
    }

    method RecordOutcome(id: PermitId, preflight: Preflight, reported: Reported, now: Time) returns (reply: Reply)
      modifies this
      ensures (Snapshot(), reply) == StepReply(format, old(Snapshot()), DoReport(id, preflight, reported, now))
    {
      hide Checked, ReportedOk, IdOf, Read;
      if !ReportedOk(reported) { return Denied; }
      var found := ReadRecord(id);
      if found.None? { return Denied; }
      var r := found.value;
      if r.preflight.None? || r.preflight.value != preflight || now < preflight.recordedAt { return Denied; }
      if r.outcome.Some? { return if r.outcome.value.reported == reported then Returned(r) else Denied; }
      reply := ReplaceRecord(r.(outcome := Some(Outcome(preflight, reported, now))), None);
    }

    method SettleNormalChat(id: PermitId, preflight: Preflight, response: Document, observation: Document) returns (reply: Reply)
      modifies this
      ensures (Snapshot(), reply) == StepReply(format, old(Snapshot()), DoSettle(id, preflight, response, observation))
    {
      hide Checked, IdOf, Read;
      var found := ReadRecord(id);
      if found.None? { return Denied; }
      var r := found.value;
      if r.preflight.None? || r.preflight.value != preflight || r.outcome.None? { return Denied; }
      var proposed := Settlement(r.outcome.value, response, observation);
      if r.settlement.Some? { return if r.settlement.value == proposed then Returned(r) else Denied; }
      reply := ReplaceRecord(r.(settlement := Some(proposed)), None);
    }
  }
}
