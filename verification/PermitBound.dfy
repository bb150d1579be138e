/** The read bound on record files is reached: writes that were acknowledged and can never be read back. */
module PermitBound {
  import opened Common
  import opened PermitModel
  import opened PermitInvariant
  import opened PermitUse
  import opened PermitRetry

  const SCOPE := EffectScope("effect", [], [], false)
  const ONE := Budget(1, 1, 1)

  function Letters(n: nat): string {
    seq(n, i => 'a')
  }

  function Plainly(budget: Budget, parent: Option<PermitId>, step: string): Binding {
    Binding("actor", "", SCOPE, budget, "v", parent, if parent.None? then None else Some("run"), 0, 0, 1, "run", step, "tool", "")
  }

  function Titles(n: nat): seq<string> {
    seq(n, i requires 0 <= i < n => Letters(i + 1))
  }

  /** A root control whose ceiling lists these audiences. */
  function Root(audiences: seq<string>, budget: Budget): Draft {
    Draft(Plainly(budget, None, ""), Control,
      Some(Ceiling("actor", "v", "run", ControlToEffect, audiences, [Action("tool", "", "", SCOPE, [])], budget, 0, 1)), [], None)
  }

  function PermitOf(x: Draft): Permit {
    Permit(x.binding, x.purpose, x.ceiling, None, x.executables)
  }

  // ----- a ceiling too long to read -----

  lemma {:induction false} ShorterIsBefore(m: nat, n: nat)
    requires m < n
    ensures Before(Letters(m), Letters(n))
  {
    if 0 < m {
      assert Letters(m)[1..] == Letters(m - 1) && Letters(n)[1..] == Letters(n - 1);
      ShorterIsBefore(m - 1, n - 1);
    }
  }

  lemma TitlesAreOk(n: nat)
    requires 0 < n
    ensures AudiencesOk(Titles(n))
  {
    var titles := Titles(n);
    forall i | 0 < i < n ensures Before(titles[i - 1], titles[i]) { ShorterIsBefore(i, i + 1); }
  }

  lemma RootIsPlanned(f: Format, audiences: seq<string>, budget: Budget)
    requires AudiencesOk(audiences) && budget.Positive()
    ensures PlanIssue(f, EMPTY, Root(audiences, budget), 0) == Some(Plan(PermitOf(Root(audiences, budget)), map[], None))
  {
    hide AudiencesOk;
  }

  /** A record takes at least one byte for each audience of its ceiling. */
  ghost predicate AudiencesWeigh(f: Format) {
    forall r: Record :: r.permit.ceiling.Some? ==> |r.permit.ceiling.value.audiences| <= f.record(r)
  }

  /** Recorded, but out of reach of every call that would read it. */
  ghost predicate Lost(f: Format, st: Store, id: PermitId, issue: Op) {
    && id in st.records && Read(f, st, id).None? && StepReply(f, st, issue) == (st, Denied)
    && (forall op: Op :: TargetOf(op) == Some(id) ==> StepReply(f, st, op) == (st, Denied))
    && (forall x: Draft, now: Time :: x.binding.parent == Some(id) ==> PlanIssue(f, st, x, now).None?)
  }

  lemma UnreadIsLost(f: Format, st: Store, id: PermitId, op: Op)
    requires Read(f, st, id).None? && TargetOf(op) == Some(id)
    ensures StepReply(f, st, op) == (st, Denied)
  {
    hide Read, ParentAllows;
  }

  lemma NoChildOfAnUnread(f: Format, st: Store, id: PermitId, x: Draft, now: Time)
    requires Read(f, st, id).None? && x.binding.parent == Some(id)
    ensures PlanIssue(f, st, x, now).None?
  {
    hide Read, PlanChild, BindingOk, CeilingOk, LeaseOk;
  }

  /**
   * If each audience takes a byte, some issue is acknowledged and from then on, in
   * every run, its permit can be neither read, revoked, delegated nor issued again.
   */
  lemma IssueCanOutgrow(f: Format) returns (issue: Op, id: PermitId)
    requires AudiencesWeigh(f)
    ensures issue.DoIssue? && StepReply(f, EMPTY, issue).1.Returned?
    ensures forall trace: seq<Store>, ops: seq<Op>, j: nat ::
              (IsRun(f, trace, ops) && 0 < j < |trace| && ops[0] == issue) ==> Lost(f, trace[j], id, issue)
  {
    hide Lost, AudiencesWeigh;
    var x := Root(Titles(MAX_RECORD_BYTES + 1), ONE);
    TitlesAreOk(MAX_RECORD_BYTES + 1);
    RootIsPlanned(f, Titles(MAX_RECORD_BYTES + 1), ONE);
    issue, id := DoIssue(x, 0, NoCrash), IdOf(PermitOf(x));
    forall trace: seq<Store>, ops: seq<Op>, j: nat | IsRun(f, trace, ops) && 0 < j < |trace| && ops[0] == issue
      ensures Lost(f, trace[j], id, issue)
    {
      StaysLost(f, trace, ops, j, x);
    }
  }

  lemma StaysLost(f: Format, trace: seq<Store>, ops: seq<Op>, j: nat, x: Draft)
    requires AudiencesWeigh(f) && IsRun(f, trace, ops) && 0 < j < |trace| && ops[0] == DoIssue(x, 0, NoCrash)
    requires x.binding.parent.None? && x.ceiling.Some? && |x.ceiling.value.audiences| > MAX_RECORD_BYTES
    requires PlanIssue(f, EMPTY, x, 0) == Some(Plan(PermitOf(x), map[], None))
    ensures Lost(f, trace[j], IdOf(PermitOf(x)), ops[0])
  {
    hide IdOf, PlanIssue, Inv, AudiencesWeigh;
    var id := IdOf(PermitOf(x));
    assert trace[1].records == map[id := Blank(PermitOf(x))];
    RunExtends(f, trace, ops, 1, j);
    assert id in trace[j].records && trace[j].records[id].permit == PermitOf(x);
    TooHeavy(f, trace[j], id);
    forall op: Op | TargetOf(op) == Some(id) ensures StepReply(f, trace[j], op) == (trace[j], Denied) {
      UnreadIsLost(f, trace[j], id, op);
    }
    forall y: Draft, now: Time | y.binding.parent == Some(id) ensures PlanIssue(f, trace[j], y, now).None? {
      NoChildOfAnUnread(f, trace[j], id, y, now);
    }
    UnreadBlocksIssue(f, trace[j], x);
  }

  lemma TooHeavy(f: Format, st: Store, id: PermitId)
    requires AudiencesWeigh(f) && id in st.records && st.records[id].permit.ceiling.Some?
    requires |st.records[id].permit.ceiling.value.audiences| > MAX_RECORD_BYTES
    ensures Read(f, st, id).None?
  {
    hide Checked, IdOf;
  }

  lemma UnreadBlocksIssue(f: Format, st: Store, x: Draft)
    requires x.binding.parent.None? && IdOf(PermitOf(x)) in st.records && Read(f, st, IdOf(PermitOf(x))).None?
    ensures PlanIssue(f, st, x, 0).None?
  {
    hide Read, IdOf, PermitOk, BindingOk, CeilingOk, LeaseOk;
  }

  // ----- runs -----

  ghost predicate Reachable(f: Format, st: Store) {
    exists trace: seq<Store>, ops: seq<Op> :: IsRun(f, trace, ops) && trace[|trace| - 1] == st
  }

  lemma ReachStart(f: Format)
    ensures Reachable(f, EMPTY)
  {
    var trace, ops := [EMPTY], [];
    assert IsRun(f, trace, ops) && trace[|trace| - 1] == EMPTY;
  }

  lemma ReachStep(f: Format, st: Store, op: Op)
    requires Reachable(f, st)
    ensures Reachable(f, StepReply(f, st, op).0)
  {
    hide StepReply;
    var trace, ops :| IsRun(f, trace, ops) && trace[|trace| - 1] == st;
    var more, longer := trace + [StepReply(f, st, op).0], ops + [op];
    assert forall i :: 0 <= i < |longer| ==> more[i + 1] == StepReply(f, more[i], longer[i]).0;
    assert IsRun(f, more, longer) && more[|more| - 1] == StepReply(f, st, op).0;
  }

  lemma ReachableInv(f: Format, st: Store)
    requires Reachable(f, st)
    ensures Inv(f.digest, st)
  {
    hide Inv;
    var trace, ops :| IsRun(f, trace, ops) && trace[|trace| - 1] == st;
    RunKeepsInv(f, trace, ops, |trace| - 1);
  }

  // ----- a parent that outgrows the bound -----

  const MANY := Budget(2 * MAX_RECORD_BYTES, 2 * MAX_RECORD_BYTES, 2 * MAX_RECORD_BYTES)
  const PARENT := Root(["tool"], MANY)

  function ParentId(): PermitId {
    IdOf(PermitOf(PARENT))
  }

  /** The `k`th effect under the parent; their steps tell them apart. */
  function Child(k: nat): Draft {
    Draft(Plainly(ONE, Some(ParentId()), Letters(k)), Effect, None, [], None)
  }

  function ChildPermit(k: nat): Permit {
    var x := Child(k);
    Permit(x.binding, Effect, None, Some(Delegation("actor", "actor", "tool", 1)), [])
  }

  function Shares(k: nat): map<PermitId, Budget> {
    if k == 0 then map[] else Shares(k - 1)[IdOf(ChildPermit(k - 1)) := ONE]
  }

  function ParentWith(k: nat): Record {
    Blank(PermitOf(PARENT)).(allocations := Shares(k))
  }

  function Grown(k: nat): Store {
    if k == 0 then Store(map[ParentId() := ParentWith(0)], map[])
    else Store(Grown(k - 1).records[ParentId() := ParentWith(k)][IdOf(ChildPermit(k - 1)) := Blank(ChildPermit(k - 1))], map[])
  }

  lemma {:induction false} SharesAre(k: nat, id: PermitId)
    requires id in Shares(k)
    ensures |id.body.step| < k && id.parent.Some? && Shares(k)[id] == ONE
  {
    if id in Shares(k - 1) { SharesAre(k - 1, id); }
  }

  lemma NextIsNew(k: nat)
    ensures IdOf(ChildPermit(k)) !in Shares(k) && IdOf(ChildPermit(k)) != ParentId()
  {
    if IdOf(ChildPermit(k)) in Shares(k) { SharesAre(k, IdOf(ChildPermit(k))); }
  }

  lemma {:induction false} SharesCount(k: nat, d: Dimension)
    ensures |Shares(k)| == k && Allocated(Shares(k), d) == k
  {
    if k == 0 {
      EmptyAllocations(d);
    } else {
      SharesCount(k - 1, d);
      NextIsNew(k - 1);
      SumPut(Shares(k - 1), Amount(d), IdOf(ChildPermit(k - 1)), ONE);
    }
  }

  lemma {:induction false} GrownHas(k: nat)
    ensures Grown(k).families == map[] && Grown(k).records.Keys == Shares(k).Keys + {ParentId()}
    ensures ParentId() in Grown(k).records && Grown(k).records[ParentId()] == ParentWith(k)
  {
    if 0 < k {
      GrownHas(k - 1);
      NextIsNew(k - 1);
    }
  }

  lemma ParentReads(f: Format, k: nat)
    requires f.record(ParentWith(k)) <= MAX_RECORD_BYTES
    ensures Read(f, Grown(k), ParentId()) == Some(ParentWith(k))
  {
    hide IdOf, Grown, Shares;
    GrownHas(k);
  }

  lemma ChildIsOk(digest: Digest, k: nat)
    ensures BindingOk(Child(k).binding) && LeaseOk(Child(k).binding, 0) && PermitOk(digest, ChildPermit(k))
    ensures DelegationFrom(PermitOf(PARENT), Child(k).binding) == Some(Delegation("actor", "actor", "tool", 1))
  {
    hide IdOf, Letters;
  }

  lemma ChildFits(digest: Digest, k: nat)
    ensures ParentOk(digest, ChildPermit(k), ParentWith(k), 0, false)
  {
    hide IdOf, Letters, Shares;
    ChildIsOk(digest, k);
    var c := PARENT.ceiling.value;
    assert FirstNamed(c.actions, Child(k).binding) == Some(c.actions[0]);
  }

  /** While the parent can be read, the next effect under it is accepted and charged. */
  lemma ChildIsPlanned(f: Format, k: nat)
    requires f.record(ParentWith(k)) <= MAX_RECORD_BYTES && k < 2 * MAX_RECORD_BYTES
    ensures PlanIssue(f, Grown(k), Child(k), 0) == Some(Plan(ChildPermit(k), map[], Some(ParentWith(k + 1))))
    ensures Carry(Grown(k), Plan(ChildPermit(k), map[], Some(ParentWith(k + 1))), NoCrash) == Grown(k + 1)
  {
    hide IdOf, Letters, BindingOk, LeaseOk, PermitOk, DelegationFrom, ParentOk, Read, Allocated;
    ParentReads(f, k);
    ChildIsOk(f.digest, k);
    ChildFits(f.digest, k);
    GrownHas(k);
    NextIsNew(k);
    forall d: Dimension ensures Allocated(Shares(k + 1), d) <= MANY.At(d) { SharesCount(k + 1, d); }
  }

  lemma {:induction false} GrownIsReached(f: Format, k: nat)
    requires k <= 2 * MAX_RECORD_BYTES && forall j: nat :: j < k ==> f.record(ParentWith(j)) <= MAX_RECORD_BYTES
    ensures Reachable(f, Grown(k))
  {
    hide Reachable, IdOf, PlanIssue, Grown;
    if k == 0 {
      ReachStart(f);
      assert AudiencesOk(["tool"]) by { OneAudience(); }
      RootIsPlanned(f, ["tool"], MANY);
      ReachStep(f, EMPTY, DoIssue(PARENT, 0, NoCrash));
      NobodyYet(f);
    } else {
      GrownIsReached(f, k - 1);
      ChildIsPlanned(f, k - 1);
      ReachStep(f, Grown(k - 1), DoIssue(Child(k - 1), 0, NoCrash));
    }
  }

  lemma OneAudience()
    ensures AudiencesOk(["tool"])
  {
  }

  lemma NobodyYet(f: Format)
    ensures Carry(EMPTY, Plan(PermitOf(PARENT), map[], None), NoCrash) == Grown(0)
  {
    hide IdOf;
  }

  /** A record takes at least one byte for each share it has given away. */
  ghost predicate SharesWeigh(f: Format) {
    forall r: Record :: |r.allocations| <= f.record(r)
  }

  lemma {:induction false} Crossing(f: Format, n: nat) returns (k: nat)
    requires f.record(ParentWith(0)) <= MAX_RECORD_BYTES < f.record(ParentWith(n))
    ensures k < n && f.record(ParentWith(k + 1)) > MAX_RECORD_BYTES
    ensures forall j: nat :: j <= k ==> f.record(ParentWith(j)) <= MAX_RECORD_BYTES
    decreases n
  {
    if j: nat :| 0 < j < n && f.record(ParentWith(j)) > MAX_RECORD_BYTES {
      k := Crossing(f, j);
    } else {
      k := n - 1;
    }
  }

  /**
   * If each share takes a byte and the bare parent can be read, some reachable
   * store accepts an issue whose charge makes its parent too long. Acknowledged,
   * it leaves a parent that is not read any more; cut short after the charge, no
   * repetition of it is accepted.
   */
  lemma ChargeCanOutgrow(f: Format) returns (st: Store, x: Draft)
    requires SharesWeigh(f) && f.record(ParentWith(0)) <= MAX_RECORD_BYTES
    ensures Reachable(f, st) && PlanIssue(f, st, x, 0).Some?
    ensures var (n, reply) := StepReply(f, st, DoIssue(x, 0, NoCrash));
            && reply.Returned? && x.binding.parent.Some? && x.binding.parent.value in n.records
            && Read(f, n, x.binding.parent.value).None?
    ensures var dead := StepReply(f, st, DoIssue(x, 0, AfterParent)).0;
            forall y: Draft, later: Time :: Restamped(f, st, x, 0, y, later) ==>
              StepReply(f, dead, DoIssue(y, later, NoCrash)) == (dead, Denied)
  {
    hide Reachable, SharesWeigh, PlanIssue, Grown, IdOf, Restamped, ParentWith;
    assert f.record(ParentWith(MAX_RECORD_BYTES + 1)) > MAX_RECORD_BYTES by { HeavyParent(f, MAX_RECORD_BYTES + 1); }
    var k := Crossing(f, MAX_RECORD_BYTES + 1);
    st, x := Grown(k), Child(k);
    GrownIsReached(f, k);
    ChildIsPlanned(f, k);
    GrownHas(k + 1);
    LongParent(f, k + 1);
    ReachableInv(f, st);
    forall y: Draft, later: Time | Restamped(f, st, x, 0, y, later)
      ensures StepReply(f, Carry(st, PlanIssue(f, st, x, 0).value, AfterParent), DoIssue(y, later, NoCrash)).1 == Denied
    {
      RetryFrom(f, st, x, 0, AfterParent, y, later);
    }
  }

  lemma HeavyParent(f: Format, k: nat)
    requires SharesWeigh(f)
    ensures k <= f.record(ParentWith(k))
  {
    SharesCount(k, WallTime);
  }

  lemma LongParent(f: Format, k: nat)
    requires f.record(ParentWith(k)) > MAX_RECORD_BYTES
    ensures Read(f, Grown(k), ParentId()).None?
  {
    hide IdOf, Checked, Grown;
    GrownHas(k);
  }

  // ----- an outcome that outgrows the bound -----

  function Lone(n: nat): Draft {
    Draft(Plainly(ONE, None, Letters(n)), Effect, None, [], None)
  }

  function LoneConsumed(n: nat): Record {
    var p := PermitOf(Lone(n));
    Blank(p).(state := Consumed(0), preflight := Some(Preflight(p, map[], 0)))
  }

  const REPORT := Reported(Succeeded, 0, None)

  function LoneReported(n: nat): Record {
    LoneConsumed(n).(outcome := Some(Outcome(LoneConsumed(n).preflight.value, REPORT, 0)))
  }

  /**
   * A consumption does not make a record shorter, an outcome adds at least what
   * one more letter in the step does, each letter takes a byte, and the shortest
   * of these records can be read.
   */
  ghost predicate OutcomesWeigh(f: Format) {
    && f.record(LoneConsumed(0)) <= MAX_RECORD_BYTES
    && forall n: nat ::
         && f.record(Blank(PermitOf(Lone(n)))) <= f.record(LoneConsumed(n))
         && n <= f.record(LoneReported(n)) && f.record(LoneConsumed(n + 1)) <= f.record(LoneReported(n))
  }

  function Holding(r: Record): Store {
    Store(map[IdOf(r.permit) := r], map[])
  }

  lemma HoldsNew(r: Record, n: Record)
    requires n.permit == r.permit
    ensures Holding(r).(records := Holding(r).records[IdOf(n.permit) := n]) == Holding(n)
  {
    hide IdOf;
    assert Holding(r).records[IdOf(n.permit) := n] == Holding(n).records;
  }

  lemma LoneIsPlanned(f: Format, n: nat)
    ensures PlanIssue(f, EMPTY, Lone(n), 0) == Some(Plan(PermitOf(Lone(n)), map[], None))
  {
    hide Letters;
  }

  lemma LoneIsConsumed(f: Format, n: nat)
    requires f.record(Blank(PermitOf(Lone(n)))) <= MAX_RECORD_BYTES
    ensures StepReply(f, Holding(Blank(PermitOf(Lone(n)))), DoConsumeRecorded(IdOf(PermitOf(Lone(n))), Lone(n).binding, 0, 0))
         == (Holding(LoneConsumed(n)), Returned(LoneConsumed(n)))
  {
    hide Letters, IdOf;
    HoldsNew(Blank(PermitOf(Lone(n))), LoneConsumed(n));
  }

  lemma LoneIsReported(f: Format, n: nat)
    requires f.record(LoneConsumed(n)) <= MAX_RECORD_BYTES
    ensures StepReply(f, Holding(LoneConsumed(n)), DoReport(IdOf(PermitOf(Lone(n))), LoneConsumed(n).preflight.value, REPORT, 0))
         == (Holding(LoneReported(n)), Returned(LoneReported(n)))
  {
    hide Letters, IdOf;
    HoldsNew(LoneConsumed(n), LoneReported(n));
  }

  lemma {:induction false} FirstTooLong(f: Format, n: nat) returns (k: nat)
    requires OutcomesWeigh(f) && f.record(LoneReported(n)) > MAX_RECORD_BYTES
    ensures f.record(LoneReported(k)) > MAX_RECORD_BYTES && f.record(LoneConsumed(k)) <= MAX_RECORD_BYTES
  {
    if 0 < n && f.record(LoneReported(n - 1)) > MAX_RECORD_BYTES {
      k := FirstTooLong(f, n - 1);
    } else {
      k := n;
      if 0 < n { assert f.record(LoneConsumed(n - 1 + 1)) <= f.record(LoneReported(n - 1)); }
    }
  }

  /** Under such sizes some reachable store acknowledges a report and refuses the same report ever after. */
  lemma OutcomeCanOutgrow(f: Format) returns (st: Store, report: Op)
    requires OutcomesWeigh(f)
    ensures Reachable(f, st) && report.DoReport? && StepReply(f, st, report).1.Returned?
    ensures var n := StepReply(f, st, report).0; StepReply(f, n, report) == (n, Denied)
  {
    hide Reachable, IdOf, PlanIssue, ConsumeRecorded, ReportOutcome;
    LongReport(f);
    var k := FirstTooLong(f, MAX_RECORD_BYTES + 1);
    var p := PermitOf(Lone(k));
    var issue, consume := DoIssue(Lone(k), 0, NoCrash), DoConsumeRecorded(IdOf(p), Lone(k).binding, 0, 0);
    report := DoReport(IdOf(p), LoneConsumed(k).preflight.value, REPORT, 0);
    st := Holding(LoneConsumed(k));
    ReachStart(f);
    LoneIsPlanned(f, k);
    ReachStep(f, EMPTY, issue);
    assert StepReply(f, EMPTY, issue).0 == Holding(Blank(p));
    LoneIsConsumed(f, k);
    ReachStep(f, Holding(Blank(p)), consume);
    LoneIsReported(f, k);
    UnreadIsLost(f, Holding(LoneReported(k)), IdOf(p), report);
  }

  lemma LongReport(f: Format)
    requires OutcomesWeigh(f)
    ensures f.record(LoneReported(MAX_RECORD_BYTES + 1)) > MAX_RECORD_BYTES
  {
  }

  // ----- such sizes -----

  function Count(r: Record): nat {
    |r.permit.binding.step| + |r.allocations| + (if r.outcome.Some? then 1 else 0)
    + (if r.permit.ceiling.Some? then |r.permit.ceiling.value.audiences| else 0)
  }

  /** Counting what is listed is a size with all of these properties. */
  lemma CountWeighs(digest: Digest)
    ensures var f := Format(digest, Count, families => 0);
            AudiencesWeigh(f) && SharesWeigh(f) && OutcomesWeigh(f) && f.record(ParentWith(0)) <= MAX_RECORD_BYTES
  {
  }
}
