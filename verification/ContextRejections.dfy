/** Each of the three ways in which the replay rejects what an operation's own checks accept is reached. */
module ContextRejections {
  import opened Common
  import opened ContextModel
  import opened ContextInvariant
  import opened ContextSteps
  import opened ContextTheorems

  ghost predicate Reachable(size: Size, incarnation: Id, s: Authority) {
    exists trace: seq<Authority>, ops: seq<Op> :: IsRun(size, incarnation, trace, ops) && trace[|trace| - 1] == s
  }

  /** The operation's own checks accept, the replay does not, and nothing is written. */
  ghost predicate Overruled(size: Size, s: Authority, op: Op) {
    Candidate(s, op).Some? && !ValidState(Candidate(s, op).value) && Step(size, s, op) == s && ReplyTo(size, s, op) == Denied
  }

  lemma ReachStart(size: Size, incarnation: Id)
    requires size(Initialized(incarnation)) <= MAX_STATE_BYTES
    ensures Reachable(size, incarnation, Initialized(incarnation))
  {
    var trace, ops := [Initialized(incarnation)], [];
    assert IsRun(size, incarnation, trace, ops) && trace[|trace| - 1] == Initialized(incarnation);
  }

  lemma ReachStep(size: Size, incarnation: Id, s: Authority, op: Op)
    requires Reachable(size, incarnation, s)
    ensures Reachable(size, incarnation, Step(size, s, op))
  {
    hide Step;
    var trace, ops :| IsRun(size, incarnation, trace, ops) && trace[|trace| - 1] == s;
    var more, longer := trace + [Step(size, s, op)], ops + [op];
    assert forall i :: 0 <= i < |longer| ==> more[i + 1] == Step(size, more[i], longer[i]);
    assert IsRun(size, incarnation, more, longer) && more[|more| - 1] == Step(size, s, op);
  }

  lemma ReachableInv(size: Size, incarnation: Id, s: Authority)
    requires Reachable(size, incarnation, s)
    ensures Inv(s)
  {
    hide Inv, Step;
    var trace, ops :| IsRun(size, incarnation, trace, ops) && trace[|trace| - 1] == s;
    RunKeepsInv(size, incarnation, trace, ops, |trace| - 1);
  }

  /** An admissible operation that its own checks accept is carried out. */
  lemma Proceeds(size: Size, incarnation: Id, s: Authority, op: Op, next: Authority)
    requires Reachable(size, incarnation, s) && Candidate(s, op) == Some(next) && Admissible(s, op) && Durable(op)
    requires size(next) <= MAX_STATE_BYTES
    ensures Step(size, s, op) == next && Reachable(size, incarnation, next)
  {
    hide Reachable, Candidate, Admissible, ValidState, Inv;
    ReachableInv(size, incarnation, s);
    ReplayAcceptsIff(s, op);
    ReachStep(size, incarnation, s, op);
  }

  lemma IsOverruled(size: Size, incarnation: Id, s: Authority, op: Op)
    requires Reachable(size, incarnation, s) && Candidate(s, op).Some? && !Admissible(s, op)
    ensures Overruled(size, s, op)
  {
    hide Reachable, Admissible, ValidState, Inv, Enroll, Issue, Consume, Transit, Settle;
    ReachableInv(size, incarnation, s);
    ReplayAcceptsIff(s, op);
  }

  // ----- a full journal -----

  function Bare(incarnation: Id, k: nat): Configuration
    requires k < U64_MAX
  {
    Configuration(incarnation, k + 1, "verifier", [])
  }

  function Enrolled(incarnation: Id, k: nat): Authority
    requires k < U64_MAX
  {
    if k == 0 then Initialized(incarnation)
    else
      var s := Enrolled(incarnation, k - 1);
      s.(configuration := Some(Bare(incarnation, k - 1)), journal := s.journal + [Enrollment(Bare(incarnation, k - 1))])
  }

  lemma {:induction false} EnrolledHas(incarnation: Id, k: nat)
    requires k < U64_MAX
    ensures var s := Enrolled(incarnation, k);
            && |s.journal| == k && s.incarnation == incarnation && s.scopes == map[]
            && s.configuration == if k == 0 then None else Some(Bare(incarnation, k - 1))
  {
    if 0 < k { EnrolledHas(incarnation, k - 1); }
  }

  lemma BareIsAccepted(incarnation: Id, k: nat)
    requires k + 1 < U64_MAX
    ensures Candidate(Enrolled(incarnation, k), DoEnroll(Bare(incarnation, k))) == Some(Enrolled(incarnation, k + 1))
  {
    EnrolledHas(incarnation, k);
    var s := Enrolled(incarnation, k);
    assert Revoke(s.scopes, GrantScopes([])) == s.scopes;
  }

  /** The states of a store that only ever enrolled nothing fit their file. */
  ghost predicate BareFit(size: Size, incarnation: Id) {
    forall k: nat :: k <= 2 * MAX_TRANSITIONS ==> size(Enrolled(incarnation, k)) <= MAX_STATE_BYTES
  }

  lemma {:induction false} EnrolledIsReached(size: Size, incarnation: Id, k: nat)
    requires k <= 2 * MAX_TRANSITIONS && BareFit(size, incarnation)
    ensures Reachable(size, incarnation, Enrolled(incarnation, k))
  {
    hide Reachable, Candidate;
    if k == 0 {
      assert size(Enrolled(incarnation, 0)) <= MAX_STATE_BYTES;
      ReachStart(size, incarnation);
    } else {
      EnrolledIsReached(size, incarnation, k - 1);
      EnrolledHas(incarnation, k - 1);
      BareIsAccepted(incarnation, k - 1);
      Proceeds(size, incarnation, Enrolled(incarnation, k - 1), DoEnroll(Bare(incarnation, k - 1)), Enrolled(incarnation, k));
    }
  }

  /** An enrollment after so many others that the journal is full. */
  lemma FullJournalOverrules(size: Size, incarnation: Id) returns (s: Authority, op: Op)
    requires BareFit(size, incarnation)
    ensures Reachable(size, incarnation, s) && op.DoEnroll? && Overruled(size, s, op)
  {
    hide Reachable, Overruled, Candidate;
    var k := 2 * MAX_TRANSITIONS;
    s, op := Enrolled(incarnation, k), DoEnroll(Bare(incarnation, k));
    EnrolledIsReached(size, incarnation, k);
    EnrolledHas(incarnation, k);
    BareIsAccepted(incarnation, k);
    IsOverruled(size, incarnation, s, op);
  }

  // ----- one scope, one effect -----

  const SCOPE := Scope("store", "profile", "root")
  const HEAD := Head("context", 1, Active)
  const ROOM := Path(true, ["work"])
  const GRANT := Grant(SCOPE, "key", true, "actor", "v", "policy", ROOM, HEAD, 0, 10, 1, 1, None)

  function Config(incarnation: Id): Configuration {
    Configuration(incarnation, 1, "verifier", [GRANT])
  }

  function Entry(incarnation: Id): Access {
    Access(incarnation, Config(incarnation))
  }

  function Granted(incarnation: Id): Authority {
    Initialized(incarnation).(
      scopes := map[SCOPE := ScopeState(GRANT, HEAD, true, 0, 0, None)], configuration := Some(Config(incarnation)),
      journal := [Enrollment(Config(incarnation))])
  }

  lemma GrantIsOk()
    ensures GrantOk(GRANT) && HeadOk(HEAD)
  {
  }

  lemma GrantIsApplied(incarnation: Id)
    ensures Candidate(Initialized(incarnation), DoEnroll(Config(incarnation))) == Some(Granted(incarnation))
  {
    hide GrantOk;
    GrantIsOk();
    var scopes := Granted(incarnation).scopes;
    assert [GRANT][1..] == [] && ApplyGrants(scopes, [], {SCOPE}) == Some(scopes);
    assert GrantScopes([GRANT]) == {SCOPE} by { assert GRANT in [GRANT]; }
    assert Revoke(scopes, {SCOPE}) == scopes;
    assert [] + [Enrollment(Config(incarnation))] == [Enrollment(Config(incarnation))];
  }

  /** The states of a store with one grant, and with one effect under it, fit their file. */
  ghost predicate SmallFit(size: Size, incarnation: Id) {
    && size(Initialized(incarnation)) <= MAX_STATE_BYTES && size(Granted(incarnation)) <= MAX_STATE_BYTES
    && size(Issued(incarnation, SOME_BUDGET, Record(None, None))) <= MAX_STATE_BYTES
    && size(Issued(incarnation, SOME_BUDGET, Used(incarnation))) <= MAX_STATE_BYTES
  }

  lemma GrantedIsReached(size: Size, incarnation: Id)
    requires SmallFit(size, incarnation)
    ensures Reachable(size, incarnation, Granted(incarnation))
  {
    hide Reachable, Candidate;
    ReachStart(size, incarnation);
    GrantIsApplied(incarnation);
    Proceeds(size, incarnation, Initialized(incarnation), DoEnroll(Config(incarnation)), Granted(incarnation));
  }

  function Approved(budget: Budget): Witness {
    Witness(Effect(Subject("approval", Call("tool", ""), "actor", "v", [ROOM], budget), 0, 0, 10), {"verifier"})
  }

  function Asked(incarnation: Id, budget: Budget): ContextCall {
    ContextCall(Binding(incarnation, SCOPE, GRANT, "policy", HEAD), Approved(budget), Signature("", {"key"}))
  }

  function Asking(incarnation: Id, budget: Budget): Op {
    DoIssue(Entry(incarnation), "verifier", Approved(budget), Asked(incarnation, budget), 1, 1, {})
  }

  function Given(incarnation: Id, budget: Budget): Permit {
    Permit(Approved(budget).effect, "verifier", Asked(incarnation, budget))
  }

  function Issued(incarnation: Id, budget: Budget, record: Record): Authority {
    Granted(incarnation).(
      scopes := map[SCOPE := ScopeState(GRANT, HEAD, true, 1, 0, None)],
      approvals := map[ApprovalOf(Approved(budget).effect) := Given(incarnation, budget)],
      permits := map[Given(incarnation, budget) := record])
  }

  lemma AskingIsAccepted(incarnation: Id, budget: Budget)
    ensures Candidate(Granted(incarnation), Asking(incarnation, budget)) == Some(Issued(incarnation, budget, Record(None, None)))
  {
    hide HeadOk, ApprovalOf;
    GrantIsOk();
    var s, n := Granted(incarnation), Issued(incarnation, budget, Record(None, None));
    assert InGrant(GRANT, Approved(budget).effect);
    assert s.scopes[SCOPE := s.scopes[SCOPE].(effects := 1)] == n.scopes;
  }

  /** An effect with an empty budget: the approval verifier does not look at it. */
  lemma EmptyBudgetOverrules(size: Size, incarnation: Id) returns (s: Authority, op: Op)
    requires SmallFit(size, incarnation)
    ensures Reachable(size, incarnation, s) && op.DoIssue? && Overruled(size, s, op)
  {
    hide Reachable, Overruled, Candidate;
    var nothing := Budget(0, 0, 0);
    s, op := Granted(incarnation), Asking(incarnation, nothing);
    GrantedIsReached(size, incarnation);
    AskingIsAccepted(incarnation, nothing);
    IsOverruled(size, incarnation, s, op);
  }

  // ----- a clock that goes back -----

  const SOME_BUDGET := Budget(1, 1, 1)

  function Used(incarnation: Id): Record {
    Record(Some(Preflight(Given(incarnation, SOME_BUDGET), 5)), None)
  }

  function Using(incarnation: Id): Op {
    DoConsume(Entry(incarnation), "verifier", Given(incarnation, SOME_BUDGET), Call("tool", ""), 5, 5)
  }

  lemma UsingIsAccepted(incarnation: Id)
    ensures Candidate(Issued(incarnation, SOME_BUDGET, Record(None, None)), Using(incarnation))
         == Some(Issued(incarnation, SOME_BUDGET, Used(incarnation)))
  {
    hide HeadOk, ApprovalOf;
    GrantIsOk();
    var s, n, p := Issued(incarnation, SOME_BUDGET, Record(None, None)), Issued(incarnation, SOME_BUDGET, Used(incarnation)),
      Given(incarnation, SOME_BUDGET);
    assert s.permits[p := Used(incarnation)] == n.permits;
  }

  function Retiring(incarnation: Id): Op {
    DoTransit(Entry(incarnation),
      Request(Binding(incarnation, SCOPE, GRANT, "policy", HEAD), "t", Retire("next"), Signature("", {"key"})), 4, 4, None)
  }

  lemma RetiringIsAccepted(incarnation: Id)
    ensures Candidate(Issued(incarnation, SOME_BUDGET, Used(incarnation)), Retiring(incarnation)).Some?
  {
    hide ApprovalOf, Consumed;
    GrantIsOk();
  }

  lemma UsedIsReached(size: Size, incarnation: Id)
    requires SmallFit(size, incarnation)
    ensures Reachable(size, incarnation, Issued(incarnation, SOME_BUDGET, Used(incarnation)))
  {
    hide Reachable, Candidate, ApprovalOf, Issued;
    var issued := Issued(incarnation, SOME_BUDGET, Record(None, None));
    GrantedIsReached(size, incarnation);
    AskingIsAccepted(incarnation, SOME_BUDGET);
    assert EffectOk(Approved(SOME_BUDGET).effect);
    Proceeds(size, incarnation, Granted(incarnation), Asking(incarnation, SOME_BUDGET), issued);
    UsingIsAccepted(incarnation);
    Proceeds(size, incarnation, issued, Using(incarnation), Issued(incarnation, SOME_BUDGET, Used(incarnation)));
  }

  lemma ClockIsBehind(incarnation: Id)
    ensures !ClockCaughtUp(Issued(incarnation, SOME_BUDGET, Used(incarnation)).permits, SCOPE, 4)
  {
    hide ApprovalOf;
    assert Given(incarnation, SOME_BUDGET) in ConsumedIn(Issued(incarnation, SOME_BUDGET, Used(incarnation)).permits, SCOPE);
  }

  /** A transition whose clock is behind a consumption already recorded in its scope. */
  lemma LateClockOverrules(size: Size, incarnation: Id) returns (s: Authority, op: Op)
    requires SmallFit(size, incarnation)
    ensures Reachable(size, incarnation, s) && op.DoTransit? && Overruled(size, s, op)
  {
    hide Reachable, Overruled, Candidate, ApprovalOf, ClockCaughtUp, Issued;
    s, op := Issued(incarnation, SOME_BUDGET, Used(incarnation)), Retiring(incarnation);
    UsedIsReached(size, incarnation);
    RetiringIsAccepted(incarnation);
    ClockIsBehind(incarnation);
    IsOverruled(size, incarnation, s, op);
  }
}
