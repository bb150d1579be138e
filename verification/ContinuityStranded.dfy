/** A transcript that every check accepts and that nobody can finish. */
module ContinuityStranded {
  import opened Common
  import opened PermitModel
  import opened PermitInvariant
  import opened LifecycleModel
  import opened LifecycleTheorems
  import opened ContinuityModel
  import opened ContinuityEndings
  import opened ContinuityFinish

  const CONTROL := OwnControl("run", "control")

  const EFFECT := Permit(
    Binding("actor", "", ANYTHING, UNIT, "v", Some(IdOf(CONTROL)), Some("run"), 0, 0, 1, "run", "effect", "tool", ""),
    Effect, None, Some(Delegation("actor", "actor", "tool", 1)), [])

  const FILES := Attachments(
    map[Placeholder("control issued") := Evidence(CONTROL, map[], EvidenceState.Open),
        Placeholder("effect issued") := Evidence(EFFECT, map[], EvidenceState.Open),
        Placeholder("effect used") := Evidence(EFFECT, map[], Used(0)),
        Placeholder("control closed") := Evidence(CONTROL, map[IdOf(EFFECT) := UNIT], Closed(0, Operator))],
    map[])

  const PROOFS := Proofs(FILES.evidence, map[])

  function Said(step: Id, kind: Kind, artifacts: seq<Id>, outcome: Verdict): Receipt {
    Receipt("run", step, kind, 0, LINEAGE, "", "",
      seq(|artifacts|, i requires 0 <= i < |artifacts| => Placeholder(artifacts[i])), outcome)
  }

  /** The control is closed while the effect under it is underway, and then the run is cancelled. */
  const TRANSCRIPT := [
    Said("", RunStarted, [], Ok),
    Said("control", StepStarted, [], Ok),
    Said("control", PermitIssued, ["control issued"], Ok),
    Said("effect", StepStarted, [], Ok),
    Said("effect", PermitIssued, ["effect issued"], Ok),
    Said("effect", PermitConsumed, ["effect used"], Ok),
    Said("control", PermitRevoked, ["control closed"], Ok),
    Said("", ParentCancelled, [], Cancelled(""))]

  // ----- the lifecycle takes it -----

  function LifeOf(count: nat, steps: map<Id, StepState>, terminal: Option<Terminal>): Life {
    UNBORN.(count := count, run := Some("run"), steps := steps, terminal := terminal)
  }

  lemma SaidIsMaterial(step: Id, kind: Kind, artifacts: seq<Id>, outcome: Verdict)
    ensures MaterialOk(Said(step, kind, artifacts, outcome))
  {
    forall a | a in Said(step, kind, artifacts, outcome).artifacts ensures DescriptorOk(a) { PlaceholderOk(a.owner); }
  }

  lemma BeginsLive()
    ensures Advance(UNBORN, TRANSCRIPT[0]) == Some(LifeOf(1, map[], None))
  {
    SaidIsMaterial("", RunStarted, [], Ok);
  }

  /** One step moves on. */
  lemma MovesLive(count: nat, steps: map<Id, StepState>, step: Id, kind: Kind, artifacts: seq<Id>)
    requires 0 < count && MovesTo(kind).Some? && kind in {StepStarted, PermitIssued, PermitConsumed, PermitRevoked}
    requires MovesFrom(LifeOf(count, steps, None), Said(step, kind, artifacts, Ok))
    ensures Advance(LifeOf(count, steps, None), Said(step, kind, artifacts, Ok))
         == Some(LifeOf(count + 1, steps[step := MovesTo(kind).value], None))
  {
    hide MaterialOk;
    SaidIsMaterial(step, kind, artifacts, Ok);
  }

  lemma CancelsLive(count: nat, steps: map<Id, StepState>)
    requires 0 < count
    ensures Advance(LifeOf(count, steps, None), Said("", ParentCancelled, [], Cancelled("")))
         == Some(LifeOf(count + 1, steps, Some(CancelledRun)))
  {
    hide MaterialOk;
    SaidIsMaterial("", ParentCancelled, [], Cancelled(""));
  }

  // ----- the story takes it -----

  const SHARE := map[IdOf(EFFECT) := UNIT]

  lemma EffectOk(digest: Digest)
    ensures PermitOk(digest, EFFECT) && DelegationHolds(digest, EFFECT, CONTROL)
  {
    hide IdOf;
    var c := CONTROL.ceiling.value;
    assert FirstNamed(c.actions, EFFECT.binding) == Some(c.actions[0]);
  }

  lemma Bound(digest: Digest, step: Id, kind: Kind, file: Id, e: Evidence)
    requires Placeholder(file) in FILES.evidence && FILES.evidence[Placeholder(file)] == e
    requires EvidenceOk(digest, e) && StateFits(kind, e.state) && StateTime(e) == 0
    requires e.permit.binding.run == "run" && e.permit.binding.step == step
    requires e.permit.binding.actionDigest == "" && e.permit.binding.argsDigest == ""
    ensures Proven(PROOFS, Said(step, kind, [file], Ok)) && Proof(PROOFS, Said(step, kind, [file], Ok)) == e
    ensures Binds(digest, PROOFS, Said(step, kind, [file], Ok))
  {
    hide EvidenceOk, IdOf;
    assert Said(step, kind, [file], Ok).artifacts == [Placeholder(file)];
  }

  /** The control in this state, and what is retained and shared. */
  function TaleOf(count: nat, retained: map<Id, Retained>, state: EvidenceState, shares: map<PermitId, map<PermitId, Budget>>): Story {
    Story(count, retained, map[IdOf(CONTROL) := CONTROL], map[IdOf(CONTROL) := state], shares)
  }

  const HELD := map["control" := Retained(CONTROL, IsIssued)]
  const SHARED := map[IdOf(CONTROL) := SHARE]

  lemma ControlIssued(digest: Digest)
    ensures Tell(digest, PROOFS, BLANK.(count := 2), TRANSCRIPT[2]) == Some(TaleOf(3, HELD, EvidenceState.Open, map[]))
  {
    hide IdOf, Binds, PermitOk;
    OwnControlOk(digest, "run", "control");
    Bound(digest, "control", PermitIssued, "control issued", Evidence(CONTROL, map[], EvidenceState.Open));
  }

  lemma ShareFits()
    ensures AllocationsFit(SHARE, UNIT)
  {
    hide IdOf;
    var none: map<PermitId, Budget> := map[];
    forall d: Dimension ensures Allocated(SHARE, d) <= UNIT.At(d) {
      EmptyAllocations(d);
      SumPut(none, Amount(d), IdOf(EFFECT), UNIT);
      assert none[IdOf(EFFECT) := UNIT] == SHARE;
    }
  }

  lemma EffectIssued(digest: Digest)
    ensures Tell(digest, PROOFS, TaleOf(4, HELD, EvidenceState.Open, map[]), TRANSCRIPT[4])
         == Some(TaleOf(5, HELD["effect" := Retained(EFFECT, IsIssued)], EvidenceState.Open, SHARED))
  {
    hide IdOf, Binds, PermitOk, DelegationHolds, AllocationsFit;
    EffectOk(digest);
    Bound(digest, "effect", PermitIssued, "effect issued", Evidence(EFFECT, map[], EvidenceState.Open));
    ShareFits();
    var none: map<PermitId, Budget> := map[];
    var nobody: map<PermitId, map<PermitId, Budget>> := map[];
    assert none[IdOf(EFFECT) := UNIT] == SHARE && nobody[IdOf(CONTROL) := SHARE] == SHARED;
  }

  lemma EffectUsed(digest: Digest)
    ensures Tell(digest, PROOFS, TaleOf(5, HELD["effect" := Retained(EFFECT, IsIssued)], EvidenceState.Open, SHARED), TRANSCRIPT[5])
         == Some(TaleOf(6, HELD["effect" := Retained(EFFECT, IsConsumed)], EvidenceState.Open, SHARED))
  {
    hide IdOf, Binds, PermitOk;
    EffectOk(digest);
    Bound(digest, "effect", PermitConsumed, "effect used", Evidence(EFFECT, map[], Used(0)));
    assert HELD["effect" := Retained(EFFECT, IsIssued)]["effect" := Retained(EFFECT, IsConsumed)]
        == HELD["effect" := Retained(EFFECT, IsConsumed)];
  }

  const LOST := map["control" := Retained(CONTROL, IsRevoked), "effect" := Retained(EFFECT, IsConsumed)]

  lemma ControlClosed(digest: Digest)
    ensures Tell(digest, PROOFS, TaleOf(6, HELD["effect" := Retained(EFFECT, IsConsumed)], EvidenceState.Open, SHARED), TRANSCRIPT[6])
         == Some(TaleOf(7, LOST, Closed(0, Operator), SHARED))
  {
    hide IdOf, Binds, PermitOk;
    OwnControlOk(digest, "run", "control");
    Bound(digest, "control", PermitRevoked, "control closed", Evidence(CONTROL, SHARE, Closed(0, Operator)));
    assert HELD["effect" := Retained(EFFECT, IsConsumed)]["control" := Retained(CONTROL, IsRevoked)] == LOST;
    assert map[IdOf(CONTROL) := EvidenceState.Open][IdOf(CONTROL) := Closed(0, Operator)] == map[IdOf(CONTROL) := Closed(0, Operator)];
  }

  // ----- together -----

  ghost predicate Stands(digest: Digest, n: nat, l: Life, c: Story)
    requires n <= |TRANSCRIPT|
  {
    && Live(TRANSCRIPT[..n]) == Some(l) && Admitted(FILES, TRANSCRIPT[..n]) == Some(map[])
    && Told(digest, PROOFS, TRANSCRIPT[..n]) == Some(c)
  }

  lemma StandsMore(digest: Digest, n: nat, l: Life, c: Story, next: Life, more: Story)
    requires n < |TRANSCRIPT| && Stands(digest, n, l, c) && TRANSCRIPT[n].kind != ProviderEgressAdmitted
    requires Advance(l, TRANSCRIPT[n]) == Some(next) && Tell(digest, PROOFS, c, TRANSCRIPT[n]) == Some(more)
    ensures Stands(digest, n + 1, next, more)
  {
    hide Advance, Tell;
    assert TRANSCRIPT[..n + 1][..n] == TRANSCRIPT[..n] && TRANSCRIPT[..n + 1][n] == TRANSCRIPT[n];
  }

  lemma UpToControl(digest: Digest)
    ensures Stands(digest, 2, LifeOf(2, map["control" := Started], None), BLANK.(count := 2))
  {
    hide Advance, Tell, Stands, IdOf;
    NothingStands(digest);
    BeginsLive();
    QuietTells(digest, PROOFS, BLANK, TRANSCRIPT[0]);
    StandsMore(digest, 0, UNBORN, BLANK, LifeOf(1, map[], None), BLANK.(count := 1));
    MovesLive(1, map[], "control", StepStarted, []);
    QuietTells(digest, PROOFS, BLANK.(count := 1), TRANSCRIPT[1]);
    StandsMore(digest, 1, LifeOf(1, map[], None), BLANK.(count := 1), LifeOf(2, map["control" := Started], None), BLANK.(count := 2));
  }

  lemma UpToEffect(digest: Digest)
    ensures Stands(digest, 4, LifeOf(4, map["control" := Permitted, "effect" := Started], None),
                   TaleOf(4, HELD, EvidenceState.Open, map[]))
  {
    hide Advance, Tell, Stands, IdOf;
    UpToControl(digest);
    MovesLive(2, map["control" := Started], "control", PermitIssued, ["control issued"]);
    ControlIssued(digest);
    assert map["control" := Started]["control" := Permitted] == map["control" := Permitted];
    var l, held := LifeOf(3, map["control" := Permitted], None), TaleOf(3, HELD, EvidenceState.Open, map[]);
    StandsMore(digest, 2, LifeOf(2, map["control" := Started], None), BLANK.(count := 2), l, held);
    MovesLive(3, map["control" := Permitted], "effect", StepStarted, []);
    QuietTells(digest, PROOFS, held, TRANSCRIPT[3]);
    StandsMore(digest, 3, l, held, LifeOf(4, map["control" := Permitted, "effect" := Started], None), held.(count := 4));
  }

  lemma UpToClosure(digest: Digest)
    ensures Stands(digest, 6, LifeOf(6, map["control" := Permitted, "effect" := Spent], None),
                   TaleOf(6, HELD["effect" := Retained(EFFECT, IsConsumed)], EvidenceState.Open, SHARED))
  {
    hide Advance, Tell, Stands, IdOf;
    UpToEffect(digest);
    var started := map["control" := Permitted, "effect" := Started];
    var permitted, spent := started["effect" := Permitted], map["control" := Permitted, "effect" := Spent];
    MovesLive(4, started, "effect", PermitIssued, ["effect issued"]);
    EffectIssued(digest);
    var issued := TaleOf(5, HELD["effect" := Retained(EFFECT, IsIssued)], EvidenceState.Open, SHARED);
    StandsMore(digest, 4, LifeOf(4, started, None), TaleOf(4, HELD, EvidenceState.Open, map[]), LifeOf(5, permitted, None), issued);
    MovesLive(5, permitted, "effect", PermitConsumed, ["effect used"]);
    EffectUsed(digest);
    assert permitted["effect" := Spent] == spent;
    StandsMore(digest, 5, LifeOf(5, permitted, None), issued, LifeOf(6, spent, None),
      TaleOf(6, HELD["effect" := Retained(EFFECT, IsConsumed)], EvidenceState.Open, SHARED));
  }

  const WRECK := map["control" := Complete, "effect" := Spent]

  lemma UpToTheEnd(digest: Digest)
    ensures Stands(digest, 8, LifeOf(8, WRECK, Some(CancelledRun)), TaleOf(8, LOST, Closed(0, Operator), SHARED))
  {
    hide Advance, Tell, Stands, IdOf;
    UpToClosure(digest);
    var spent := map["control" := Permitted, "effect" := Spent];
    MovesLive(6, spent, "control", PermitRevoked, ["control closed"]);
    ControlClosed(digest);
    assert spent["control" := Complete] == WRECK;
    var closed := TaleOf(7, LOST, Closed(0, Operator), SHARED);
    StandsMore(digest, 6, LifeOf(6, spent, None),
      TaleOf(6, HELD["effect" := Retained(EFFECT, IsConsumed)], EvidenceState.Open, SHARED),
      LifeOf(7, WRECK, None), closed);
    CancelsLive(7, WRECK);
    QuietTells(digest, PROOFS, closed, TRANSCRIPT[7]);
    StandsMore(digest, 7, LifeOf(7, WRECK, None), closed, LifeOf(8, WRECK, Some(CancelledRun)), closed.(count := 8));
  }

  /** Accepted as far as it goes, and no evidence and no receipts will ever finish it. */
  lemma StrandedIsReached(digest: Digest)
    ensures Accepted(TRANSCRIPT, AppendInProgress) && Continuous(digest, FILES, TRANSCRIPT)
    ensures !Live(TRANSCRIPT).value.finalized && !CanFinish(digest, FILES, TRANSCRIPT)
  {
    hide Live, Admitted, Told, CanFinish, IdOf;
    UpToTheEnd(digest);
    assert TRANSCRIPT[..8] == TRANSCRIPT;
    assert Wedged(Live(TRANSCRIPT).value, Tale(digest, FILES, TRANSCRIPT).value, "effect");
    FinishableIff(digest, FILES, TRANSCRIPT);
  }

  lemma NothingStands(digest: Digest)
    ensures Stands(digest, 0, UNBORN, BLANK)
  {
  }
}
