/** Every transcript that is not stranded can be finished, with evidence that is still to be stored. */
module ContinuityFinish {
  import opened Common
  import opened PermitModel
  import opened LifecycleModel
  import opened LifecycleTheorems
  import opened ContinuityModel
  import opened ContinuityEndings

  /** Finalized, and accepted by lifecycle and continuity. */
  ghost predicate Concluded(digest: Digest, files: Attachments, rs: seq<Receipt>) {
    Accepted(rs, StrictCurrent) && Tale(digest, files, rs).Some?
  }

  ghost predicate CanFinish(digest: Digest, files: Attachments, rs: seq<Receipt>) {
    exists more: Attachments, ext: seq<Receipt> :: Grown(files, more) && Concluded(digest, more, rs + ext)
  }

  ghost predicate OnTheWay(digest: Digest, files: Attachments, rs: seq<Receipt>, l: Life, c: Story) {
    && Live(rs) == Some(l) && Tale(digest, files, rs) == Some(c)
    && LifecycleTheorems.Open(l) && Agrees(l, c) && Ordered(digest, c) && !Stranded(l, c)
  }

  lemma ThenCan(digest: Digest, files: Attachments, more: Attachments, rs: seq<Receipt>, r: Receipt)
    requires Grown(files, more) && CanFinish(digest, more, rs + [r])
    ensures CanFinish(digest, files, rs)
  {
    hide Concluded;
    var most, ext :| Grown(more, most) && Concluded(digest, most, rs + [r] + ext);
    assert rs + [r] + ext == rs + ([r] + ext);
    assert Grown(files, most);
    assert Concluded(digest, most, rs + ([r] + ext));
  }

  /** A receipt that both sides take and that strands nobody leads on. */
  lemma LeadsOn(digest: Digest, files: Attachments, more: Attachments, rs: seq<Receipt>, l: Life, c: Story, r: Receipt)
    requires OnTheWay(digest, files, rs, l, c) && Grown(files, more) && more.egress == files.egress
    requires Admitted(files, rs).Some? && r.kind != ProviderEgressAdmitted && Advance(l, r).Some?
    requires var d := Tell(digest, Proofs(more.evidence, Admitted(files, rs).value), c, r);
             d.Some? && LifecycleTheorems.Open(Advance(l, r).value) && !Stranded(Advance(l, r).value, d.value)
    ensures OnTheWay(digest, more, rs + [r], Advance(l, r).value,
                     Tell(digest, Proofs(more.evidence, Admitted(files, rs).value), c, r).value)
  {
    hide Advance, Tell, LifecycleTheorems.Open, Stranded, Agrees, Ordered, Live, Tale, Grown;
    var proofs := Proofs(more.evidence, Admitted(files, rs).value);
    LiveMore(rs, r);
    TaleMore(digest, files, more, rs, r);
    AgreesMore(digest, proofs, l, c, r);
    OrderedMore(digest, proofs, c, r);
  }

  // ----- what ends a step -----

  function Made(l: Life, step: Id, kind: Kind, time: Time, spec: Id, args: Id, artifacts: seq<Descriptor>, outcome: Verdict): Receipt
    requires l.run.Some?
  {
    Receipt(l.run.value, step, kind, time, LINEAGE, spec, args, artifacts, outcome)
  }

  lemma MadeIsMaterial(l: Life, step: Id, kind: Kind, time: Time, spec: Id, args: Id, artifacts: seq<Descriptor>, outcome: Verdict)
    requires l.run.Some? && forall a :: a in artifacts ==> DescriptorOk(a)
    ensures MaterialOk(Made(l, step, kind, time, spec, args, artifacts, outcome))
  {
  }

  /** Only this step changed, and it is nearer its end. */
  ghost predicate Nearer(l: Life, n: Life, s: Id) {
    && LifecycleTheorems.Open(n) && s in l.steps && s in n.steps && n.steps == l.steps[s := n.steps[s]]
    && Weight()(n.steps[s]) < Weight()(l.steps[s])
  }

  lemma FewerLeft(l: Life, n: Life, s: Id)
    requires Nearer(l, n, s)
    ensures Sum(n.steps, Weight()) < Sum(l.steps, Weight())
  {
    hide Sum, Weight;
    SumMoves(l.steps, s, n.steps[s]);
  }

  lemma FailureEnds(l: Life, s: Id)
    requires LifecycleTheorems.Open(l) && l.terminal.None? && Underway(l, s)
    ensures var n := Advance(l, Made(l, s, StepFailed, 0, "", "", [], Failure("")));
            n.Some? && Nearer(l, n.value, s) && n.value.terminal == Some(FailedRun) && n.value.steps[s] == Complete
  {
    MadeIsMaterial(l, s, StepFailed, 0, "", "", [], Failure(""));
  }

  lemma StoringAdvances(l: Life, s: Id, time: Time)
    requires LifecycleTheorems.Open(l) && In(l, s, Spent)
    ensures var n := Advance(l, Made(l, s, ArtifactStored, time, "", "", [Placeholder("result")], Ok));
            n.Some? && Nearer(l, n.value, s) && n.value.terminal == l.terminal && n.value.steps[s] == Stored
  {
    hide DescriptorOk;
    PlaceholderOk("result");
    MadeIsMaterial(l, s, ArtifactStored, time, "", "", [Placeholder("result")], Ok);
  }

  lemma CompletingEnds(l: Life, s: Id, time: Time)
    requires LifecycleTheorems.Open(l) && In(l, s, Stored)
    ensures var n := Advance(l, Made(l, s, StepCompleted, time, "", "", [Placeholder(StoredOwner(l, s))], Ok));
            n.Some? && Nearer(l, n.value, s) && n.value.terminal == l.terminal && n.value.steps[s] == Complete
  {
    hide DescriptorOk;
    PlaceholderOk(StoredOwner(l, s));
    MadeIsMaterial(l, s, StepCompleted, time, "", "", [Placeholder(StoredOwner(l, s))], Ok);
  }

  lemma RevokingEnds(l: Life, s: Id, time: Time, spec: Id, args: Id, a: Descriptor)
    requires LifecycleTheorems.Open(l) && In(l, s, Permitted) && DescriptorOk(a)
    ensures var n := Advance(l, Made(l, s, PermitRevoked, time, spec, args, [a], Ok));
            n.Some? && Nearer(l, n.value, s) && n.value.terminal == l.terminal && n.value.steps[s] == Complete
  {
    hide DescriptorOk;
    MadeIsMaterial(l, s, PermitRevoked, time, spec, args, [a], Ok);
  }

  lemma IssuingAdvances(l: Life, s: Id, a: Descriptor)
    requires LifecycleTheorems.Open(l) && In(l, s, Started) && DescriptorOk(a)
    ensures var n := Advance(l, Made(l, s, PermitIssued, 0, "", "", [a], Ok));
            n.Some? && Nearer(l, n.value, s) && n.value.terminal == l.terminal && n.value.steps[s] == Permitted
  {
    hide DescriptorOk;
    MadeIsMaterial(l, s, PermitIssued, 0, "", "", [a], Ok);
  }

  lemma CancellingAdvances(l: Life)
    requires LifecycleTheorems.Open(l) && l.terminal.None?
    ensures var n := Advance(l, Made(l, "", ParentCancelled, 0, "", "", [], Cancelled("")));
            && n.Some? && LifecycleTheorems.Open(n.value) && n.value.terminal == Some(CancelledRun) && n.value.steps == l.steps
  {
    MadeIsMaterial(l, "", ParentCancelled, 0, "", "", [], Cancelled(""));
  }

  lemma FinalizingEnds(l: Life)
    requires LifecycleTheorems.Open(l) && l.terminal.Some? && forall s :: s in l.steps ==> l.steps[s] == Complete
    ensures var r := Made(l, "", RunFinalized, 0, "", "", [], VerdictOf(l.terminal.value, ""));
            Advance(l, r).Some? && Advance(l, r).value.finalized && !r.outcome.Ok?
  {
    MadeIsMaterial(l, "", RunFinalized, 0, "", "", [], VerdictOf(l.terminal.value, ""));
  }

  // ----- what the story says to it -----

  lemma QuietTells(digest: Digest, proofs: Proofs, c: Story, r: Receipt)
    requires !PermitEvent(r.kind) && !r.kind.ArtifactStored? && !r.kind.StepCompleted? && !(r.kind.RunFinalized? && r.outcome.Ok?)
    ensures Tell(digest, proofs, c, r) == Some(c.(count := c.count + 1))
  {
    hide EffectAllowed, ReadyToSucceed;
  }

  /** A time at which the control of a backed step is valid. */
  ghost function GoodTime(c: Story, s: Id): Time
    requires Backed(c, s)
  {
    c.controls[c.retained[s].permit.binding.parent.value].binding.notBefore
  }

  lemma BackedIsAllowed(digest: Digest, c: Story, r: Receipt)
    requires Filed(digest, c) && Backed(c, r.step) && r.validTime == GoodTime(c, r.step)
    ensures EffectAllowed(c, r)
  {
    hide IdOf, CeilingOk, DelegationOk;
    assert PermitOk(digest, c.controls[c.retained[r.step].permit.binding.parent.value]);
  }

  lemma BackedTells(digest: Digest, proofs: Proofs, c: Story, r: Receipt)
    requires Ordered(digest, c) && Backed(c, r.step) && r.validTime == GoodTime(c, r.step)
    requires r.kind.ArtifactStored? || r.kind.StepCompleted?
    ensures Tell(digest, proofs, c, r) == Some(c.(count := c.count + 1))
  {
    hide Filed, Hangs, EffectAllowed, ReadyToSucceed, Backed, GoodTime;
    BackedIsAllowed(digest, c, r);
  }

  /** The evidence that closes what a step holds. */
  ghost function ClosingEvidence(c: Story, p: Permit): Evidence {
    Evidence(p, AllocatedTo(c, IdOf(p)), Closed(p.binding.issuedAt, Operator))
  }

  lemma ClosingBinds(digest: Digest, proofs: Proofs, r: Receipt, p: Permit, allocations: map<PermitId, Budget>)
    requires r.kind == PermitRevoked && |r.artifacts| == 1 && r.artifacts[0] in proofs.evidence && r.lineage == LINEAGE
    requires proofs.evidence[r.artifacts[0]] == Evidence(p, allocations, Closed(p.binding.issuedAt, Operator))
    requires PermitOk(digest, p) && r.validTime == p.binding.issuedAt && r.run == p.binding.run && r.step == p.binding.step
    requires r.spec == p.binding.actionDigest && r.args == p.binding.argsDigest
    ensures Binds(digest, proofs, r)
  {
    hide PermitOk, IdOf;
  }

  lemma RevokingTells(digest: Digest, proofs: Proofs, l: Life, c: Story, s: Id, a: Descriptor)
    requires l.run.Some? && Agrees(l, c) && Ordered(digest, c) && In(l, s, Permitted)
    requires a in proofs.evidence && proofs.evidence[a] == ClosingEvidence(c, c.retained[s].permit)
    ensures var b := c.retained[s].permit.binding;
            Tell(digest, proofs, c, Made(l, s, PermitRevoked, b.issuedAt, b.actionDigest, b.argsDigest, [a], Ok)).Some?
  {
    hide Filed, PermitOk, IdOf, Binds, AllocatedTo;
    var p := c.retained[s].permit;
    var r := Made(l, s, PermitRevoked, p.binding.issuedAt, p.binding.actionDigest, p.binding.argsDigest, [a], Ok);
    assert Hangs(digest, c, p);
    ClosingBinds(digest, proofs, r, p, AllocatedTo(c, IdOf(p)));
    assert Proof(proofs, r) == ClosingEvidence(c, p);
  }

  const ANYTHING := EffectScope("effect", [], [], false)
  const UNIT := Budget(1, 1, 1)

  /** A control of its own for a step that has none. */
  function OwnControl(run: Id, step: Id): Permit {
    Permit(Binding("actor", "", ANYTHING, UNIT, "v", None, None, 0, 0, 1, run, step, "tool", ""), Control,
      Some(Ceiling("actor", "v", run, ControlToEffect, ["tool"], [Action("tool", "", "", ANYTHING, [])], UNIT, 0, 1)), None, [])
  }

  lemma OwnControlOk(digest: Digest, run: Id, step: Id)
    ensures PermitOk(digest, OwnControl(run, step))
  {
  }

  lemma IssuingTells(digest: Digest, proofs: Proofs, l: Life, c: Story, s: Id, a: Descriptor)
    requires l.run.Some? && Agrees(l, c) && Ordered(digest, c) && In(l, s, Started)
    requires a in proofs.evidence
    requires proofs.evidence[a] == Evidence(OwnControl(l.run.value, s), map[], EvidenceState.Open)
    ensures Tell(digest, proofs, c, Made(l, s, PermitIssued, 0, "", "", [a], Ok)).Some?
  {
    hide PermitOk, IdOf;
    var p, r := OwnControl(l.run.value, s), Made(l, s, PermitIssued, 0, "", "", [a], Ok);
    OwnControlOk(digest, l.run.value, s);
    StepInId(p);
    assert IdOf(p) !in c.controls;
    assert Proven(proofs, r) && Proof(proofs, r).permit == p;
    assert Binds(digest, proofs, r);
  }

  // ----- evidence that is not there yet -----

  lemma {:induction false} LongerThanAll(keys: set<Descriptor>) returns (n: nat)
    ensures forall a :: a in keys ==> |a.owner| < n
  {
    if keys == {} {
      n := 0;
    } else {
      var a :| a in keys;
      n := LongerThanAll(keys - {a});
      n := if n <= |a.owner| then |a.owner| + 1 else n;
    }
  }

  lemma NewEvidence(files: Attachments, e: Evidence) returns (more: Attachments, a: Descriptor)
    ensures Grown(files, more) && more.egress == files.egress && DescriptorOk(a)
    ensures a in more.evidence && more.evidence[a] == e
  {
    var n := LongerThanAll(files.evidence.Keys);
    a := Placeholder(seq(n, i => 'a'));
    assert a !in files.evidence;
    PlaceholderOk(a.owner);
    more := files.(evidence := files.evidence[a := e]);
  }

  // ----- on to the end -----

  lemma NoneWedged(l: Life, c: Story)
    requires forall s :: !Wedged(l, c, s)
    ensures !Stranded(l, c)
  {
  }

  lemma TaleAdmits(digest: Digest, files: Attachments, rs: seq<Receipt>)
    requires Tale(digest, files, rs).Some?
    ensures Admitted(files, rs).Some?
  {
  }

  /** Something leads on, and is nearer the end. */
  ghost predicate Onward(digest: Digest, files: Attachments, more: Attachments, rs: seq<Receipt>, l: Life, r: Receipt, s: Id) {
    && Grown(files, more) && Advance(l, r).Some? && Nearer(l, Advance(l, r).value, s)
    && exists d :: OnTheWay(digest, more, rs + [r], Advance(l, r).value, d)
  }

  lemma EndsByFailure(digest: Digest, files: Attachments, rs: seq<Receipt>, l: Life, c: Story, s: Id) returns (r: Receipt)
    requires OnTheWay(digest, files, rs, l, c) && Wedged(l, c, s)
    ensures Onward(digest, files, files, rs, l, r, s)
  {
    hide Advance, Tell, Live, Tale, Ordered, Agrees, LifecycleTheorems.Open, Backed, Admitted;
    assert l.run.Some? by { OpenRun(l); }
    TaleAdmits(digest, files, rs);
    r := Made(l, s, StepFailed, 0, "", "", [], Failure(""));
    FailureEnds(l, s);
    var n, d := Advance(l, r).value, c.(count := c.count + 1);
    QuietTells(digest, ProofsOf(files, rs), c, r);
    SameBacking(c, d);
    forall x ensures !Wedged(n, d, x) {
      assert Wedged(n, d, x) ==> Wedged(l, c, x) && x != s;
    }
    NoneWedged(n, d);
    LeadsOn(digest, files, files, rs, l, c, r);
  }

  lemma GoesOnUnderControl(digest: Digest, files: Attachments, rs: seq<Receipt>, l: Life, c: Story, s: Id) returns (r: Receipt)
    requires OnTheWay(digest, files, rs, l, c) && Underway(l, s) && forall x :: !Wedged(l, c, x)
    ensures Onward(digest, files, files, rs, l, r, s)
  {
    hide Advance, Tell, Live, Tale, Ordered, Agrees, LifecycleTheorems.Open, Backed, Admitted;
    assert l.run.Some? by { OpenRun(l); }
    TaleAdmits(digest, files, rs);
    assert !Wedged(l, c, s);
    var time := GoodTime(c, s);
    if In(l, s, Spent) {
      r := Made(l, s, ArtifactStored, time, "", "", [Placeholder("result")], Ok);
      StoringAdvances(l, s, time);
    } else {
      r := Made(l, s, StepCompleted, time, "", "", [Placeholder(StoredOwner(l, s))], Ok);
      CompletingEnds(l, s, time);
    }
    var n, d := Advance(l, r).value, c.(count := c.count + 1);
    BackedTells(digest, ProofsOf(files, rs), c, r);
    SameBacking(c, d);
    forall x ensures !Wedged(n, d, x) {
      assert Wedged(n, d, x) ==> Wedged(l, c, x) || x == s;
    }
    NoneWedged(n, d);
    LeadsOn(digest, files, files, rs, l, c, r);
  }

  lemma ClosesPermit(digest: Digest, files: Attachments, rs: seq<Receipt>, l: Life, c: Story, s: Id)
    returns (r: Receipt, more: Attachments)
    requires OnTheWay(digest, files, rs, l, c) && In(l, s, Permitted) && forall x :: !Underway(l, x)
    ensures Onward(digest, files, more, rs, l, r, s)
  {
    hide Advance, Tell, Live, Tale, Ordered, LifecycleTheorems.Open, Backed, Admitted, ClosingEvidence, Grown;
    assert l.run.Some? by { OpenRun(l); }
    TaleAdmits(digest, files, rs);
    var b, a := c.retained[s].permit.binding, Placeholder("");
    more, a := NewEvidence(files, ClosingEvidence(c, c.retained[s].permit));
    r := Made(l, s, PermitRevoked, b.issuedAt, b.actionDigest, b.argsDigest, [a], Ok);
    RevokingEnds(l, s, b.issuedAt, b.actionDigest, b.argsDigest, a);
    var proofs := Proofs(more.evidence, Admitted(files, rs).value);
    RevokingTells(digest, proofs, l, c, s, a);
    forall x ensures !Underway(Advance(l, r).value, x) { assert !Underway(l, x); }
    NoneWedged(Advance(l, r).value, Tell(digest, proofs, c, r).value);
    LeadsOn(digest, files, more, rs, l, c, r);
  }

  lemma OpensPermit(digest: Digest, files: Attachments, rs: seq<Receipt>, l: Life, c: Story, s: Id)
    returns (r: Receipt, more: Attachments)
    requires OnTheWay(digest, files, rs, l, c) && In(l, s, Started) && forall x :: !Underway(l, x)
    ensures Onward(digest, files, more, rs, l, r, s)
  {
    hide Advance, Tell, Live, Tale, Ordered, Agrees, LifecycleTheorems.Open, Backed, Admitted, OwnControl, Grown;
    assert l.run.Some? by { OpenRun(l); }
    TaleAdmits(digest, files, rs);
    var a;
    more, a := NewEvidence(files, Evidence(OwnControl(l.run.value, s), map[], EvidenceState.Open));
    r := Made(l, s, PermitIssued, 0, "", "", [a], Ok);
    IssuingAdvances(l, s, a);
    var proofs := Proofs(more.evidence, Admitted(files, rs).value);
    IssuingTells(digest, proofs, l, c, s, a);
    forall x ensures !Underway(Advance(l, r).value, x) { assert !Underway(l, x); }
    NoneWedged(Advance(l, r).value, Tell(digest, proofs, c, r).value);
    LeadsOn(digest, files, more, rs, l, c, r);
  }

  lemma SameBacking(c: Story, d: Story)
    requires d == c.(count := d.count)
    ensures forall x :: Backed(d, x) == Backed(c, x)
  {
  }

  lemma Cancels(digest: Digest, files: Attachments, rs: seq<Receipt>, l: Life, c: Story) returns (r: Receipt)
    requires OnTheWay(digest, files, rs, l, c) && l.terminal.None? && forall x :: !Underway(l, x)
    ensures Advance(l, r).Some? && Advance(l, r).value.terminal.Some? && Advance(l, r).value.steps == l.steps
    ensures exists d :: OnTheWay(digest, files, rs + [r], Advance(l, r).value, d)
  {
    hide Advance, Tell, Live, Tale, Ordered, Agrees, LifecycleTheorems.Open, Backed, Admitted;
    assert l.run.Some? by { OpenRun(l); }
    TaleAdmits(digest, files, rs);
    r := Made(l, "", ParentCancelled, 0, "", "", [], Cancelled(""));
    CancellingAdvances(l);
    QuietTells(digest, ProofsOf(files, rs), c, r);
    forall x ensures !Underway(Advance(l, r).value, x) { assert !Underway(l, x); }
    NoneWedged(Advance(l, r).value, c.(count := c.count + 1));
    LeadsOn(digest, files, files, rs, l, c, r);
  }

  lemma Finalizes(digest: Digest, files: Attachments, rs: seq<Receipt>, l: Life, c: Story)
    requires OnTheWay(digest, files, rs, l, c) && l.terminal.Some? && forall s :: s in l.steps ==> l.steps[s] == Complete
    ensures CanFinish(digest, files, rs)
  {
    hide Advance, Tell, Live, Tale, Ordered, Agrees, LifecycleTheorems.Open, Backed, Admitted;
    assert l.run.Some? by { OpenRun(l); }
    TaleAdmits(digest, files, rs);
    var r := Made(l, "", RunFinalized, 0, "", "", [], VerdictOf(l.terminal.value, ""));
    FinalizingEnds(l);
    QuietTells(digest, ProofsOf(files, rs), c, r);
    LiveMore(rs, r);
    assert Grown(files, files);
    TaleMore(digest, files, files, rs, r);
    assert Concluded(digest, files, rs + [r]);
  }

  lemma {:induction false} Finish(digest: Digest, files: Attachments, rs: seq<Receipt>, l: Life, c: Story)
    requires OnTheWay(digest, files, rs, l, c)
    ensures CanFinish(digest, files, rs)
    decreases Sum(l.steps, Weight()), if l.terminal.None? then 1 else 0
  {
    hide Advance, OnTheWay, Sum, Weight, CanFinish, Wedged, Grown;
    var r, more := Receipt("", "", RunStarted, 0, [], "", "", [], Ok), files;
    if s :| Wedged(l, c, s) {
      r := EndsByFailure(digest, files, rs, l, c, s);
      GoOn(digest, files, files, rs, l, r, s);
    } else if s :| Underway(l, s) {
      r := GoesOnUnderControl(digest, files, rs, l, c, s);
      GoOn(digest, files, files, rs, l, r, s);
    } else if s :| In(l, s, Permitted) {
      r, more := ClosesPermit(digest, files, rs, l, c, s);
      GoOn(digest, files, more, rs, l, r, s);
    } else if s :| In(l, s, Started) {
      r, more := OpensPermit(digest, files, rs, l, c, s);
      GoOn(digest, files, more, rs, l, r, s);
    } else if l.terminal.None? {
      r := Cancels(digest, files, rs, l, c);
      var d :| OnTheWay(digest, files, rs + [r], Advance(l, r).value, d);
      Finish(digest, files, rs + [r], Advance(l, r).value, d);
      GrownSelf(files);
      ThenCan(digest, files, files, rs, r);
    } else {
      forall s | s in l.steps ensures l.steps[s] == Complete { EveryState(l, s); }
      Finalizes(digest, files, rs, l, c);
    }
  }

  lemma GoOn(digest: Digest, files: Attachments, more: Attachments, rs: seq<Receipt>, l: Life, r: Receipt, s: Id)
    requires Onward(digest, files, more, rs, l, r, s)
    ensures CanFinish(digest, files, rs)
    decreases Sum(l.steps, Weight()), if l.terminal.None? then 1 else 0, 0
  {
    hide OnTheWay, Sum, Weight, CanFinish, Grown;
    var n := Advance(l, r).value;
    var d :| OnTheWay(digest, more, rs + [r], n, d);
    FewerLeft(l, n, s);
    Finish(digest, more, rs + [r], n, d);
    ThenCan(digest, files, more, rs, r);
  }

  lemma GrownSelf(files: Attachments)
    ensures Grown(files, files)
  {
  }

  lemma EveryState(l: Life, s: Id)
    requires s in l.steps && !Underway(l, s) && !In(l, s, Permitted) && !In(l, s, Started)
    ensures l.steps[s] == Complete
  {
  }

  // ----- the theorem -----

  lemma StrandedCannot(digest: Digest, files: Attachments, rs: seq<Receipt>)
    requires Live(rs).Some? && Tale(digest, files, rs).Some? && !Live(rs).value.finalized
    requires Stranded(Live(rs).value, Tale(digest, files, rs).value)
    ensures !CanFinish(digest, files, rs)
  {
    hide Live, Told, Stranded, Admitted;
    forall more: Attachments, ext: seq<Receipt> | Grown(files, more) ensures !Concluded(digest, more, rs + ext) {
      if Concluded(digest, more, rs + ext) {
        var all := rs + ext;
        var proofs := ProofsOf(more, all);
        assert all[..|rs|] == rs;
        ToldPrefix(digest, proofs, all, |rs|);
        SameTale(digest, ProofsOf(files, rs), proofs, rs);
        StrandedForever(digest, proofs, all, |rs|);
      }
    }
  }

  lemma ToldPrefix(digest: Digest, proofs: Proofs, rs: seq<Receipt>, n: nat)
    requires Told(digest, proofs, rs).Some? && n <= |rs|
    ensures Told(digest, proofs, rs[..n]).Some?
  {
    if Told(digest, proofs, rs[..n]).None? { ToldStuck(digest, proofs, rs, n); }
  }

  /**
   * A begun and unfinished transcript that lifecycle and continuity accept can be
   * finished, with evidence added to what is there, exactly when it is not stranded.
   */
  lemma FinishableIff(digest: Digest, files: Attachments, rs: seq<Receipt>)
    requires rs != [] && Live(rs).Some? && !Live(rs).value.finalized && Continuous(digest, files, rs)
    ensures CanFinish(digest, files, rs) <==> !Stranded(Live(rs).value, Tale(digest, files, rs).value)
  {
    hide Live, Advance, Told, Stranded, CanFinish, Agrees, Ordered;
    var l, c := Live(rs).value, Tale(digest, files, rs).value;
    if Stranded(l, c) {
      StrandedCannot(digest, files, rs);
    } else {
      JointlyOrdered(digest, ProofsOf(files, rs), rs);
      LifeTells(rs);
      SameRun(rs, |rs| - 1);
      assert rs[..|rs|] == rs;
      Finish(digest, files, rs, l, c);
    }
  }
}
