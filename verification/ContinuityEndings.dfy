/**
 * Which unfinished transcripts can still be finished when the lifecycle and the
 * permit continuity have to agree: all but the stranded ones.
 */
module ContinuityEndings {
  import opened Common
  import opened PermitModel
  import opened LifecycleModel
  import opened ContinuityModel
  import opened ContinuityTheorems

  /** The control of this step's consumed effect is open. */
  ghost predicate Backed(c: Story, s: Id) {
    && s in c.retained
    && var p := c.retained[s];
    && p.permit.purpose == Effect && p.state == IsConsumed && p.permit.binding.parent.Some?
    && var q := p.permit.binding.parent.value;
    q in c.controls && q in c.states && c.states[q] == EvidenceState.Open
  }

  predicate Underway(l: Life, s: Id) {
    In(l, s, Spent) || In(l, s, Stored)
  }

  /** The step can neither store nor complete any more; only a failure ends it. */
  ghost predicate Wedged(l: Life, c: Story, s: Id) {
    Underway(l, s) && !Backed(c, s)
  }

  /** More steps are stuck than there are causes left to end them. */
  ghost predicate Stranded(l: Life, c: Story) {
    || (exists s, t :: s != t && Wedged(l, c, s) && Wedged(l, c, t))
    || (l.terminal.Some? && exists s :: Wedged(l, c, s))
  }

  // ----- how steps move -----

  /** The state a receipt moves its step to, if it moves one. */
  function MovesTo(kind: Kind): Option<StepState> {
    match kind
    case StepStarted => Some(Started)
    case PermitIssued => Some(Permitted)
    case PermitConsumed => Some(Spent)
    case ArtifactStored => Some(Stored)
    case PermitRejected => Some(Complete)
    case PermitRevoked => Some(Complete)
    case StepCompleted => Some(Complete)
    case StepFailed => Some(Complete)
    case _ => None
  }

  predicate MovesFrom(l: Life, r: Receipt) {
    match r.kind
    case StepStarted => r.step !in l.steps
    case PermitIssued => In(l, r.step, Started)
    case PermitConsumed => In(l, r.step, Permitted)
    case ArtifactStored => Underway(l, r.step)
    case PermitRejected => In(l, r.step, Permitted)
    case PermitRevoked => In(l, r.step, Permitted)
    case StepCompleted => In(l, r.step, Stored)
    case StepFailed => l.terminal.None? && (In(l, r.step, Started) || Underway(l, r.step))
    case _ => true
  }

  lemma StepsMove(l: Life, r: Receipt)
    requires Advance(l, r).Some?
    ensures var n := Advance(l, r).value;
            && MovesFrom(l, r) && n.run == Some(r.run) && (l.run.Some? ==> l.run == n.run)
            && n.steps == if MovesTo(r.kind).None? then l.steps else l.steps[r.step := MovesTo(r.kind).value]
  {
    hide MaterialOk, Owners, FailureFits;
    if r.kind == StepFailed { FailureNeeds(l.(run := Some(r.run)), r); }
  }

  lemma FailureNeeds(l: Life, r: Receipt)
    requires r.kind == StepFailed && Accept(l, r).Some?
    ensures l.terminal.None? && (In(l, r.step, Started) || Underway(l, r.step)) && Accept(l, r).value.terminal.Some?
  {
  }

  lemma CausesStay(l: Life, r: Receipt)
    requires Advance(l, r).Some?
    ensures var n := Advance(l, r).value;
            && (l.terminal.Some? ==> n.terminal.Some?) && (r.kind == StepFailed ==> n.terminal.Some?)
            && !l.finalized && (n.finalized <==> r.kind == RunFinalized)
            && (n.finalized ==> forall s :: s in l.steps ==> l.steps[s] == Complete)
  {
    hide MaterialOk, Owners;
  }

  // ----- lifecycle and story agree -----

  /** What is retained is what the steps say, under the permits of this run. */
  ghost predicate Agrees(l: Life, c: Story) {
    && (forall s :: s in c.retained ==>
          && s in l.steps && c.retained[s].permit.binding.step == s && l.run == Some(c.retained[s].permit.binding.run))
    && (forall s :: In(l, s, Started) ==> s !in c.retained)
    && (forall s :: In(l, s, Permitted) ==> s in c.retained && c.retained[s].state == IsIssued)
    && (forall s :: Underway(l, s) ==> s in c.retained && c.retained[s].state == IsConsumed)
  }

  /** Controls are filed under their ids, each was issued for a step. */
  ghost predicate Filed(digest: Digest, c: Story) {
    && c.states.Keys == c.controls.Keys
    && forall q :: q in c.controls ==> PermitOk(digest, c.controls[q]) && IdOf(c.controls[q]) == q && q.body.step in c.retained
  }

  /** A retained control is filed, and so is the control of a retained effect. */
  ghost predicate Hangs(digest: Digest, c: Story, p: Permit) {
    && PermitOk(digest, p)
    && (p.purpose == Control ==> IdOf(p) in c.controls)
    && (p.purpose == Effect ==> p.binding.parent.Some? && p.binding.parent.value in c.controls)
  }

  ghost predicate Ordered(digest: Digest, c: Story) {
    Filed(digest, c) && forall s :: s in c.retained ==> Hangs(digest, c, c.retained[s].permit)
  }

  lemma BoundTo(digest: Digest, proofs: Proofs, c: Story, r: Receipt)
    requires Tell(digest, proofs, c, r).Some? && PermitEvent(r.kind)
    ensures Proven(proofs, r)
    ensures var p := Proof(proofs, r).permit; PermitOk(digest, p) && p.binding.run == r.run && p.binding.step == r.step
  {
    hide PermitOk, IdOf, EdgeOk, AllocationsFit, TellIssued, TellEnded;
  }

  ghost predicate Steps(l: Life, n: Life, r: Receipt) {
    && n.run == Some(r.run) && (l.run.Some? ==> l.run == n.run) && MovesFrom(l, r)
    && n.steps == if MovesTo(r.kind).None? then l.steps else l.steps[r.step := MovesTo(r.kind).value]
  }

  lemma AgreesIssued(l: Life, n: Life, c: Story, d: Story, r: Receipt, p: Permit)
    requires Agrees(l, c) && Steps(l, n, r) && r.kind == PermitIssued && p.binding.run == r.run && p.binding.step == r.step
    requires d.retained == c.retained[r.step := Retained(p, IsIssued)]
    ensures Agrees(n, d)
  {
  }

  lemma AgreesEnded(l: Life, n: Life, c: Story, d: Story, r: Receipt, p: Permit)
    requires Agrees(l, c) && Steps(l, n, r) && PermitEvent(r.kind) && r.kind != PermitIssued
    requires p.binding.run == r.run && p.binding.step == r.step
    requires r.step in c.retained && d.retained == c.retained[r.step := Retained(p, ObservedAs(r.kind))]
    ensures Agrees(n, d)
  {
  }

  lemma AgreesRest(l: Life, n: Life, c: Story, d: Story, r: Receipt)
    requires Agrees(l, c) && Steps(l, n, r) && !PermitEvent(r.kind) && d.retained == c.retained
    ensures Agrees(n, d)
  {
  }

  lemma AgreesMore(digest: Digest, proofs: Proofs, l: Life, c: Story, r: Receipt)
    requires Agrees(l, c) && Advance(l, r).Some? && Tell(digest, proofs, c, r).Some?
    ensures Agrees(Advance(l, r).value, Tell(digest, proofs, c, r).value)
  {
    hide Advance, Tell, PermitOk, AllocationsFit, Binds, Agrees;
    var n, d := Advance(l, r).value, Tell(digest, proofs, c, r).value;
    StepsMove(l, r);
    if PermitEvent(r.kind) {
      BoundTo(digest, proofs, c, r);
      if r.kind.PermitIssued? {
        IssueTold(digest, proofs, c, r);
        AgreesIssued(l, n, c, d, r, Proof(proofs, r).permit);
      } else {
        EndTold(digest, proofs, c, r);
        AgreesEnded(l, n, c, d, r, Proof(proofs, r).permit);
      }
    } else {
      RestTold(digest, proofs, c, r);
      AgreesRest(l, n, c, d, r);
    }
  }

  lemma StepInId(p: Permit)
    ensures IdOf(p).body.step == p.binding.step
  {
  }

  lemma OrderedIssued(digest: Digest, c: Story, d: Story, s: Id, p: Permit)
    requires Ordered(digest, c) && PermitOk(digest, p) && IdOf(p).body.step == s && s !in c.retained
    requires d.retained == c.retained[s := Retained(p, IsIssued)]
    requires p.purpose == Control ==> d.controls == c.controls[IdOf(p) := p] && d.states == c.states[IdOf(p) := EvidenceState.Open]
    requires p.purpose == Effect ==>
      && d.controls == c.controls && d.states == c.states
      && p.binding.parent.Some? && p.binding.parent.value in c.controls
    ensures Ordered(digest, d)
  {
    hide PermitOk, IdOf;
    forall x | x in d.retained ensures Hangs(digest, d, d.retained[x].permit) {
      if x != s { assert Hangs(digest, c, c.retained[x].permit); }
    }
  }

  lemma OrderedEnded(digest: Digest, c: Story, d: Story, s: Id, p: Permit, ended: Observed, state: EvidenceState)
    requires Ordered(digest, c) && s in c.retained && c.retained[s].permit == p && d.controls == c.controls
    requires d.retained == c.retained[s := Retained(p, ended)]
    requires d.states == c.states || (p.purpose == Control && d.states == c.states[IdOf(p) := state])
    ensures Ordered(digest, d)
  {
    hide PermitOk, IdOf;
    assert Hangs(digest, c, p);
    forall x | x in d.retained ensures Hangs(digest, d, d.retained[x].permit) {
      assert Hangs(digest, c, c.retained[x].permit);
    }
  }

  lemma OrderedRest(digest: Digest, c: Story, d: Story)
    requires Ordered(digest, c) && d == c.(count := d.count)
    ensures Ordered(digest, d)
  {
    hide PermitOk, IdOf;
    forall x | x in d.retained ensures Hangs(digest, d, d.retained[x].permit) {
      assert Hangs(digest, c, c.retained[x].permit);
    }
  }

  lemma OrderedMore(digest: Digest, proofs: Proofs, c: Story, r: Receipt)
    requires Ordered(digest, c) && Tell(digest, proofs, c, r).Some?
    ensures Ordered(digest, Tell(digest, proofs, c, r).value)
  {
    hide Tell, PermitOk, AllocationsFit, IdOf, Binds, Ordered;
    var d := Tell(digest, proofs, c, r).value;
    if PermitEvent(r.kind) {
      BoundTo(digest, proofs, c, r);
      var e := Proof(proofs, r);
      StepInId(e.permit);
      if r.kind.PermitIssued? {
        IssueTold(digest, proofs, c, r);
        OrderedIssued(digest, c, d, r.step, e.permit);
      } else {
        EndTold(digest, proofs, c, r);
        OrderedEnded(digest, c, d, r.step, e.permit, ObservedAs(r.kind), e.state);
      }
    } else {
      RestTold(digest, proofs, c, r);
      OrderedRest(digest, c, d);
    }
  }

  lemma {:induction false} JointlyOrdered(digest: Digest, proofs: Proofs, rs: seq<Receipt>)
    requires Live(rs).Some? && Told(digest, proofs, rs).Some?
    ensures Agrees(Live(rs).value, Told(digest, proofs, rs).value) && Ordered(digest, Told(digest, proofs, rs).value)
  {
    hide Advance, Tell, Agrees, Ordered;
    if rs == [] {
      assert Agrees(UNBORN, BLANK) && Ordered(digest, BLANK) by { NothingAgrees(digest); }
    } else {
      var front := rs[..|rs| - 1];
      JointlyOrdered(digest, proofs, front);
      AgreesMore(digest, proofs, Live(front).value, Told(digest, proofs, front).value, rs[|rs| - 1]);
      OrderedMore(digest, proofs, Told(digest, proofs, front).value, rs[|rs| - 1]);
    }
  }

  lemma NothingAgrees(digest: Digest)
    ensures Agrees(UNBORN, BLANK) && Ordered(digest, BLANK)
  {
  }

  // ----- stranded for good -----

  lemma UnderwayStays(l: Life, n: Life, r: Receipt, s: Id)
    requires Steps(l, n, r) && Underway(l, s) && !((r.kind == StepFailed || r.kind == StepCompleted) && r.step == s)
    ensures Underway(n, s) && (PermitEvent(r.kind) ==> r.step != s)
  {
  }

  /** Whoever has no open control gets none: a control that is issued is new, and none is opened again. */
  lemma UnbackedStays(digest: Digest, proofs: Proofs, c: Story, r: Receipt, s: Id)
    requires Tell(digest, proofs, c, r).Some? && PermitEvent(r.kind) && r.step != s
    requires s in c.retained && Hangs(digest, c, c.retained[s].permit) && Filed(digest, c) && !Backed(c, s)
    ensures !Backed(Tell(digest, proofs, c, r).value, s)
  {
    hide Tell, PermitOk, AllocationsFit, IdOf, Binds;
    if r.kind.PermitIssued? {
      IssueTold(digest, proofs, c, r);
    } else {
      EndTold(digest, proofs, c, r);
      EndedIsNotOpen(r.kind, Proof(proofs, r).state);
    }
  }

  lemma EndedIsNotOpen(kind: Kind, state: EvidenceState)
    requires StateFits(kind, state) && kind != PermitIssued
    ensures state != EvidenceState.Open
  {
  }

  /** A step that is stuck stays stuck, unless this receipt is its failure. */
  lemma WedgedStays(digest: Digest, proofs: Proofs, l: Life, c: Story, r: Receipt, s: Id)
    requires Ordered(digest, c) && Agrees(l, c) && Wedged(l, c, s)
    requires Advance(l, r).Some? && Tell(digest, proofs, c, r).Some? && !(r.kind == StepFailed && r.step == s)
    ensures Wedged(Advance(l, r).value, Tell(digest, proofs, c, r).value, s)
  {
    hide Advance, Tell, Filed, Hangs, Underway;
    StepsMove(l, r);
    assert s in c.retained && Hangs(digest, c, c.retained[s].permit);
    if PermitEvent(r.kind) {
      UnderwayStays(l, Advance(l, r).value, r, s);
      UnbackedStays(digest, proofs, c, r, s);
    } else {
      RestTold(digest, proofs, c, r);
      UnderwayStays(l, Advance(l, r).value, r, s);
    }
  }

  lemma StrandedStays(digest: Digest, proofs: Proofs, l: Life, c: Story, r: Receipt)
    requires Ordered(digest, c) && Agrees(l, c) && Stranded(l, c)
    requires Advance(l, r).Some? && Tell(digest, proofs, c, r).Some?
    ensures Stranded(Advance(l, r).value, Tell(digest, proofs, c, r).value) && !Advance(l, r).value.finalized
  {
    hide Advance, Tell, Ordered, Agrees;
    var n, d := Advance(l, r).value, Tell(digest, proofs, c, r).value;
    CausesStay(l, r);
    StepsMove(l, r);
    forall s | Wedged(l, c, s) && !(r.kind == StepFailed && r.step == s) ensures Wedged(n, d, s) {
      WedgedStays(digest, proofs, l, c, r, s);
    }
  }

  lemma {:induction false} StrandedForever(digest: Digest, proofs: Proofs, rs: seq<Receipt>, n: nat)
    requires Live(rs).Some? && Told(digest, proofs, rs).Some? && n <= |rs|
    requires Live(rs[..n]).Some? && Told(digest, proofs, rs[..n]).Some?
    requires Stranded(Live(rs[..n]).value, Told(digest, proofs, rs[..n]).value) && !Live(rs[..n]).value.finalized
    ensures Stranded(Live(rs).value, Told(digest, proofs, rs).value) && !Live(rs).value.finalized
    decreases |rs|
  {
    hide Advance, Tell, Stranded, Agrees, Ordered;
    if n == |rs| {
      assert rs[..n] == rs;
    } else {
      var front := rs[..|rs| - 1];
      assert front[..n] == rs[..n];
      StrandedForever(digest, proofs, front, n);
      JointlyOrdered(digest, proofs, front);
      StrandedStays(digest, proofs, Live(front).value, Told(digest, proofs, front).value, rs[|rs| - 1]);
    }
  }

  // ----- evidence may be added -----

  ghost predicate Grown(files: Attachments, more: Attachments) {
    && (forall a :: a in files.evidence ==> a in more.evidence && more.evidence[a] == files.evidence[a])
    && (forall a :: a in files.egress ==> a in more.egress && more.egress[a] == files.egress[a])
  }

  ghost function ProofsOf(files: Attachments, rs: seq<Receipt>): Proofs
    requires Admitted(files, rs).Some?
  {
    Proofs(files.evidence, Admitted(files, rs).value)
  }

  /** The story of a transcript, if it is continuous. */
  ghost function Tale(digest: Digest, files: Attachments, rs: seq<Receipt>): Option<Story> {
    if Admitted(files, rs).None? then None else Told(digest, ProofsOf(files, rs), rs)
  }

  /** Two collections of proofs that agree on what is there can only tell the same story. */
  lemma SameTelling(digest: Digest, proofs: Proofs, more: Proofs, c: Story, r: Receipt)
    requires forall a :: a in proofs.evidence ==> a in more.evidence && more.evidence[a] == proofs.evidence[a]
    requires Tell(digest, proofs, c, r).Some? && Tell(digest, more, c, r).Some?
    ensures Tell(digest, more, c, r) == Tell(digest, proofs, c, r)
  {
    hide PermitOk, IdOf, DelegationHolds, AllocationsFit, EffectAllowed, ReadyToSucceed, EvidenceOk, EgressCovers;
  }

  lemma {:induction false} SameTale(digest: Digest, proofs: Proofs, more: Proofs, rs: seq<Receipt>)
    requires forall a :: a in proofs.evidence ==> a in more.evidence && more.evidence[a] == proofs.evidence[a]
    requires Told(digest, proofs, rs).Some? && Told(digest, more, rs).Some?
    ensures Told(digest, more, rs) == Told(digest, proofs, rs)
  {
    hide Tell;
    if rs != [] {
      var front := rs[..|rs| - 1];
      SameTale(digest, proofs, more, front);
      SameTelling(digest, proofs, more, Told(digest, proofs, front).value, rs[|rs| - 1]);
    }
  }

  /** More evidence does not silence a receipt. */
  lemma StillTells(digest: Digest, proofs: Proofs, more: Proofs, c: Story, r: Receipt)
    requires forall a :: a in proofs.evidence ==> a in more.evidence && more.evidence[a] == proofs.evidence[a]
    requires more.admitted == proofs.admitted && Tell(digest, proofs, c, r).Some?
    ensures Tell(digest, more, c, r) == Tell(digest, proofs, c, r)
  {
    hide PermitOk, IdOf, DelegationHolds, AllocationsFit, EffectAllowed, ReadyToSucceed, EvidenceOk;
  }

  lemma {:induction false} StillTold(digest: Digest, proofs: Proofs, more: Proofs, rs: seq<Receipt>)
    requires forall a :: a in proofs.evidence ==> a in more.evidence && more.evidence[a] == proofs.evidence[a]
    requires more.admitted == proofs.admitted && Told(digest, proofs, rs).Some?
    ensures Told(digest, more, rs) == Told(digest, proofs, rs)
  {
    hide Tell;
    if rs != [] {
      var front := rs[..|rs| - 1];
      StillTold(digest, proofs, more, front);
      StillTells(digest, proofs, more, Told(digest, proofs, front).value, rs[|rs| - 1]);
    }
  }

  lemma {:induction false} SameAdmissions(files: Attachments, more: Attachments, rs: seq<Receipt>)
    requires more.egress == files.egress
    ensures Admitted(more, rs) == Admitted(files, rs)
  {
    if rs != [] { SameAdmissions(files, more, rs[..|rs| - 1]); }
  }

  /** One more receipt, which is no egress admission, under one more piece of evidence. */
  lemma TaleMore(digest: Digest, files: Attachments, more: Attachments, rs: seq<Receipt>, r: Receipt)
    requires Grown(files, more) && more.egress == files.egress && Tale(digest, files, rs).Some? && r.kind != ProviderEgressAdmitted
    ensures Admitted(more, rs) == Admitted(files, rs)
    ensures Tale(digest, more, rs + [r])
         == Tell(digest, Proofs(more.evidence, Admitted(files, rs).value), Tale(digest, files, rs).value, r)
  {
    hide Tell;
    SameAdmissions(files, more, rs);
    var all := rs + [r];
    assert all[..|all| - 1] == rs;
    assert Admitted(more, all) == Admitted(more, rs);
    StillTold(digest, ProofsOf(files, rs), Proofs(more.evidence, Admitted(files, rs).value), rs);
  }
}
