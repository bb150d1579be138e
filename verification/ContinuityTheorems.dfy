/** A successful transcript closes its authority exactly. */
module ContinuityTheorems {
  import opened Common
  import opened PermitModel
  import opened LifecycleModel
  import opened LifecycleTheorems
  import opened ContinuityModel

  // ----- taking the fold apart -----

  lemma ToldAt(digest: Digest, proofs: Proofs, rs: seq<Receipt>, i: nat)
    requires Told(digest, proofs, rs).Some? && i < |rs|
    ensures Told(digest, proofs, rs[..i]).Some?
    ensures Told(digest, proofs, rs[..i + 1]).Some?
    ensures Told(digest, proofs, rs[..i + 1]) == Tell(digest, proofs, Told(digest, proofs, rs[..i]).value, rs[i])
  {
    hide Tell;
    if Told(digest, proofs, rs[..i + 1]).None? { ToldStuck(digest, proofs, rs, i + 1); }
    assert rs[..i + 1][..i] == rs[..i];
  }

  ghost function StoryAt(digest: Digest, proofs: Proofs, rs: seq<Receipt>, i: nat): Story
    requires Told(digest, proofs, rs).Some? && i <= |rs|
  {
    if i == |rs| then Told(digest, proofs, rs).value
    else ToldAt(digest, proofs, rs, i); Told(digest, proofs, rs[..i]).value
  }

  lemma StoryMoves(digest: Digest, proofs: Proofs, rs: seq<Receipt>, i: nat)
    requires Told(digest, proofs, rs).Some? && i < |rs|
    ensures Tell(digest, proofs, StoryAt(digest, proofs, rs, i), rs[i]) == Some(StoryAt(digest, proofs, rs, i + 1))
  {
    hide Tell, Told;
    ToldAt(digest, proofs, rs, i);
    assert rs[..|rs|] == rs;
  }

  lemma StoryBegins(digest: Digest, proofs: Proofs, rs: seq<Receipt>)
    requires Told(digest, proofs, rs).Some?
    ensures StoryAt(digest, proofs, rs, 0) == BLANK
  {
  }

  // ----- what happened, by position -----

  ghost predicate IssuedAt(proofs: Proofs, rs: seq<Receipt>, i: nat, p: Permit) {
    i < |rs| && rs[i].kind == PermitIssued && Proven(proofs, rs[i]) && Proof(proofs, rs[i]).permit == p
  }

  ghost predicate ConsumedAt(proofs: Proofs, rs: seq<Receipt>, i: nat, p: Permit) {
    i < |rs| && rs[i].kind == PermitConsumed && Proven(proofs, rs[i]) && Proof(proofs, rs[i]).permit == p
  }

  /** The orderly closure of a control. */
  ghost predicate ClosedAt(proofs: Proofs, rs: seq<Receipt>, i: nat, p: Permit) {
    && i < |rs| && rs[i].kind == PermitRevoked && Proven(proofs, rs[i])
    && Proof(proofs, rs[i]).permit == p && Proof(proofs, rs[i]).state.Closed?
    && Proof(proofs, rs[i]).state.reason == Operator
  }

  ghost predicate EffectOf(p: Permit, control: PermitId) {
    p.purpose == Effect && p.binding.parent == Some(control)
  }

  ghost predicate EffectIssuedAt(proofs: Proofs, rs: seq<Receipt>, i: nat, control: PermitId, x: PermitId) {
    && i < |rs| && rs[i].kind == PermitIssued && Proven(proofs, rs[i])
    && EffectOf(Proof(proofs, rs[i]).permit, control) && IdOf(Proof(proofs, rs[i]).permit) == x
  }

  // ----- single steps of the story -----

  lemma IssueTold(digest: Digest, proofs: Proofs, c: Story, r: Receipt)
    requires Tell(digest, proofs, c, r).Some? && r.kind == PermitIssued
    ensures Proven(proofs, r) && PermitOk(digest, Proof(proofs, r).permit)
    ensures var n, p := Tell(digest, proofs, c, r).value, Proof(proofs, r).permit;
            r.step !in c.retained && n.retained == c.retained[r.step := Retained(p, IsIssued)]
    ensures var n, p := Tell(digest, proofs, c, r).value, Proof(proofs, r).permit;
            p.purpose == Control ==>
              && IdOf(p) !in c.controls && n.controls == c.controls[IdOf(p) := p]
              && n.states == c.states[IdOf(p) := Open] && n.shares == c.shares
    ensures var n, p := Tell(digest, proofs, c, r).value, Proof(proofs, r).permit;
            p.purpose == Effect ==>
              && p.binding.parent.Some? && p.binding.parent.value in c.controls
              && n.controls == c.controls && n.states == c.states
              && var q := p.binding.parent.value;
              && n.shares == c.shares[q := AllocatedTo(c, q)[IdOf(p) := p.binding.budget]]
              && c.controls[q].ceiling.Some? && AllocationsFit(n.shares[q], c.controls[q].ceiling.value.budget)
  {
  }

  lemma EndTold(digest: Digest, proofs: Proofs, c: Story, r: Receipt)
    requires Tell(digest, proofs, c, r).Some? && (r.kind.PermitConsumed? || r.kind.PermitRejected? || r.kind.PermitRevoked?)
    ensures Proven(proofs, r)
    ensures var n, e := Tell(digest, proofs, c, r).value, Proof(proofs, r);
            && StateFits(r.kind, e.state)
            && r.step in c.retained && c.retained[r.step] == Retained(e.permit, IsIssued)
            && n.retained == c.retained[r.step := Retained(e.permit, ObservedAs(r.kind))]
            && n.controls == c.controls && n.shares == c.shares
            && (if r.kind.PermitRevoked? && e.permit.purpose == Control
                then e.allocations == AllocatedTo(c, IdOf(e.permit)) && n.states == c.states[IdOf(e.permit) := e.state]
                else n.states == c.states)
  {
    hide PermitOk, IdOf, EdgeOk, AllocationsFit;
  }

  lemma RestTold(digest: Digest, proofs: Proofs, c: Story, r: Receipt)
    requires Tell(digest, proofs, c, r).Some? && !PermitEvent(r.kind)
    ensures Tell(digest, proofs, c, r).value == c.(count := c.count + 1)
    ensures r.kind.ArtifactStored? || r.kind.StepCompleted? ==> EffectAllowed(c, r)
    ensures r.kind.RunFinalized? && r.outcome.Ok? ==> ReadyToSucceed(c)
  {
    hide PermitOk, IdOf, EdgeOk, AllocationsFit, EffectAllowed, ReadyToSucceed;
  }

  /** All the cases of one receipt. */
  lemma OneTold(digest: Digest, proofs: Proofs, rs: seq<Receipt>, i: nat)
    requires Told(digest, proofs, rs).Some? && i < |rs|
    ensures Tell(digest, proofs, StoryAt(digest, proofs, rs, i), rs[i]) == Some(StoryAt(digest, proofs, rs, i + 1))
    ensures PermitEvent(rs[i].kind) ==> Proven(proofs, rs[i])
  {
    hide Tell, Told, StoryAt;
    StoryMoves(digest, proofs, rs, i);
    var c, r := StoryAt(digest, proofs, rs, i), rs[i];
    if r.kind.PermitIssued? { IssueTold(digest, proofs, c, r); }
    else if PermitEvent(r.kind) { EndTold(digest, proofs, c, r); }
  }

  // ----- the story over positions -----

  ghost predicate IssuedBefore(proofs: Proofs, rs: seq<Receipt>, i: nat, s: Id, p: Permit) {
    exists k: nat :: k < i && IssuedAt(proofs, rs, k, p) && rs[k].step == s
  }

  ghost predicate SpentBefore(proofs: Proofs, rs: seq<Receipt>, i: nat, s: Id, p: Permit) {
    exists k: nat, m: nat :: k < m < i && IssuedAt(proofs, rs, k, p) && rs[k].step == s
      && ConsumedAt(proofs, rs, m, p) && rs[m].step == s
  }

  /** Whatever is retained for a step was issued there and, if it counts as consumed, consumed there. */
  lemma {:induction false} RetainedWas(digest: Digest, proofs: Proofs, rs: seq<Receipt>, i: nat, s: Id)
    requires Told(digest, proofs, rs).Some? && i <= |rs| && s in StoryAt(digest, proofs, rs, i).retained
    ensures var x := StoryAt(digest, proofs, rs, i).retained[s];
            IssuedBefore(proofs, rs, i, s, x.permit) && (x.state == IsConsumed ==> SpentBefore(proofs, rs, i, s, x.permit))
  {
    hide Tell, Told, StoryAt;
    StoryBegins(digest, proofs, rs);
    if i > 0 {
      var c, r := StoryAt(digest, proofs, rs, i - 1), rs[i - 1];
      OneTold(digest, proofs, rs, i - 1);
      if r.kind.PermitIssued? {
        IssueTold(digest, proofs, c, r);
        if s == r.step {
          assert IssuedAt(proofs, rs, i - 1, Proof(proofs, r).permit);
        } else {
          RetainedWas(digest, proofs, rs, i - 1, s);
        }
      } else if PermitEvent(r.kind) {
        EndTold(digest, proofs, c, r);
        RetainedWas(digest, proofs, rs, i - 1, s);
        if s == r.step && r.kind.PermitConsumed? {
          assert ConsumedAt(proofs, rs, i - 1, Proof(proofs, r).permit);
        }
      } else {
        RestTold(digest, proofs, c, r);
        RetainedWas(digest, proofs, rs, i - 1, s);
      }
    }
  }

  lemma {:induction false} IssuedStays(digest: Digest, proofs: Proofs, rs: seq<Receipt>, k: nat, i: nat)
    requires Told(digest, proofs, rs).Some? && k < i <= |rs| && rs[k].kind == PermitIssued
    ensures Proven(proofs, rs[k]) && PermitOk(digest, Proof(proofs, rs[k]).permit)
    ensures var c, p := StoryAt(digest, proofs, rs, i), Proof(proofs, rs[k]).permit;
            && rs[k].step in c.retained && c.retained[rs[k].step].permit == p
            && (p.purpose == Control ==> IdOf(p) in c.controls && c.controls[IdOf(p)] == p && IdOf(p) in c.states)
            && (p.purpose == Effect ==> p.binding.parent.Some? && p.binding.parent.value in c.controls)
    decreases i
  {
    hide Tell, Told, StoryAt, IdOf, AllocationsFit, PermitOk;
    var c, r := StoryAt(digest, proofs, rs, i - 1), rs[i - 1];
    OneTold(digest, proofs, rs, i - 1);
    if k < i - 1 { IssuedStays(digest, proofs, rs, k, i - 1); }
    if r.kind.PermitIssued? {
      IssueTold(digest, proofs, c, r);
    } else if PermitEvent(r.kind) {
      EndTold(digest, proofs, c, r);
    } else {
      RestTold(digest, proofs, c, r);
    }
  }

  lemma {:induction false} ControlWas(digest: Digest, proofs: Proofs, rs: seq<Receipt>, i: nat, q: PermitId)
    requires Told(digest, proofs, rs).Some? && i <= |rs|
    ensures var c := StoryAt(digest, proofs, rs, i);
            && (q in c.controls <==> q in c.states)
            && (q in c.controls ==>
                  && IdOf(c.controls[q]) == q && c.controls[q].purpose == Control
                  && exists k: nat :: k < i && IssuedAt(proofs, rs, k, c.controls[q]))
  {
    hide Tell, Told, StoryAt, IdOf, AllocationsFit, PermitOk;
    StoryBegins(digest, proofs, rs);
    if i > 0 {
      var c, r := StoryAt(digest, proofs, rs, i - 1), rs[i - 1];
      OneTold(digest, proofs, rs, i - 1);
      ControlWas(digest, proofs, rs, i - 1, q);
      if r.kind.PermitIssued? {
        IssueTold(digest, proofs, c, r);
        assert IssuedAt(proofs, rs, i - 1, Proof(proofs, r).permit);
      } else if PermitEvent(r.kind) {
        EndTold(digest, proofs, c, r);
        if r.kind.PermitRevoked? && Proof(proofs, r).permit.purpose == Control {
          RevokedIsControl(digest, proofs, rs, i - 1);
        }
      } else {
        RestTold(digest, proofs, c, r);
      }
    }
  }

  /** A control that is revoked is one that was issued. */
  lemma RevokedIsControl(digest: Digest, proofs: Proofs, rs: seq<Receipt>, v: nat)
    requires Told(digest, proofs, rs).Some? && v < |rs| && rs[v].kind == PermitRevoked
    ensures Proven(proofs, rs[v])
    ensures var c, p := StoryAt(digest, proofs, rs, v), Proof(proofs, rs[v]).permit;
            p.purpose == Control ==> IdOf(p) in c.controls && c.controls[IdOf(p)] == p
  {
    hide Tell, Told, StoryAt, IdOf, PermitOk;
    OneTold(digest, proofs, rs, v);
    var c, p := StoryAt(digest, proofs, rs, v), Proof(proofs, rs[v]).permit;
    EndTold(digest, proofs, c, rs[v]);
    RetainedWas(digest, proofs, rs, v, rs[v].step);
    var k: nat :| k < v && IssuedAt(proofs, rs, k, p) && rs[k].step == rs[v].step;
    IssuedStays(digest, proofs, rs, k, v);
  }

  /** The receipt that closed a control, with the shares as they stood. */
  ghost predicate CloserOf(digest: Digest, proofs: Proofs, rs: seq<Receipt>, v: nat, q: PermitId, state: EvidenceState)
    requires Told(digest, proofs, rs).Some?
  {
    && v < |rs| && rs[v].kind == PermitRevoked && Proven(proofs, rs[v])
    && IdOf(Proof(proofs, rs[v]).permit) == q && Proof(proofs, rs[v]).permit.purpose == Control
    && Proof(proofs, rs[v]).state == state
    && Proof(proofs, rs[v]).allocations == AllocatedTo(StoryAt(digest, proofs, rs, v), q)
  }

  lemma {:induction false} ClosedWas(digest: Digest, proofs: Proofs, rs: seq<Receipt>, i: nat, q: PermitId)
    requires Told(digest, proofs, rs).Some? && i <= |rs|
    requires q in StoryAt(digest, proofs, rs, i).states && StoryAt(digest, proofs, rs, i).states[q] != Open
    ensures exists v: nat :: v < i && CloserOf(digest, proofs, rs, v, q, StoryAt(digest, proofs, rs, i).states[q])
  {
    hide Tell, Told, StoryAt, IdOf, AllocationsFit, PermitOk;
    StoryBegins(digest, proofs, rs);
    if i > 0 {
      var c, r := StoryAt(digest, proofs, rs, i - 1), rs[i - 1];
      OneTold(digest, proofs, rs, i - 1);
      if r.kind.PermitIssued? {
        IssueTold(digest, proofs, c, r);
        ClosedWas(digest, proofs, rs, i - 1, q);
      } else if PermitEvent(r.kind) {
        EndTold(digest, proofs, c, r);
        var e := Proof(proofs, r);
        if r.kind.PermitRevoked? && e.permit.purpose == Control && IdOf(e.permit) == q {
          assert CloserOf(digest, proofs, rs, i - 1, q, e.state);
        } else {
          ClosedWas(digest, proofs, rs, i - 1, q);
        }
      } else {
        RestTold(digest, proofs, c, r);
        ClosedWas(digest, proofs, rs, i - 1, q);
      }
    }
  }

  /** A closed control is never opened again. */
  lemma {:induction false} ClosedStays(digest: Digest, proofs: Proofs, rs: seq<Receipt>, i: nat, j: nat, q: PermitId)
    requires Told(digest, proofs, rs).Some? && i <= j <= |rs|
    requires q in StoryAt(digest, proofs, rs, i).states && StoryAt(digest, proofs, rs, i).states[q] != Open
    ensures q in StoryAt(digest, proofs, rs, j).states && StoryAt(digest, proofs, rs, j).states[q] != Open
    decreases j - i
  {
    hide Tell, Told, StoryAt, IdOf, AllocationsFit, PermitOk;
    if i < j {
      ClosedStays(digest, proofs, rs, i, j - 1, q);
      var c, r := StoryAt(digest, proofs, rs, j - 1), rs[j - 1];
      OneTold(digest, proofs, rs, j - 1);
      if r.kind.PermitIssued? {
        IssueTold(digest, proofs, c, r);
        ControlWas(digest, proofs, rs, j - 1, q);
      } else if PermitEvent(r.kind) {
        EndTold(digest, proofs, c, r);
      } else {
        RestTold(digest, proofs, c, r);
      }
    }
  }

  /** The shares of a control are the effects issued under it so far, at their budgets. */
  lemma {:induction false} SharesAre(digest: Digest, proofs: Proofs, rs: seq<Receipt>, i: nat, q: PermitId, x: PermitId)
    requires Told(digest, proofs, rs).Some? && i <= |rs|
    ensures var a := AllocatedTo(StoryAt(digest, proofs, rs, i), q);
            && (x in a <==> exists k: nat :: k < i && EffectIssuedAt(proofs, rs, k, q, x))
            && (x in a ==> a[x] == x.body.budget)
  {
    hide Tell, Told, StoryAt, AllocationsFit, PermitOk;
    StoryBegins(digest, proofs, rs);
    if i > 0 {
      var c, r := StoryAt(digest, proofs, rs, i - 1), rs[i - 1];
      OneTold(digest, proofs, rs, i - 1);
      SharesAre(digest, proofs, rs, i - 1, q, x);
      if r.kind.PermitIssued? {
        IssueTold(digest, proofs, c, r);
        var p := Proof(proofs, r).permit;
        if EffectOf(p, q) && IdOf(p) == x { assert EffectIssuedAt(proofs, rs, i - 1, q, x); }
      } else if PermitEvent(r.kind) {
        EndTold(digest, proofs, c, r);
      } else {
        RestTold(digest, proofs, c, r);
      }
    }
  }

  lemma NoShares(ceiling: Budget)
    ensures AllocationsFit(map[], ceiling)
  {
  }

  /** The shares of a control never exceed its ceiling. */
  lemma {:induction false} SharesFit(digest: Digest, proofs: Proofs, rs: seq<Receipt>, i: nat, q: PermitId)
    requires Told(digest, proofs, rs).Some? && i <= |rs| && q in StoryAt(digest, proofs, rs, i).controls
    ensures var c := StoryAt(digest, proofs, rs, i);
            c.controls[q].ceiling.Some? && AllocationsFit(AllocatedTo(c, q), c.controls[q].ceiling.value.budget)
  {
    hide Tell, Told, StoryAt, AllocationsFit, IdOf;
    StoryBegins(digest, proofs, rs);
    if i > 0 {
      var c, r := StoryAt(digest, proofs, rs, i - 1), rs[i - 1];
      var n := StoryAt(digest, proofs, rs, i);
      OneTold(digest, proofs, rs, i - 1);
      if r.kind.PermitIssued? {
        IssueTold(digest, proofs, c, r);
        if q in c.controls {
          SharesFit(digest, proofs, rs, i - 1, q);
        } else {
          NoneBeforeControl(digest, proofs, rs, i - 1, q);
          NoShares(n.controls[q].ceiling.value.budget);
        }
      } else if PermitEvent(r.kind) {
        EndTold(digest, proofs, c, r);
        SharesFit(digest, proofs, rs, i - 1, q);
      } else {
        RestTold(digest, proofs, c, r);
        SharesFit(digest, proofs, rs, i - 1, q);
      }
    }
  }

  /** Before a control is issued nothing is charged to it. */
  lemma NoneBeforeControl(digest: Digest, proofs: Proofs, rs: seq<Receipt>, i: nat, q: PermitId)
    requires Told(digest, proofs, rs).Some? && i <= |rs| && q !in StoryAt(digest, proofs, rs, i).controls
    ensures AllocatedTo(StoryAt(digest, proofs, rs, i), q) == map[]
  {
    hide Tell, Told, StoryAt, IdOf, AllocatedTo, PermitOk;
    var a := AllocatedTo(StoryAt(digest, proofs, rs, i), q);
    forall x ensures x !in a {
      SharesAre(digest, proofs, rs, i, q, x);
      if k: nat :| k < i && EffectIssuedAt(proofs, rs, k, q, x) {
        IssuedStays(digest, proofs, rs, k, i);
      }
    }
  }

  // ----- the lifecycle side -----

  lemma SpentOrStoredStays(l: Life, r: Receipt, s: Id)
    requires Advance(l, r).Some? && (In(l, s, Spent) || In(l, s, Stored)) && !Cause(r)
    requires !(r.kind == StepCompleted && r.step == s)
    ensures In(Advance(l, r).value, s, Spent) || In(Advance(l, r).value, s, Stored)
  {
    hide MaterialOk, Owners;
  }

  lemma ConsumptionSpends(l: Life, r: Receipt)
    requires Advance(l, r).Some? && r.kind == PermitConsumed
    ensures In(Advance(l, r).value, r.step, Spent)
  {
    hide MaterialOk, Owners;
  }

  lemma {:induction false} StaysOpen(rs: seq<Receipt>, m: nat, n: nat)
    requires Live(rs).Some? && m < n <= |rs| && rs[m].kind == PermitConsumed
    requires forall r :: r in rs ==> !Cause(r)
    requires forall d :: m < d < n ==> !(rs[d].kind == StepCompleted && rs[d].step == rs[m].step)
    ensures Live(rs[..n]).Some?
    ensures In(Live(rs[..n]).value, rs[m].step, Spent) || In(Live(rs[..n]).value, rs[m].step, Stored)
    decreases n
  {
    hide Live, Advance;
    TakenAt(rs, n - 1);
    if n == m + 1 {
      ConsumptionSpends(Live(rs[..m]).value, rs[m]);
    } else {
      StaysOpen(rs, m, n - 1);
      assert rs[n - 1] in rs;
      SpentOrStoredStays(Live(rs[..n - 1]).value, rs[n - 1], rs[m].step);
    }
  }

  /** In a successful run every consumed permit's step is completed afterwards. */
  lemma SpentCompletes(rs: seq<Receipt>, m: nat)
    requires Accepted(rs, StrictCurrent) && rs != [] && rs[|rs| - 1].outcome.Ok?
    requires m < |rs| && rs[m].kind == PermitConsumed
    ensures exists d: nat :: m < d && At(rs, d, StepCompleted, rs[m].step)
  {
    hide Live, Advance;
    SucceededIff(rs);
    assert rs[..|rs|] == rs;
    if forall d: nat :: m < d ==> !At(rs, d, StepCompleted, rs[m].step) {
      forall d | m < d < |rs| ensures !(rs[d].kind == StepCompleted && rs[d].step == rs[m].step) {
        assert !At(rs, d, StepCompleted, rs[m].step);
      }
      StaysOpen(rs, m, |rs|);
    }
  }

  // ----- successful transcripts -----

  /** Accepted by the lifecycle and by permit continuity, and finalized successfully. */
  ghost predicate Success(digest: Digest, proofs: Proofs, rs: seq<Receipt>) {
    Accepted(rs, StrictCurrent) && Told(digest, proofs, rs).Some? && rs != [] && rs[|rs| - 1].outcome.Ok?
  }

  lemma SuccessIsReady(digest: Digest, proofs: Proofs, rs: seq<Receipt>)
    requires Success(digest, proofs, rs)
    ensures ReadyToSucceed(StoryAt(digest, proofs, rs, |rs| - 1))
  {
    hide Tell, Told, StoryAt, Live, ReadyToSucceed;
    var n := |rs| - 1;
    OneStartOneEnd(rs, n);
    OneTold(digest, proofs, rs, n);
    RestTold(digest, proofs, StoryAt(digest, proofs, rs, n), rs[n]);
  }

  /** A step that completed did so while its control was open. */
  lemma CompletedWhileOpen(digest: Digest, proofs: Proofs, rs: seq<Receipt>, i: nat, d: nat)
    requires Told(digest, proofs, rs).Some? && i < d < |rs| && rs[i].kind == PermitIssued
    requires rs[d].kind == StepCompleted && rs[d].step == rs[i].step
    ensures Proven(proofs, rs[i]) && Proof(proofs, rs[i]).permit.binding.parent.Some?
    ensures var q, c := Proof(proofs, rs[i]).permit.binding.parent.value, StoryAt(digest, proofs, rs, d);
            q in c.states && c.states[q] == Open
  {
    hide Tell, Told, StoryAt, IdOf, PermitOk;
    IssuedStays(digest, proofs, rs, i, d);
    OneTold(digest, proofs, rs, d);
    RestTold(digest, proofs, StoryAt(digest, proofs, rs, d), rs[d]);
  }

  /**
   * The effect issued at `i` was consumed and then its step completed, after its
   * control was issued and before any revocation of the control.
   */
  ghost predicate Bracketed(proofs: Proofs, rs: seq<Receipt>, i: nat)
    requires i < |rs| && Proven(proofs, rs[i])
  {
    var p := Proof(proofs, rs[i]).permit;
    && p.binding.parent.Some?
    && (exists m: nat, d: nat :: i < m < d && ConsumedAt(proofs, rs, m, p) && At(rs, d, StepCompleted, rs[i].step))
    && (exists k: nat :: k < i && rs[k].kind == PermitIssued && Proven(proofs, rs[k])
          && Proof(proofs, rs[k]).permit.purpose == Control && IdOf(Proof(proofs, rs[k]).permit) == p.binding.parent.value)
    && (forall d: nat, v: nat ::
          (At(rs, d, StepCompleted, rs[i].step) && i < d && v < |rs| && rs[v].kind == PermitRevoked
           && Proven(proofs, rs[v]) && IdOf(Proof(proofs, rs[v]).permit) == p.binding.parent.value) ==> d < v)
  }

  /**
   * Each effect permit of a successful transcript was consumed, and its step
   * completed, after its control was issued and before the control was closed.
   */
  lemma EffectInsideControl(digest: Digest, proofs: Proofs, rs: seq<Receipt>, i: nat)
    requires Success(digest, proofs, rs) && i < |rs| && rs[i].kind == PermitIssued
    ensures Proven(proofs, rs[i])
    ensures Proof(proofs, rs[i]).permit.purpose == Effect ==> Bracketed(proofs, rs, i)
  {
    hide Tell, Told, StoryAt, Live, IdOf, PermitOk, Accepted;
    var n := |rs| - 1;
    assert i < n by { NotLast(rs, i); }
    IssuedStays(digest, proofs, rs, i, n);
    var p := Proof(proofs, rs[i]).permit;
    if p.purpose == Effect {
      SuccessIsReady(digest, proofs, rs);
      EffectIsSpent(digest, proofs, rs, i);
      IssuedUnderControl(digest, proofs, rs, i);
      forall d: nat, v: nat | At(rs, d, StepCompleted, rs[i].step) && i < d && v < |rs| && rs[v].kind == PermitRevoked
          && Proven(proofs, rs[v]) && IdOf(Proof(proofs, rs[v]).permit) == p.binding.parent.value
        ensures d < v
      {
        CompletedBeforeClosing(digest, proofs, rs, i, d, v);
      }
    }
  }

  lemma NotLast(rs: seq<Receipt>, i: nat)
    requires Accepted(rs, StrictCurrent) && i < |rs| && rs[i].kind != RunFinalized
    ensures i < |rs| - 1
  {
  }

  lemma EffectIsSpent(digest: Digest, proofs: Proofs, rs: seq<Receipt>, i: nat)
    requires Success(digest, proofs, rs) && i < |rs| - 1 && rs[i].kind == PermitIssued
    requires Proven(proofs, rs[i]) && Proof(proofs, rs[i]).permit.purpose == Effect
    ensures exists m: nat, d: nat :: i < m < d
              && ConsumedAt(proofs, rs, m, Proof(proofs, rs[i]).permit) && At(rs, d, StepCompleted, rs[i].step)
  {
    hide Tell, Told, StoryAt, Live, IdOf, PermitOk, Accepted;
    var n, p, s := |rs| - 1, Proof(proofs, rs[i]).permit, rs[i].step;
    IssuedStays(digest, proofs, rs, i, n);
    SuccessIsReady(digest, proofs, rs);
    RetainedWas(digest, proofs, rs, n, s);
    var k: nat, m: nat :| k < m < n && IssuedAt(proofs, rs, k, p) && rs[k].step == s
      && ConsumedAt(proofs, rs, m, p) && rs[m].step == s;
    IssuedOnce(digest, proofs, rs, k, i);
    SpentCompletes(rs, m);
  }

  /** A step has one permit. */
  lemma IssuedOnce(digest: Digest, proofs: Proofs, rs: seq<Receipt>, k: nat, i: nat)
    requires Told(digest, proofs, rs).Some? && k < |rs| && i < |rs|
    requires rs[k].kind == PermitIssued && rs[i].kind == PermitIssued && rs[k].step == rs[i].step
    ensures k == i
  {
    hide Tell, Told, StoryAt, IdOf, PermitOk;
    if k > i {
      IssuedOnce(digest, proofs, rs, i, k);
    } else if k < i {
      IssuedStays(digest, proofs, rs, k, i);
      OneTold(digest, proofs, rs, i);
      IssueTold(digest, proofs, StoryAt(digest, proofs, rs, i), rs[i]);
    }
  }

  lemma IssuedUnderControl(digest: Digest, proofs: Proofs, rs: seq<Receipt>, i: nat)
    requires Told(digest, proofs, rs).Some? && i < |rs| && rs[i].kind == PermitIssued
    requires Proven(proofs, rs[i]) && Proof(proofs, rs[i]).permit.purpose == Effect
    ensures Proof(proofs, rs[i]).permit.binding.parent.Some?
    ensures exists k: nat :: k < i && rs[k].kind == PermitIssued && Proven(proofs, rs[k])
              && Proof(proofs, rs[k]).permit.purpose == Control
              && IdOf(Proof(proofs, rs[k]).permit) == Proof(proofs, rs[i]).permit.binding.parent.value
  {
    hide Tell, Told, StoryAt, IdOf, PermitOk;
    OneTold(digest, proofs, rs, i);
    IssueTold(digest, proofs, StoryAt(digest, proofs, rs, i), rs[i]);
    ControlWas(digest, proofs, rs, i, Proof(proofs, rs[i]).permit.binding.parent.value);
  }

  lemma CompletedBeforeClosing(digest: Digest, proofs: Proofs, rs: seq<Receipt>, i: nat, d: nat, v: nat)
    requires Told(digest, proofs, rs).Some? && i < d < |rs| && v < |rs| && rs[i].kind == PermitIssued
    requires rs[d].kind == StepCompleted && rs[d].step == rs[i].step
    requires Proven(proofs, rs[i]) && Proof(proofs, rs[i]).permit.purpose == Effect
    requires rs[v].kind == PermitRevoked && Proven(proofs, rs[v])
    requires Some(IdOf(Proof(proofs, rs[v]).permit)) == Proof(proofs, rs[i]).permit.binding.parent
    ensures d < v
  {
    hide Tell, Told, StoryAt, PermitOk;
    CompletedWhileOpen(digest, proofs, rs, i, d);
    IssuedUnderControl(digest, proofs, rs, i);
    var q := Proof(proofs, rs[i]).permit.binding.parent.value;
    if v < d {
      OneTold(digest, proofs, rs, v);
      EndTold(digest, proofs, StoryAt(digest, proofs, rs, v), rs[v]);
      ClosedStays(digest, proofs, rs, v + 1, d, q);
    }
  }

  /**
   * Each control of a successful transcript was closed by its operator, after
   * everything issued under it had completed, by a receipt that lists exactly the
   * effects issued under it, at their budgets, summing within its ceiling.
   */
  lemma ControlClosesExactly(digest: Digest, proofs: Proofs, rs: seq<Receipt>, i: nat)
    requires Success(digest, proofs, rs) && i < |rs| && rs[i].kind == PermitIssued
    ensures Proven(proofs, rs[i])
    ensures Proof(proofs, rs[i]).permit.purpose == Control ==>
      exists v: nat :: ClosedAt(proofs, rs, v, Proof(proofs, rs[i]).permit) && ListsExactly(proofs, rs, v)
  {
    hide Tell, Told, StoryAt, Live, IdOf, PermitOk, Accepted, AllocationsFit, ListsExactly;
    var n := |rs| - 1;
    assert i < n by { NotLast(rs, i); }
    IssuedStays(digest, proofs, rs, i, n);
    SuccessIsReady(digest, proofs, rs);
    var p := Proof(proofs, rs[i]).permit;
    if p.purpose == Control {
      var q, c := IdOf(p), StoryAt(digest, proofs, rs, n);
      ClosedWas(digest, proofs, rs, n, q);
      var v: nat :| v < n && CloserOf(digest, proofs, rs, v, q, c.states[q]);
      CloserIsExact(digest, proofs, rs, v, q);
      RevokedIsControl(digest, proofs, rs, v);
      ControlIsSame(digest, proofs, rs, v, n, q);
      assert ClosedAt(proofs, rs, v, p);
    }
  }

  lemma ControlIsSame(digest: Digest, proofs: Proofs, rs: seq<Receipt>, v: nat, n: nat, q: PermitId)
    requires Told(digest, proofs, rs).Some? && v <= n <= |rs| && q in StoryAt(digest, proofs, rs, v).controls
    ensures q in StoryAt(digest, proofs, rs, n).controls
    ensures StoryAt(digest, proofs, rs, n).controls[q] == StoryAt(digest, proofs, rs, v).controls[q]
  {
    hide Tell, Told, StoryAt, IdOf, PermitOk;
    ControlWas(digest, proofs, rs, v, q);
    var p := StoryAt(digest, proofs, rs, v).controls[q];
    var k: nat :| k < v && IssuedAt(proofs, rs, k, p);
    IssuedStays(digest, proofs, rs, k, n);
  }

  /** The closing evidence lists the effects of the whole transcript under its control, and they fit. */
  ghost predicate ListsExactly(proofs: Proofs, rs: seq<Receipt>, v: nat) {
    && v < |rs| && Proven(proofs, rs[v])
    && var e := Proof(proofs, rs[v]);
    && (forall x :: x in e.allocations <==> exists k: nat :: EffectIssuedAt(proofs, rs, k, IdOf(e.permit), x))
    && (forall x :: x in e.allocations ==> e.allocations[x] == x.body.budget)
    && e.permit.ceiling.Some? && AllocationsFit(e.allocations, e.permit.ceiling.value.budget)
  }

  lemma CloserIsExact(digest: Digest, proofs: Proofs, rs: seq<Receipt>, v: nat, q: PermitId)
    requires Success(digest, proofs, rs) && v < |rs| - 1
    requires rs[v].kind == PermitRevoked && Proven(proofs, rs[v])
    requires IdOf(Proof(proofs, rs[v]).permit) == q && Proof(proofs, rs[v]).permit.purpose == Control
    requires Proof(proofs, rs[v]).allocations == AllocatedTo(StoryAt(digest, proofs, rs, v), q)
    ensures ListsExactly(proofs, rs, v)
  {
    hide Tell, Told, StoryAt, Live, IdOf, PermitOk, Accepted, AllocationsFit, AllocatedTo;
    var e := Proof(proofs, rs[v]);
    RevokedIsControl(digest, proofs, rs, v);
    SharesFit(digest, proofs, rs, v, q);
    forall x
      ensures x in e.allocations <==> exists k: nat :: EffectIssuedAt(proofs, rs, k, q, x)
      ensures x in e.allocations ==> e.allocations[x] == x.body.budget
    {
      SharesAre(digest, proofs, rs, v, q, x);
      if k: nat :| EffectIssuedAt(proofs, rs, k, q, x) {
        IssuedBeforeClosing(digest, proofs, rs, k, v);
      }
    }
  }

  lemma IssuedBeforeClosing(digest: Digest, proofs: Proofs, rs: seq<Receipt>, k: nat, v: nat)
    requires Success(digest, proofs, rs) && k < |rs| && v < |rs| && rs[k].kind == PermitIssued && Proven(proofs, rs[k])
    requires Proof(proofs, rs[k]).permit.purpose == Effect && rs[v].kind == PermitRevoked && Proven(proofs, rs[v])
    requires Proof(proofs, rs[k]).permit.binding.parent == Some(IdOf(Proof(proofs, rs[v]).permit))
    ensures k < v
  {
    hide Tell, Told, Live, IdOf, PermitOk, Accepted;
    assert k < |rs| - 1 by { NotLast(rs, k); }
    EffectIsSpent(digest, proofs, rs, k);
    var m: nat, d: nat :| k < m < d
      && ConsumedAt(proofs, rs, m, Proof(proofs, rs[k]).permit) && At(rs, d, StepCompleted, rs[k].step);
    CompletedBeforeClosing(digest, proofs, rs, k, d, v);
  }

  /**
   * Successful transcripts close authority exactly: a sequence that the lifecycle
   * and permit continuity both accept and that was finalized successfully has every
   * effect consumed and completed under an open control, and every control closed
   * afterwards by evidence that lists exactly its effects within its ceiling.
   */
  lemma SuccessClosesAuthority(digest: Digest, files: Attachments, rs: seq<Receipt>, i: nat)
    requires Accepted(rs, StrictCurrent) && Continuous(digest, files, rs) && rs != [] && rs[|rs| - 1].outcome.Ok?
    requires i < |rs| && rs[i].kind == PermitIssued
    ensures var proofs := Proofs(files.evidence, Admitted(files, rs).value);
            && Proven(proofs, rs[i])
            && var p := Proof(proofs, rs[i]).permit;
            && (p.purpose == Effect ==> Bracketed(proofs, rs, i))
            && (p.purpose == Control ==> exists v: nat :: ClosedAt(proofs, rs, v, p) && ListsExactly(proofs, rs, v))
  {
    hide Told, Accepted, ListsExactly;
    var proofs := Proofs(files.evidence, Admitted(files, rs).value);
    EffectInsideControl(digest, proofs, rs, i);
    ControlClosesExactly(digest, proofs, rs, i);
  }
}
