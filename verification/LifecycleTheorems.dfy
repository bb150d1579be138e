/** What an accepted receipt sequence says happened, and that every one can be finished. */
module LifecycleTheorems {
  import opened Common
  import opened PermitModel
  import opened LifecycleModel

  // ----- taking the fold apart -----

  lemma PrefixClosed(rs: seq<Receipt>, n: nat)
    requires Live(rs).Some? && n <= |rs|
    ensures Live(rs[..n]).Some?
  {
    hide Live;
    if Live(rs[..n]).None? { Stuck(rs, n); }
  }

  /** The state before a receipt, and that the receipt was taken there. */
  lemma TakenAt(rs: seq<Receipt>, i: nat)
    requires Live(rs).Some? && i < |rs|
    ensures Live(rs[..i]).Some? && Advance(Live(rs[..i]).value, rs[i]).Some?
    ensures Live(rs[..i + 1]) == Advance(Live(rs[..i]).value, rs[i])
  {
    hide Advance;
    PrefixClosed(rs, i + 1);
    assert rs[..i + 1][..i] == rs[..i];
  }

  // ----- what the state records -----

  predicate At(rs: seq<Receipt>, i: nat, kind: Kind, step: Id) {
    i < |rs| && rs[i].kind == kind && rs[i].step == step
  }

  /** The receipts that brought a step to this state, in order, among the first `n`. */
  ghost predicate Trail(rs: seq<Receipt>, n: nat, s: Id, state: StepState) {
    match state
    case Started => exists a: nat :: a < n && At(rs, a, StepStarted, s)
    case Permitted => exists a: nat, b: nat :: a < b < n && At(rs, a, StepStarted, s) && At(rs, b, PermitIssued, s)
    case Spent =>
      exists a: nat, b: nat, c: nat :: a < b < c < n
        && At(rs, a, StepStarted, s) && At(rs, b, PermitIssued, s) && At(rs, c, PermitConsumed, s)
    case Stored =>
      exists a: nat, b: nat, c: nat, d: nat :: a < b < c < d < n
        && At(rs, a, StepStarted, s) && At(rs, b, PermitIssued, s)
        && At(rs, c, PermitConsumed, s) && At(rs, d, ArtifactStored, s)
    case Complete => true
  }

  ghost predicate StoredAt(rs: seq<Receipt>, i: nat, s: Id, owner: Id) {
    At(rs, i, ArtifactStored, s) && owner in Owners(rs[i].artifacts)
  }

  /** The receipts that decide a run before its finalization. */
  predicate Cause(r: Receipt) {
    r.kind.PermitRejected? || (r.kind.PermitRevoked? && r.outcome.Denial?) || r.kind.StepFailed? || r.kind.ParentCancelled?
  }

  function ArgsOf(rs: seq<Receipt>, kind: Kind): set<Id> {
    set r | r in rs && r.kind == kind :: r.args
  }

  ghost predicate StepsTell(rs: seq<Receipt>, l: Life) {
    && (forall s :: s in l.steps ==> Trail(rs, |rs|, s, l.steps[s]))
    && (forall s, owner :: s in l.stored && owner in l.stored[s] ==> exists i: nat :: StoredAt(rs, i, s, owner))
    && (forall s :: In(l, s, Stored) ==> s in l.stored && l.stored[s] != {})
  }

  ghost predicate EndTells(rs: seq<Receipt>, l: Life) {
    && l.count == |rs| && (rs == [] ==> l == UNBORN)
    && (l.finalized <==> rs != [] && rs[|rs| - 1].kind == RunFinalized)
    && (!l.finalized ==> (l.terminal.Some? <==> exists r :: r in rs && Cause(r)))
    && (l.finalized ==> l.terminal.Some? && (l.terminal.value != Success <==> exists r :: r in rs && Cause(r)))
    && l.terminal != Some(LegacyUnknown) && (!l.finalized ==> l.terminal != Some(Success))
  }

  ghost predicate ChildrenTell(rs: seq<Receipt>, l: Life) {
    && l.prepared == ArgsOf(rs, ChildAdmissionPrepared) && l.linked == ArgsOf(rs, ChildLinked)
    && l.closed == ArgsOf(rs, ChildClosed) && l.closed <= l.linked <= l.prepared
    && (l.finalized && l.terminal == Some(Success) ==> l.prepared == l.closed)
    && (l.finalized ==> forall s :: s in l.steps ==> l.steps[s] == Complete)
  }

  lemma TrailGrows(rs: seq<Receipt>, r: Receipt, s: Id, state: StepState)
    requires Trail(rs, |rs|, s, state)
    ensures Trail(rs + [r], |rs| + 1, s, state)
  {
    var q := rs + [r];
    match state
    case Started =>
      var a: nat :| a < |rs| && At(rs, a, StepStarted, s);
      assert At(q, a, StepStarted, s);
    case Permitted =>
      var a: nat, b: nat :| a < b < |rs| && At(rs, a, StepStarted, s) && At(rs, b, PermitIssued, s);
      assert At(q, a, StepStarted, s) && At(q, b, PermitIssued, s);
    case Spent =>
      var a: nat, b: nat, c: nat :| a < b < c < |rs|
        && At(rs, a, StepStarted, s) && At(rs, b, PermitIssued, s) && At(rs, c, PermitConsumed, s);
      assert At(q, a, StepStarted, s) && At(q, b, PermitIssued, s) && At(q, c, PermitConsumed, s);
    case Stored =>
      var a: nat, b: nat, c: nat, d: nat :| a < b < c < d < |rs|
        && At(rs, a, StepStarted, s) && At(rs, b, PermitIssued, s)
        && At(rs, c, PermitConsumed, s) && At(rs, d, ArtifactStored, s);
      assert At(q, a, StepStarted, s) && At(q, b, PermitIssued, s) && At(q, c, PermitConsumed, s) && At(q, d, ArtifactStored, s);
    case Complete =>
  }

  /** A step moves along its trail. */
  lemma TrailMoves(rs: seq<Receipt>, r: Receipt, was: StepState)
    requires Trail(rs, |rs|, r.step, was)
    ensures r.kind == PermitIssued && was == Started ==> Trail(rs + [r], |rs| + 1, r.step, Permitted)
    ensures r.kind == PermitConsumed && was == Permitted ==> Trail(rs + [r], |rs| + 1, r.step, Spent)
    ensures r.kind == ArtifactStored && was == Spent ==> Trail(rs + [r], |rs| + 1, r.step, Stored)
    ensures Trail(rs + [r], |rs| + 1, r.step, Complete)
  {
    var q, n := rs + [r], |rs|;
    assert At(q, n, r.kind, r.step);
    if r.kind == PermitIssued && was == Started {
      var a: nat :| a < n && At(rs, a, StepStarted, r.step);
      assert At(q, a, StepStarted, r.step);
    } else if r.kind == PermitConsumed && was == Permitted {
      var a: nat, b: nat :| a < b < n && At(rs, a, StepStarted, r.step) && At(rs, b, PermitIssued, r.step);
      assert At(q, a, StepStarted, r.step) && At(q, b, PermitIssued, r.step);
    } else if r.kind == ArtifactStored && was == Spent {
      var a: nat, b: nat, c: nat :| a < b < c < n
        && At(rs, a, StepStarted, r.step) && At(rs, b, PermitIssued, r.step) && At(rs, c, PermitConsumed, r.step);
      assert At(q, a, StepStarted, r.step) && At(q, b, PermitIssued, r.step) && At(q, c, PermitConsumed, r.step);
    }
  }

  lemma StepsTellMore(rs: seq<Receipt>, l: Life, r: Receipt)
    requires StepsTell(rs, l) && Advance(l, r).Some?
    ensures StepsTell(rs + [r], Advance(l, r).value)
  {
    hide Trail, MaterialOk, Owners, StoredAt;
    var q, n := rs + [r], Advance(l, r).value;
    forall s | s in n.steps ensures Trail(q, |q|, s, n.steps[s]) {
      if s in l.steps && n.steps[s] == l.steps[s] {
        TrailGrows(rs, r, s, l.steps[s]);
      } else {
        StepMoved(rs, l, r, s);
      }
    }
    forall s, owner | s in n.stored && owner in n.stored[s] ensures exists i: nat :: StoredAt(q, i, s, owner) {
      StoredMore(rs, l, r, s, owner);
    }
    assert r.kind == ArtifactStored ==> Owners(r.artifacts) != {} by { OwnersThere(r.artifacts); }
  }

  lemma OwnersThere(artifacts: seq<Descriptor>)
    ensures artifacts != [] ==> Owners(artifacts) != {}
  {
    if artifacts != [] { assert artifacts[0].owner in Owners(artifacts); }
  }

  lemma StepMoved(rs: seq<Receipt>, l: Life, r: Receipt, s: Id)
    requires StepsTell(rs, l) && Advance(l, r).Some? && s in Advance(l, r).value.steps
    requires !(s in l.steps && Advance(l, r).value.steps[s] == l.steps[s])
    ensures Trail(rs + [r], |rs| + 1, s, Advance(l, r).value.steps[s])
  {
    hide MaterialOk, Owners, StoredAt, Trail;
    assert s == r.step;
    if r.kind == StepStarted {
      TrailStarts(rs, r);
    } else if s in l.steps {
      TrailMoves(rs, r, l.steps[s]);
    }
  }

  lemma TrailStarts(rs: seq<Receipt>, r: Receipt)
    requires r.kind == StepStarted
    ensures Trail(rs + [r], |rs| + 1, r.step, Started)
  {
    assert At(rs + [r], |rs|, StepStarted, r.step);
  }

  lemma StoredMore(rs: seq<Receipt>, l: Life, r: Receipt, s: Id, owner: Id)
    requires StepsTell(rs, l) && Advance(l, r).Some?
    requires s in Advance(l, r).value.stored && owner in Advance(l, r).value.stored[s]
    ensures exists i: nat :: StoredAt(rs + [r], i, s, owner)
  {
    hide MaterialOk, Trail, Owners;
    if s in l.stored && owner in l.stored[s] {
      var i: nat :| StoredAt(rs, i, s, owner);
      assert StoredAt(rs + [r], i, s, owner);
    } else {
      assert StoredAt(rs + [r], |rs|, s, owner);
    }
  }

  lemma EndTellsMore(rs: seq<Receipt>, l: Life, r: Receipt)
    requires EndTells(rs, l) && Advance(l, r).Some?
    ensures EndTells(rs + [r], Advance(l, r).value)
  {
    hide MaterialOk, Owners;
    var q := rs + [r];
    assert forall x :: x in q <==> x in rs || x == r;
    assert (exists x :: x in q && Cause(x)) <==> (exists x :: x in rs && Cause(x)) || Cause(r);
  }

  lemma ChildrenTellMore(rs: seq<Receipt>, l: Life, r: Receipt)
    requires ChildrenTell(rs, l) && Advance(l, r).Some?
    ensures ChildrenTell(rs + [r], Advance(l, r).value)
  {
    hide MaterialOk, Owners, ArgsOf;
    ArgsMore(rs, r, ChildAdmissionPrepared);
    ArgsMore(rs, r, ChildLinked);
    ArgsMore(rs, r, ChildClosed);
  }

  lemma ArgsMore(rs: seq<Receipt>, r: Receipt, kind: Kind)
    ensures ArgsOf(rs + [r], kind) == ArgsOf(rs, kind) + if r.kind == kind then {r.args} else {}
  {
  }

  lemma {:induction false} LifeTells(rs: seq<Receipt>)
    requires Live(rs).Some?
    ensures StepsTell(rs, Live(rs).value) && EndTells(rs, Live(rs).value) && ChildrenTell(rs, Live(rs).value)
  {
    hide Advance, StepsTell, EndTells, ChildrenTell;
    if rs == [] {
      UnbornTells();
    } else {
      var front, last := rs[..|rs| - 1], rs[|rs| - 1];
      LifeTells(front);
      assert rs == front + [last];
      StepsTellMore(front, Live(front).value, last);
      EndTellsMore(front, Live(front).value, last);
      ChildrenTellMore(front, Live(front).value, last);
    }
  }

  lemma UnbornTells()
    ensures StepsTell([], UNBORN) && EndTells([], UNBORN) && ChildrenTell([], UNBORN)
  {
  }

  // ----- soundness -----

  /** A run has one start, first, and at most one finalization, last. */
  lemma OneStartOneEnd(rs: seq<Receipt>, i: nat)
    requires Live(rs).Some? && i < |rs|
    ensures rs[i].kind == RunStarted <==> i == 0
    ensures rs[i].kind == RunFinalized ==> i == |rs| - 1
    ensures Accepted(rs, StrictCurrent) && i == |rs| - 1 ==> rs[i].kind == RunFinalized
    ensures rs[i].run == rs[0].run
  {
    hide MaterialOk, Accept, StepsTell, ChildrenTell;
    TakenAt(rs, i);
    LifeTells(rs[..i]);
    LifeTells(rs);
    StartsOnlyFirst(Live(rs[..i]).value, rs[i]);
    if i + 1 < |rs| {
      TakenAt(rs, i + 1);
      LifeTells(rs[..i + 1]);
      assert rs[..i + 1][i] == rs[i];
    }
    SameRun(rs, i);
  }

  lemma StartsOnlyFirst(l: Life, r: Receipt)
    requires Advance(l, r).Some?
    ensures r.kind == RunStarted <==> l.count == 0
  {
    hide MaterialOk, Owners;
  }

  lemma AcceptKeepsRun(l: Life, r: Receipt)
    requires Accept(l, r).Some?
    ensures Accept(l, r).value.run == l.run
  {
    hide Owners;
  }

  lemma {:induction false} SameRun(rs: seq<Receipt>, i: nat)
    requires Live(rs).Some? && i < |rs|
    ensures Live(rs[..i + 1]).Some? && Live(rs[..i + 1]).value.run == Some(rs[0].run) && rs[i].run == rs[0].run
  {
    hide MaterialOk, Accept, Live;
    TakenAt(rs, i);
    AcceptKeepsRun(Live(rs[..i]).value.(run := Some(rs[i].run)), rs[i]);
    if i > 0 { SameRun(rs, i - 1); }
  }

  lemma CompletionNeeds(l: Life, r: Receipt)
    requires Advance(l, r).Some? && r.kind == StepCompleted
    ensures In(l, r.step, Stored) && r.step in l.stored && Owners(r.artifacts) <= l.stored[r.step]
  {
    hide MaterialOk, Owners;
  }

  lemma AtInPrefix(rs: seq<Receipt>, i: nat, k: nat, kind: Kind, s: Id)
    requires i <= |rs| && At(rs[..i], k, kind, s)
    ensures At(rs, k, kind, s)
  {
  }

  /** A trail within a prefix is a trail. */
  lemma TrailInPrefix(rs: seq<Receipt>, i: nat, s: Id)
    requires i <= |rs| && Trail(rs[..i], i, s, Stored)
    ensures Trail(rs, i, s, Stored)
  {
    hide At;
    var p := rs[..i];
    var a: nat, b: nat, c: nat, d: nat :| a < b < c < d < i
      && At(p, a, StepStarted, s) && At(p, b, PermitIssued, s)
      && At(p, c, PermitConsumed, s) && At(p, d, ArtifactStored, s);
    AtInPrefix(rs, i, a, StepStarted, s);
    AtInPrefix(rs, i, b, PermitIssued, s);
    AtInPrefix(rs, i, c, PermitConsumed, s);
    AtInPrefix(rs, i, d, ArtifactStored, s);
  }

  /** A completed step was started, permitted, spent and stored, in this order, and cites only what was stored for it. */
  lemma CompletedInOrder(rs: seq<Receipt>, i: nat)
    requires Live(rs).Some? && i < |rs| && rs[i].kind == StepCompleted
    ensures Trail(rs, i, rs[i].step, Stored)
    ensures forall owner :: owner in Owners(rs[i].artifacts) ==> exists d: nat :: d < i && StoredAt(rs, d, rs[i].step, owner)
  {
    hide MaterialOk, Live, Advance, Owners, EndTells, ChildrenTell, Trail;
    TakenAt(rs, i);
    var p, s := rs[..i], rs[i].step;
    LifeTells(p);
    CompletionNeeds(Live(p).value, rs[i]);
    TrailInPrefix(rs, i, s);
    forall owner | owner in Owners(rs[i].artifacts) ensures exists d: nat :: d < i && StoredAt(rs, d, s, owner) {
      var e: nat :| StoredAt(p, e, s, owner);
      assert e < i && StoredAt(rs, e, s, owner);
    }
  }

  /**
   * A finished run succeeded exactly when nothing in it was rejected, denied,
   * failed or cancelled; then every prepared child was linked and closed.
   */
  lemma SucceededIff(rs: seq<Receipt>)
    requires Accepted(rs, StrictCurrent)
    ensures rs != [] && (rs[|rs| - 1].outcome.Ok? <==> forall r :: r in rs ==> !Cause(r))
    ensures rs[|rs| - 1].outcome.Ok? ==>
      ArgsOf(rs, ChildAdmissionPrepared) == ArgsOf(rs, ChildLinked) == ArgsOf(rs, ChildClosed)
    ensures forall s :: s in Live(rs).value.steps ==> Live(rs).value.steps[s] == Complete
  {
    hide Advance, Live, StepsTell, ArgsOf;
    LifeTells(rs);
    var n := |rs| - 1;
    assert rs == [] ==> Live(rs) == Some(UNBORN) by { EmptyIsUnborn(); }
    TakenAt(rs, n);
    assert rs[..n + 1] == rs;
    FinalizedAs(Live(rs[..n]).value, rs[n]);
  }

  lemma EmptyIsUnborn()
    ensures Live([]) == Some(UNBORN)
  {
  }

  lemma FinalizedAs(l: Life, r: Receipt)
    requires Advance(l, r).Some? && r.kind == RunFinalized
    ensures Advance(l, r).value.terminal == TerminalOf(r.outcome)
  {
    hide MaterialOk, Owners;
  }

  // ----- no dead ends -----

  const LINEAGE := [LineageEntry(FromRequest, "", None, ""), LineageEntry(FromEffect, "", None, "")]

  function Placeholder(owner: Id): Descriptor {
    Descriptor(owner, "", 0, "application/json", None)
  }

  function Closing(l: Life, step: Id, kind: Kind, args: Id, artifacts: seq<Descriptor>, outcome: Verdict): Receipt
    requires l.run.Some?
  {
    Receipt(l.run.value, step, kind, 0, LINEAGE, "", args, artifacts, outcome)
  }

  /** How many receipts a step still needs before it is complete. */
  function Weight(): StepState -> nat {
    (state: StepState) =>
      match state
      case Started => 2
      case Permitted => 1
      case Spent => 2
      case Stored => 1
      case Complete => 0
  }

  ghost function Todo(l: Life): nat {
    Sum(l.steps, Weight()) + if l.terminal.None? then |l.prepared - l.linked| + |l.prepared - l.closed| else 0
  }

  /** Begun, not finalized, and with the state in good order. */
  ghost predicate Open(l: Life) {
    && !l.finalized && l.count > 0 && l.run.Some? && l.closed <= l.linked <= l.prepared && l.terminal != Some(LegacyUnknown)
    && (l.terminal != Some(Success))
    && forall s :: In(l, s, Stored) ==> s in l.stored && l.stored[s] != {}
  }

  lemma MadeOfGoodMaterial(l: Life, step: Id, kind: Kind, args: Id, artifacts: seq<Descriptor>, outcome: Verdict)
    requires l.run.Some? && forall a :: a in artifacts ==> DescriptorOk(a)
    ensures MaterialOk(Closing(l, step, kind, args, artifacts, outcome))
  {
  }

  lemma PlaceholderOk(owner: Id)
    ensures DescriptorOk(Placeholder(owner)) && Owners([Placeholder(owner)]) == {owner}
  {
  }

  lemma SumMoves(steps: map<Id, StepState>, s: Id, state: StepState)
    requires s in steps
    ensures Sum(steps[s := state], Weight()) == Sum(steps, Weight()) - Weight()(steps[s]) + Weight()(state)
  {
    hide Weight;
    SumRemove(steps, Weight(), s);
    SumRemove(steps[s := state], Weight(), s);
    assert steps[s := state] - {s} == steps - {s};
  }

  ghost function StoredOwner(l: Life, s: Id): (owner: Id)
    requires Open(l) && In(l, s, Stored)
    ensures s in l.stored && owner in l.stored[s]
  {
    var owner :| owner in l.stored[s];
    owner
  }

  /** The receipt that brings an incomplete step one further towards completion. */
  ghost function StepCloser(l: Life, s: Id): Receipt
    requires Open(l) && s in l.steps && l.steps[s] != Complete
  {
    match l.steps[s]
    case Started => Closing(l, s, PermitIssued, "", [], Ok)
    case Permitted => Closing(l, s, PermitRevoked, "", [], Ok)
    case Spent => Closing(l, s, ArtifactStored, "", [Placeholder("result")], Ok)
    case Stored => Closing(l, s, StepCompleted, "", [Placeholder(StoredOwner(l, s))], Ok)
  }

  /** What a closing receipt does to its step, and to nothing else that matters. */
  lemma StepCloses(l: Life, s: Id)
    requires Open(l) && s in l.steps && l.steps[s] != Complete
    ensures var n := Advance(l, StepCloser(l, s));
            && n.Some? && s in n.value.steps
            && n.value == l.(steps := l.steps[s := n.value.steps[s]], stored := n.value.stored, count := l.count + 1)
            && Weight()(n.value.steps[s]) < Weight()(l.steps[s])
            && (forall x :: In(n.value, x, Stored) ==> x in n.value.stored && n.value.stored[x] != {})
  {
    hide MaterialOk, DescriptorOk, Owners, Finalize;
    var r := StepCloser(l, s);
    PlaceholderOk("result");
    if l.steps[s] == Stored { PlaceholderOk(StoredOwner(l, s)); }
    MadeOfGoodMaterial(l, s, r.kind, "", r.artifacts, Ok);
  }

  lemma StepProgress(l: Life, s: Id)
    requires Open(l) && s in l.steps && l.steps[s] != Complete
    ensures var n := Advance(l, StepCloser(l, s));
            n.Some? && Open(n.value) && n.value.terminal == l.terminal && Todo(n.value) < Todo(l)
  {
    hide Advance, StepCloser, Sum, Weight;
    StepCloses(l, s);
    SumMoves(l.steps, s, Advance(l, StepCloser(l, s)).value.steps[s]);
  }

  lemma SomeLeft(a: set<Id>, b: set<Id>)
    requires b <= a && a != b
    ensures a - b != {}
  {
    if a - b == {} {
      assert forall x :: x in a ==> x in b || x in a - b;
    }
  }

  ghost function ChildCloser(l: Life): Receipt
    requires Open(l) && l.terminal.None? && l.prepared != l.closed
  {
    if l.prepared != l.linked then
      SomeLeft(l.prepared, l.linked);
      var c :| c in l.prepared - l.linked; Closing(l, "", ChildLinked, c, [Placeholder("link")], Ok)
    else
      SomeLeft(l.linked, l.closed);
      var c :| c in l.linked - l.closed; Closing(l, "", ChildClosed, c, [Placeholder("closure")], Ok)
  }

  lemma ChildProgress(l: Life)
    requires Open(l) && l.terminal.None? && l.prepared != l.closed
    ensures var n := Advance(l, ChildCloser(l));
            n.Some? && Open(n.value) && n.value.terminal == l.terminal && Todo(n.value) < Todo(l)
  {
    hide MaterialOk, Sum, DescriptorOk;
    var r := ChildCloser(l);
    PlaceholderOk("link");
    PlaceholderOk("closure");
    MadeOfGoodMaterial(l, "", r.kind, r.args, r.artifacts, Ok);
    if r.kind == ChildLinked {
      assert l.prepared - (l.linked + {r.args}) == l.prepared - l.linked - {r.args};
    } else {
      assert l.prepared - (l.closed + {r.args}) == l.prepared - l.closed - {r.args};
    }
  }

  /** What the run will be said to have come to. */
  function Destiny(l: Life): Terminal {
    if l.terminal.Some? then l.terminal.value else Success
  }

  lemma FinalizationFits(l: Life)
    requires Open(l) && (forall s :: s in l.steps ==> l.steps[s] == Complete)
    requires l.terminal.None? ==> l.prepared == l.closed
    ensures var n := Advance(l, Closing(l, "", RunFinalized, "", [], VerdictOf(Destiny(l), "")));
            n.Some? && n.value.finalized && n.value.terminal == Some(Destiny(l))
  {
  }

  lemma LiveMore(rs: seq<Receipt>, r: Receipt)
    requires Live(rs).Some?
    ensures Live(rs + [r]) == Advance(Live(rs).value, r)
  {
  }

  ghost predicate Finishes(rs: seq<Receipt>, ext: seq<Receipt>, t: Terminal) {
    Accepted(rs + ext, StrictCurrent) && Live(rs + ext).value.terminal == Some(t)
  }

  lemma ThenFinishes(rs: seq<Receipt>, r: Receipt, t: Terminal)
    requires exists ext :: Finishes(rs + [r], ext, t)
    ensures exists ext :: Finishes(rs, ext, t)
  {
    hide Accepted, Live;
    var ext :| Finishes(rs + [r], ext, t);
    assert rs + [r] + ext == rs + ([r] + ext);
    assert Finishes(rs, [r] + ext, t);
  }

  lemma {:induction false} OpenFinishes(rs: seq<Receipt>)
    requires Live(rs).Some? && Open(Live(rs).value)
    ensures exists ext :: Finishes(rs, ext, Destiny(Live(rs).value))
    decreases Todo(Live(rs).value)
  {
    hide Live, Advance, Open, Todo, Finishes;
    var l := Live(rs).value;
    if s :| s in l.steps && l.steps[s] != Complete {
      StepProgress(l, s);
      LiveMore(rs, StepCloser(l, s));
      OpenFinishes(rs + [StepCloser(l, s)]);
      ThenFinishes(rs, StepCloser(l, s), Destiny(l));
    } else if l.terminal.None? && l.prepared != l.closed {
      ChildProgress(l);
      LiveMore(rs, ChildCloser(l));
      OpenFinishes(rs + [ChildCloser(l)]);
      ThenFinishes(rs, ChildCloser(l), Destiny(l));
    } else {
      assert l.run.Some? by { OpenRun(l); }
      var r := Closing(l, "", RunFinalized, "", [], VerdictOf(Destiny(l), ""));
      FinalizationFits(l);
      LiveMore(rs, r);
      assert Finishes(rs, [r], Destiny(l)) by { FinishedBy(rs, r, Destiny(l)); }
    }
  }

  lemma OpenRun(l: Life)
    requires Open(l)
    ensures l.run.Some?
  {
  }

  lemma FinishedBy(rs: seq<Receipt>, r: Receipt, t: Terminal)
    requires Live(rs + [r]).Some? && Live(rs + [r]).value.finalized && Live(rs + [r]).value.terminal == Some(t)
    ensures Finishes(rs, [r], t)
  {
  }

  /**
   * No dead ends: every begun and unfinished sequence has an extension that the
   * strict validator accepts, ending as the run stood: with the cause recorded so
   * far, or in success if there is none.
   */
  lemma NoDeadEnd(rs: seq<Receipt>)
    requires Accepted(rs, AppendInProgress) && rs != [] && !Live(rs).value.finalized
    ensures exists ext :: Finishes(rs, ext, Destiny(Live(rs).value))
  {
    hide Advance, Live, Finishes;
    LifeTells(rs);
    SameRun(rs, |rs| - 1);
    assert rs[..|rs|] == rs;
    OpenFinishes(rs);
  }
}
