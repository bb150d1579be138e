/** The delegation tree: conservation of budget, attenuation, and finite chains. */
module PermitTree {
  import opened Common
  import opened PermitModel
  import opened PermitInvariant

  // ----- the tree -----

  predicate Descends(x: PermitId, r: PermitId) {
    x.parent.Some? && (x.parent.value == r || Descends(x.parent.value, r))
  }

  function Height(x: PermitId): nat {
    if x.parent.None? then 0 else 1 + Height(x.parent.value)
  }

  lemma {:induction false} DescendsIsDeeper(x: PermitId, r: PermitId)
    requires Descends(x, r)
    ensures Height(r) < Height(x)
  {
    if x.parent.value != r { DescendsIsDeeper(x.parent.value, r); }
  }

  /** Everything recorded below `r`. */
  function Below(st: Store, r: PermitId): set<PermitId> {
    set x | x in st.records && Descends(x, r)
  }

  function EffectsBelow(st: Store, r: PermitId): set<PermitId> {
    set x | x in Below(st, r) && x.body.purpose == Effect
  }

  // ----- totals -----

  ghost function Total(ids: set<PermitId>, d: Dimension): nat {
    if ids == {} then 0 else
      var x :| x in ids;
      x.body.budget.At(d) + Total(ids - {x}, d)
  }

  lemma {:induction false} TotalRemove(ids: set<PermitId>, d: Dimension, x: PermitId)
    requires x in ids
    ensures Total(ids, d) == x.body.budget.At(d) + Total(ids - {x}, d)
    decreases ids
  {
    var c :| c in ids && Total(ids, d) == c.body.budget.At(d) + Total(ids - {c}, d);
    if c != x {
      TotalRemove(ids - {c}, d, x);
      TotalRemove(ids - {x}, d, c);
      assert ids - {c} - {x} == ids - {x} - {c};
    }
  }

  lemma {:induction false} TotalSplit(ids: set<PermitId>, part: set<PermitId>, d: Dimension)
    requires part <= ids
    ensures Total(ids, d) == Total(part, d) + Total(ids - part, d)
    decreases part
  {
    if part == {} {
      assert ids - part == ids;
    } else {
      var x :| x in part;
      TotalRemove(part, d, x);
      TotalRemove(ids, d, x);
      TotalSplit(ids - {x}, part - {x}, d);
      assert ids - {x} - (part - {x}) == ids - part;
    }
  }

  lemma {:induction false} TotalIsAllocated(allocations: map<PermitId, Budget>, d: Dimension)
    requires forall c :: c in allocations ==> allocations[c] == c.body.budget
    ensures Total(allocations.Keys, d) == Allocated(allocations, d)
    decreases allocations.Keys
  {
    if allocations.Keys != {} {
      var x :| x in allocations;
      TotalRemove(allocations.Keys, d, x);
      SumRemove(allocations, Amount(d), x);
      TotalIsAllocated(allocations - {x}, d);
      assert (allocations - {x}).Keys == allocations.Keys - {x};
    }
  }

  function ChildrenIn(ids: set<PermitId>, c: PermitId): set<PermitId> {
    set x | x in ids && x.parent == Some(c)
  }

  /** If each member's children take no more than the member has, the children together take no more than the members. */
  lemma {:induction false} PartitionBound(children: set<PermitId>, members: set<PermitId>, d: Dimension)
    requires forall x :: x in children ==> x.parent.Some? && x.parent.value in members
    requires forall c :: c in members ==> Total(ChildrenIn(children, c), d) <= c.body.budget.At(d)
    ensures Total(children, d) <= Total(members, d)
    decreases members
  {
    if members == {} {
      assert children == {};
    } else {
      var c :| c in members;
      var own := ChildrenIn(children, c);
      var rest := children - own;
      forall k | k in members - {c} ensures Total(ChildrenIn(rest, k), d) <= k.body.budget.At(d) {
        assert ChildrenIn(rest, k) == ChildrenIn(children, k);
      }
      PartitionBound(rest, members - {c}, d);
      TotalSplit(children, own, d);
      TotalRemove(members, d, c);
    }
  }

  /** A parent and its child's parent link, as recorded. */
  lemma ParentIsControl(digest: Digest, st: Store, x: PermitId)
    requires Inv(digest, st) && x in st.records && x.parent.Some?
    ensures var p := x.parent.value;
            && p in st.records && p.body.purpose == Control && st.records[p].permit.purpose == Control
            && x in st.records[p].allocations
  {
    hide PermitOk, RecordOk, AllocationsFit;
    var p := x.parent.value;
    InvAt(digest, st, x);
    InvAt(digest, st, p);
  }

  /** One level: the recorded children of a control fit its own budget. */
  lemma ChildrenFit(digest: Digest, st: Store, ids: set<PermitId>, c: PermitId, d: Dimension)
    requires Inv(digest, st) && c in st.records && c.body.purpose == Control
    requires forall x :: x in ids ==> x in st.records
    ensures Total(ChildrenIn(ids, c), d) <= c.body.budget.At(d)
  {
    hide RecordOk, CeilingOk, BindingOk, Inv, Total, Allocated;
    InvAt(digest, st, c);
    var r := st.records[c];
    var kids := ChildrenIn(ids, c);
    forall x | x in kids ensures x in r.allocations { ParentIsControl(digest, st, x); }
    TotalSplit(r.allocations.Keys, kids, d);
    TotalIsAllocated(r.allocations, d);
  }

  /**
   * Tree conservation: whatever was delegated and re-delegated below a control,
   * the budgets of all effects recorded under it add up to no more than its
   * ceiling, in every dimension.
   */
  lemma TreeConservation(digest: Digest, st: Store, r: PermitId, d: Dimension)
    requires Inv(digest, st) && r in st.records && st.records[r].permit.purpose == Control
    ensures st.records[r].permit.ceiling.Some?
    ensures Total(EffectsBelow(st, r), d) <= st.records[r].permit.ceiling.value.budget.At(d)
  {
    hide RecordOk, CeilingOk, BindingOk, Inv, Total, Allocated, Descends;
    InvAt(digest, st, r);
    var all := Below(st, r);
    var effects := EffectsBelow(st, r);
    var controls := all - effects;
    var members := controls + {r};
    forall x | x in all ensures x.parent.Some? && x.parent.value in members { StepUp(digest, st, x, r); }
    forall c | c in members ensures Total(ChildrenIn(all, c), d) <= c.body.budget.At(d) {
      ChildrenFit(digest, st, all, c, d);
    }
    PartitionBound(all, members, d);
    TotalSplit(all, effects, d);
    assert r !in controls by { if r in all { DescendsIsDeeper(r, r); } }
    TotalRemove(members, d, r);
    assert members - {r} == controls;
  }

  lemma StepUp(digest: Digest, st: Store, x: PermitId, r: PermitId)
    requires Inv(digest, st) && x in st.records && Descends(x, r)
    ensures x.parent.Some? && x.parent.value in st.records
    ensures x.parent.value == r || (Descends(x.parent.value, r) && x.parent.value.body.purpose == Control)
  {
  }

  /** In every reachable store, also after a crash between the parent's and the child's record. */
  lemma ReachableConservation(f: Format, trace: seq<Store>, ops: seq<Op>, i: nat, r: PermitId, d: Dimension)
    requires IsRun(f, trace, ops) && i < |trace|
    requires r in trace[i].records && trace[i].records[r].permit.purpose == Control
    ensures trace[i].records[r].permit.ceiling.Some?
    ensures Total(EffectsBelow(trace[i], r), d) <= trace[i].records[r].permit.ceiling.value.budget.At(d)
    ensures Allocated(trace[i].records[r].allocations, d) <= trace[i].records[r].permit.ceiling.value.budget.At(d)
  {
    hide Inv, IsRun, EffectsBelow, RecordOk, PermitOk;
    RunKeepsInv(f, trace, ops, i);
    TreeConservation(f.digest, trace[i], r, d);
    InvAt(f.digest, trace[i], r);
  }

  // ----- attenuation -----

  /** The inner ceiling grants nothing the outer one does not. */
  ghost predicate Inside(x: Ceiling, c: Ceiling) {
    && x.actor == c.actor && x.run == c.run && x.policyVersion == c.policyVersion
    && c.notBefore <= x.notBefore && x.expiresAt <= c.expiresAt && x.budget.Within(c.budget)
    && forall a :: a in x.actions ==> a in c.actions
  }

  lemma InsideTrans(x: Ceiling, y: Ceiling, z: Ceiling)
    requires Inside(x, y) && Inside(y, z)
    ensures Inside(x, z)
  {
  }

  lemma ControlEdge(digest: Digest, st: Store, x: PermitId)
    requires Inv(digest, st) && x in st.records && x.parent.Some? && x.body.purpose == Control
    ensures x.parent.value in st.records
    ensures var p := st.records[x.parent.value].permit;
            && p.ceiling.Some? && st.records[x].permit.ceiling.Some?
            && ControlUnder(digest, st.records[x].permit, p.ceiling.value)
            && CeilingOk(digest, p.ceiling.value)
            && Inside(st.records[x].permit.ceiling.value, p.ceiling.value)
  {
    hide RecordOk, BindingOk, AllocationsFit, Inv, EffectUnder, CeilingOk;
    InvAt(digest, st, x);
    InvAt(digest, st, x.parent.value);
  }

  /** Every control below `r` has a ceiling inside that of `r`. */
  lemma {:induction false} ControlInside(digest: Digest, st: Store, x: PermitId, r: PermitId)
    requires Inv(digest, st) && x in st.records && x.body.purpose == Control && Descends(x, r)
    ensures r in st.records && st.records[r].permit.ceiling.Some? && st.records[x].permit.ceiling.Some?
    ensures Inside(st.records[x].permit.ceiling.value, st.records[r].permit.ceiling.value)
    decreases x
  {
    hide Inv, ControlUnder, CeilingOk, Inside;
    ControlEdge(digest, st, x);
    var p := x.parent.value;
    if p != r {
      StepUp(digest, st, x, r);
      ControlInside(digest, st, p, r);
      InsideTrans(st.records[x].permit.ceiling.value, st.records[p].permit.ceiling.value, st.records[r].permit.ceiling.value);
    }
  }

  /** The effect is one of the ceiling's actions, within its roots, with its executables. */
  ghost predicate UnderAction(p: Permit, a: Action) {
    var b := p.binding;
    && b.effect.name == a.effect.name && b.effect.network == a.effect.network
    && RootsWithin(b.effect.readRoots, a.effect.readRoots) && RootsWithin(b.effect.writeRoots, a.effect.writeRoots)
    && p.executables == a.executables
    && (Names(a, b) || (ClosedLane(NORMAL_CHAT_LANE, b.tool, b.effect) && a.tool == NORMAL_CHAT_LANE && a.effect == b.effect))
  }

  ghost predicate EffectInside(p: Permit, c: Ceiling) {
    var b := p.binding;
    && b.actor == c.actor && b.run == c.run && b.policyVersion == c.policyVersion
    && c.notBefore <= b.notBefore && b.expiresAt <= c.expiresAt && b.budget.Within(c.budget)
    && exists a :: a in c.actions && UnderAction(p, a)
  }

  lemma {:induction false} NamedIsThere(actions: seq<Action>, b: Binding)
    ensures var f := FirstNamed(actions, b); f.Some? ==> f.value in actions && Names(f.value, b)
  {
    if actions != [] { NamedIsThere(actions[1..], b); }
  }

  lemma {:induction false} ChatIsThere(actions: seq<Action>, e: EffectScope)
    ensures var f := FirstChat(actions, e); f.Some? ==> f.value in actions && f.value.tool == NORMAL_CHAT_LANE && f.value.effect == e
  {
    if actions != [] { ChatIsThere(actions[1..], e); }
  }

  lemma EffectEdge(digest: Digest, child: Permit, parent: Permit, chatRetry: bool)
    requires EdgeOk(digest, child, parent, chatRetry) && child.purpose == Effect
    ensures parent.ceiling.Some? && EffectInside(child, parent.ceiling.value)
  {
    hide ControlUnder, DelegationFrom, IdOf;
    var c, b := parent.ceiling.value, child.binding;
    NamedIsThere(c.actions, b);
    ChatIsThere(c.actions, b.effect);
    assert UnderAction(child, ActionFor(c, b, chatRetry).value);
  }

  /**
   * Attenuation: an effect anywhere below a control lies within that control's
   * ceiling: its actor, run, policy and window, and one of its actions.
   */
  lemma EffectWithinRoot(digest: Digest, st: Store, e: PermitId, r: PermitId)
    requires Inv(digest, st) && e in st.records && e.body.purpose == Effect && Descends(e, r)
    ensures r in st.records && st.records[r].permit.ceiling.Some?
    ensures EffectInside(st.records[e].permit, st.records[r].permit.ceiling.value)
  {
    hide Inv, RecordOk, PermitOk, EdgeOk, AllocationsFit;
    InvAt(digest, st, e);
    var p := e.parent.value;
    var child, parent := st.records[e].permit, st.records[p].permit;
    EffectEdge(digest, child, parent, EdgeOk(digest, child, parent, true));
    if p != r {
      StepUp(digest, st, e, r);
      ControlInside(digest, st, p, r);
    }
  }

  // ----- finite chains -----

  function Measure(c: Ceiling): int {
    |c.actions| + c.budget.wallTimeMs + c.budget.outputBytes + c.budget.artifactBytes + (c.expiresAt - c.notBefore)
  }

  lemma {:induction false} SortedIsBelowLast(digest: Digest, actions: seq<Action>, i: nat, j: nat)
    requires forall k :: 0 < k < |actions| ==> digest(actions[k - 1]) < digest(actions[k])
    requires i < j < |actions|
    ensures digest(actions[i]) < digest(actions[j])
  {
    if i < j - 1 { SortedIsBelowLast(digest, actions, i, j - 1); }
  }

  function Elements(actions: seq<Action>): set<Action> {
    set a | a in actions
  }

  lemma OneElementMore(actions: seq<Action>)
    requires actions != []
    ensures var n := |actions| - 1; Elements(actions) == Elements(actions[..n]) + {actions[n]}
  {
    var n := |actions| - 1;
    assert actions == actions[..n] + [actions[n]];
  }

  lemma LastIsNew(digest: Digest, actions: seq<Action>)
    requires actions != [] && forall k :: 0 < k < |actions| ==> digest(actions[k - 1]) < digest(actions[k])
    ensures actions[|actions| - 1] !in Elements(actions[..|actions| - 1])
  {
    var n := |actions| - 1;
    forall i | 0 <= i < n ensures actions[i] != actions[n] { SortedIsBelowLast(digest, actions, i, n); }
  }

  lemma {:induction false} ElementsCount(digest: Digest, actions: seq<Action>)
    ensures |Elements(actions)| <= |actions|
    ensures (forall k :: 0 < k < |actions| ==> digest(actions[k - 1]) < digest(actions[k])) ==> |Elements(actions)| == |actions|
  {
    if actions != [] {
      var front := actions[..|actions| - 1];
      ElementsCount(digest, front);
      OneElementMore(actions);
      if forall k :: 0 < k < |actions| ==> digest(actions[k - 1]) < digest(actions[k]) {
        assert forall k :: 0 < k < |front| ==> digest(front[k - 1]) < digest(front[k]);
        LastIsNew(digest, actions);
      }
    }
  }

  /** Distinct actions drawn from a list are no more than the list. */
  lemma Pigeonhole(digest: Digest, x: seq<Action>, c: seq<Action>)
    requires ActionsOk(digest, x) && forall a :: a in x ==> a in c
    ensures |x| <= |c|
  {
    hide ActionOk;
    ElementsCount(digest, x);
    ElementsCount(digest, c);
    assert Elements(x) <= Elements(c);
    CountSubset(Elements(x), Elements(c));
  }

  lemma {:induction false} CountSubset<T>(a: set<T>, b: set<T>)
    requires a <= b
    ensures |a| <= |b|
  {
    assert b == a + (b - a);
  }

  lemma EdgeShrinks(digest: Digest, child: Permit, c: Ceiling)
    requires ControlUnder(digest, child, c)
    ensures Measure(child.ceiling.value) < Measure(c)
  {
    Pigeonhole(digest, child.ceiling.value.actions, c.actions);
  }

  /** How many edges lie between a permit and the control it descends from. */
  function Edges(x: PermitId, r: PermitId): nat
    requires Descends(x, r)
  {
    if x.parent.value == r then 1 else 1 + Edges(x.parent.value, r)
  }

  /**
   * Each control-to-control edge shrinks the sum of actions, budget and window, so
   * a chain of controls below `r` is no longer than that sum is for `r`.
   */
  lemma {:induction false} ChainIsShort(digest: Digest, st: Store, x: PermitId, r: PermitId)
    requires Inv(digest, st) && x in st.records && x.body.purpose == Control && Descends(x, r)
    ensures r in st.records && st.records[r].permit.ceiling.Some? && st.records[x].permit.ceiling.Some?
    ensures 0 < Measure(st.records[x].permit.ceiling.value)
    ensures Measure(st.records[x].permit.ceiling.value) + Edges(x, r) <= Measure(st.records[r].permit.ceiling.value)
    decreases x
  {
    hide Inv, ControlUnder, Inside, AudiencesOk, ActionsOk;
    ControlEdge(digest, st, x);
    EdgeShrinks(digest, st.records[x].permit, st.records[x.parent.value].permit.ceiling.value);
    assert CeilingOk(digest, st.records[x].permit.ceiling.value) by { OwnCeilingOk(digest, st, x); }
    var p := x.parent.value;
    if p != r {
      StepUp(digest, st, x, r);
      ChainIsShort(digest, st, p, r);
    }
  }

  lemma OwnCeilingOk(digest: Digest, st: Store, x: PermitId)
    requires Inv(digest, st) && x in st.records && x.body.purpose == Control
    ensures st.records[x].permit.ceiling.Some? && CeilingOk(digest, st.records[x].permit.ceiling.value)
  {
  }

  /**
   * Attenuation in every reachable store: an effect below a control lies within its
   * ceiling, and the chain of controls between them is no longer than the sum of
   * actions, budget and window of that ceiling.
   */
  lemma ReachableAttenuation(f: Format, trace: seq<Store>, ops: seq<Op>, i: nat, x: PermitId, r: PermitId)
    requires IsRun(f, trace, ops) && i < |trace| && x in trace[i].records && Descends(x, r)
    ensures r in trace[i].records && trace[i].records[r].permit.ceiling.Some?
    ensures x.body.purpose == Effect ==>
      EffectInside(trace[i].records[x].permit, trace[i].records[r].permit.ceiling.value)
    ensures x.body.purpose == Control ==>
      && trace[i].records[x].permit.ceiling.Some?
      && Inside(trace[i].records[x].permit.ceiling.value, trace[i].records[r].permit.ceiling.value)
      && Edges(x, r) < Measure(trace[i].records[r].permit.ceiling.value)
  {
    hide Inv, IsRun, EffectInside, Inside, Measure;
    RunKeepsInv(f, trace, ops, i);
    if x.body.purpose == Effect {
      EffectWithinRoot(f.digest, trace[i], x, r);
    } else {
      ControlInside(f.digest, trace[i], x, r);
      ChainIsShort(f.digest, trace[i], x, r);
    }
  }
}
