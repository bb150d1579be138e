/** Safety of the admission domain over whole runs. */
module AdmissionRuns {
  import opened Common
  import opened AdmissionModel
  import opened AdmissionInvariant
  import opened AdmissionTheorems
  import opened AdmissionCapacity
  import opened AdmissionHistory

  lemma RunStep(config: Config, trace: seq<Admission>, actions: seq<Action>, i: nat)
    requires DomainRun(config, trace, actions) && i < |actions|
    ensures Inv(trace[i]) && Enabled(trace[i], actions[i]) && TicketLeft(trace[i], actions[i])
    ensures trace[i + 1] == StepReply(trace[i], actions[i]).0
  {
    RunKeepsInv(config, trace, actions, i);
  }

  /** Charges, budgets in use and fences survive everything that happens later. */
  lemma {:induction false} RunRemembers(config: Config, trace: seq<Admission>, actions: seq<Action>, i: nat, j: nat)
    requires DomainRun(config, trace, actions) && i <= j < |trace|
    ensures Remembers(trace[i], trace[j])
    decreases j - i
  {
    hide Inv, StepReply, Remembers, DomainRun;
    if i == j {
      RunKeepsInv(config, trace, actions, i);
      assert Accounted(trace[i]) by { InvAccounted(trace[i]); }
      RemembersSelf(trace[i]);
    } else {
      RunRemembers(config, trace, actions, i, j - 1);
      assert |trace| == |actions| + 1 by { RunLength(config, trace, actions); }
      RunStep(config, trace, actions, j - 1);
      StepRemembers(trace[j - 1], actions[j - 1], "");
      RemembersTrans(trace[i], trace[j - 1], trace[j]);
    }
  }

  lemma InvAccounted(s: Admission)
    requires Inv(s)
    ensures Accounted(s) && FenceHolds(s)
  {
  }

  lemma RunLength(config: Config, trace: seq<Admission>, actions: seq<Action>)
    requires DomainRun(config, trace, actions)
    ensures |trace| == |actions| + 1
  {
  }

  ghost predicate Admits(s: Admission, a: Action, id: Id) {
    Enabled(s, a) && StepReply(s, a).1 == Admitted(id)
  }

  /** No operation id is admitted twice, whatever became of it in between. */
  lemma AdmittedOnce(config: Config, trace: seq<Admission>, actions: seq<Action>, i: nat, j: nat, id: Id)
    requires DomainRun(config, trace, actions) && i < |actions| && j < |actions|
    requires Admits(trace[i], actions[i], id) && Admits(trace[j], actions[j], id)
    ensures i == j
  {
    hide Inv, StepReply, DomainRun;
    if i > j {
      AdmittedOnce(config, trace, actions, j, i, id);
    } else if i < j {
      RunLength(config, trace, actions);
      RunStep(config, trace, actions, i);
      StepRemembers(trace[i], actions[i], id);
      RunRemembers(config, trace, actions, i + 1, j);
      RunStep(config, trace, actions, j);
      StepRemembers(trace[j], actions[j], id);
    }
  }

  /** After a parent is fenced none of its leaves is ever queued or active again. */
  lemma FencedForever(config: Config, trace: seq<Admission>, actions: seq<Action>, i: nat, j: nat, parent: Id)
    requires DomainRun(config, trace, actions) && i < j < |trace|
    requires i < |actions| && actions[i] == FenceParent(parent)
    ensures forall x :: x in trace[j].queue ==> x.request.parent != Some(parent)
    ensures forall k :: k in trace[j].active ==> trace[j].active[k].request.parent != Some(parent)
  {
    hide Inv, StepReply, DomainRun;
    RunStep(config, trace, actions, i);
    StepRemembers(trace[i], actions[i], "");
    RunRemembers(config, trace, actions, i + 1, j);
    RunKeepsInv(config, trace, actions, j);
    InvAccounted(trace[j]);
    var s := trace[j];
    forall x | x in s.queue ensures x.request.parent != Some(parent) { assert Unfenced(s, x.request); }
    forall k | k in s.active ensures s.active[k].request.parent != Some(parent) { assert Unfenced(s, s.active[k].request); }
  }

  /**
   * A draining leaf whose provider call is open keeps its slot, lanes and bytes
   * until that call is reported over: releases, reconciliations, drops, fences
   * and late timeouts in between leave it where it is.
   */
  lemma {:induction false} PinnedUntilReported(config: Config, trace: seq<Admission>, actions: seq<Action>, i: nat, j: nat, id: Id)
    requires DomainRun(config, trace, actions) && i <= j < |trace| == |actions| + 1
    requires Pinned(trace[i], id)
    requires forall k :: i <= k < j ==> actions[k] != SetInFlight(id, false)
    ensures id in trace[j].draining && trace[j].draining[id] == trace[i].draining[id]
    decreases j - i
  {
    hide Inv, StepReply, DomainRun, Remembers;
    if i < j {
      PinnedUntilReported(config, trace, actions, i, j - 1, id);
      RunStep(config, trace, actions, j - 1);
      StepRemembers(trace[j - 1], actions[j - 1], id);
    }
  }

  /** Dropping a reservation is two steps of the domain. */
  lemma DropIsTwoSteps(s: Admission, id: Id)
    ensures DropReservation(s, id)
         == if id in s.active then Step(s, Release(id)) else Step(Step(s, Release(id)), Reconcile(id))
  {
  }

  // ----- cumulative budgets -----

  lemma TotalGrows(u: map<Id, UsageRecord>, v: map<Id, UsageRecord>, scope: Id, d: Dimension)
    requires UsageGrows(u, v)
    ensures ScopeTotal(u, scope, d) <= ScopeTotal(v, scope, d)
  {
    SumMonotone(u, v, ScopeAmount(scope, d), ScopeAmount(scope, d));
  }

  lemma ExceededIff(usage: map<Id, UsageRecord>, scope: Id, budget: Amounts)
    ensures FirstExceeded(usage, scope, budget).None? <==> WithinBudget(usage, scope, budget)
    ensures var e := FirstExceeded(usage, scope, budget);
            e.Some? ==> ScopeTotal(usage, scope, e.value) > budget.At(e.value)
  {
  }

  /**
   * A charge on a live operation is recorded, and succeeds exactly when all six
   * saturated totals of its scope then fit the budget of the scope. Its
   * missing-record and missing-budget errors cannot happen.
   */
  lemma ChargeIff(config: Config, trace: seq<Admission>, actions: seq<Action>, i: nat, id: Id, delta: Amounts)
    requires DomainRun(config, trace, actions) && i < |trace|
    requires id in trace[i].active || id in trace[i].draining
    ensures var s := trace[i];
            && id in s.usage && s.usage[id].scope in s.scopeBudgets
            && var (n, r) := Charge(s, id, delta);
            && id in n.usage && n.usage[id].usage == s.usage[id].usage.Plus(delta)
            && (r.Charged? <==> WithinBudget(n.usage, s.usage[id].scope, s.scopeBudgets[s.usage[id].scope]))
            && (!r.Charged? ==> r.Rejected? && r.error.BudgetExceeded?)
  {
    hide WithinBudget, FirstExceeded, Held, Ticketed, Attended, FenceHolds, Told, Awake;
    var s := trace[i];
    RunKeepsInv(config, trace, actions, i);
    InvAccounted(s);
    var scope := s.usage[id].scope;
    ExceededIff(s.usage[id := s.usage[id].(usage := s.usage[id].usage.Plus(delta))], scope, s.scopeBudgets[scope]);
  }

  /** Some operation of the scope has run, and the scope has outspent its budget. */
  ghost predicate Outspent(s: Admission, scope: Id) {
    && (exists k :: k in s.usage && s.usage[k].scope == scope)
    && scope in s.scopeBudgets && !WithinBudget(s.usage, scope, s.scopeBudgets[scope])
  }

  lemma OutspentStays(s: Admission, n: Admission, scope: Id)
    requires Remembers(s, n) && Outspent(s, scope)
    ensures Outspent(n, scope)
  {
    hide ScopeTotal;
    var k :| k in s.usage && s.usage[k].scope == scope;
    assert k in n.usage && n.usage[k].scope == scope;
    var d: Dimension :| ScopeTotal(s.usage, scope, d) > s.scopeBudgets[scope].At(d);
    TotalGrows(s.usage, n.usage, scope, d);
    assert ScopeTotal(n.usage, scope, d) > n.scopeBudgets[scope].At(d);
  }

  /**
   * Overspending is sticky: once a scope is over budget every later charge on any
   * of its operations fails, across releases, fences and reconfigurations.
   */
  lemma OutspentForever(config: Config, trace: seq<Admission>, actions: seq<Action>, i: nat, j: nat, scope: Id)
    requires DomainRun(config, trace, actions) && i <= j < |actions| && j < |trace|
    requires Outspent(trace[i], scope)
    requires actions[j].ChargeUsage? && actions[j].charged in trace[j].usage
    requires trace[j].usage[actions[j].charged].scope == scope
    ensures StepReply(trace[j], actions[j]).1.Rejected?
  {
    hide WithinBudget, DomainRun, Inv, Remembers;
    RunRemembers(config, trace, actions, i, j);
    OutspentStays(trace[i], trace[j], scope);
    var s, id, delta := trace[j], actions[j].charged, actions[j].delta;
    if id in s.active || id in s.draining {
      ChargeIff(config, trace, actions, j, id, delta);
      RunStep(config, trace, actions, j);
      StepRemembers(s, actions[j], id);
      OutspentStays(s, Charge(s, id, delta).0, scope);
      ChargeFrame(s, id, delta);
    }
  }

  // ----- capacity -----

  /** Every occupancy is within its cap; a lane cap of `usize::MAX` cannot be enforced, see `LaneCapIff`. */
  ghost predicate WithinCaps(s: Admission, pool: Pool, lane: Id) {
    && Slots(s) <= s.config.globalMaxActive && |s.queue| <= s.config.maxQueued
    && Held(s, pool) <= PoolCap(s.config, pool)
    && (Used(s, lane) == 0 || LaneWithin(s, lane))
  }

  ghost predicate Unconfigured(actions: seq<Action>) {
    forall i :: 0 <= i < |actions| ==> !actions[i].Configure?
  }

  lemma {:induction false} CapacitySafety(config: Config, trace: seq<Admission>, actions: seq<Action>, i: nat, pool: Pool, lane: Id)
    requires DomainRun(config, trace, actions) && Unconfigured(actions) && i < |trace|
    ensures trace[i].config == config && WithinCaps(trace[i], pool, lane)
  {
    hide Inv, StepReply, Held, LaneUsed;
    if i == 0 {
      FreshIsEmpty(config, pool, lane);
    } else {
      CapacitySafety(config, trace, actions, i - 1, pool, lane);
      RunStep(config, trace, actions, i - 1);
      StepRaisesWithin(trace[i - 1], actions[i - 1], pool, lane);
      StepKeepsConfig(trace[i - 1], actions[i - 1]);
    }
  }

  /**
   * Across reconfigurations: only a submission or an admission raises an occupancy,
   * and whatever a step raises ends within the cap then in force.
   */
  lemma RaisedOnlyWithin(config: Config, trace: seq<Admission>, actions: seq<Action>, i: nat, pool: Pool, lane: Id)
    requires DomainRun(config, trace, actions) && i < |actions| && i + 1 < |trace|
    ensures RaisedWithin(trace[i], trace[i + 1], pool, lane)
    ensures !actions[i].ReserveStart? && !actions[i].ReserveResume? ==> NoHigher(trace[i], trace[i + 1], pool, lane)
  {
    hide Inv, StepReply, DomainRun, RaisedWithin, NoHigher;
    RunStep(config, trace, actions, i);
    StepRaisesWithin(trace[i], actions[i], pool, lane);
    if !actions[i].ReserveStart? && !actions[i].ReserveResume? {
      InvPools(trace[i]);
      OnlyReserveRaises(trace[i], actions[i], pool, lane);
    }
  }

  lemma FreshIsEmpty(config: Config, pool: Pool, lane: Id)
    ensures Held(Fresh(config), pool) == 0 && Used(Fresh(config), lane) == 0
  {
  }

  lemma StepKeepsConfig(s: Admission, a: Action)
    requires Enabled(s, a) && !a.Configure?
    ensures StepReply(s, a).0.config == s.config
  {
    hide Retained, NextAdmissible, MarkUnknown, Chosen, FirstExceeded, RequestError, SubmissionError, LeafAt,
      Without, ChildrenOf, NotChildrenOf, ActiveChildren, UsesProvider, QueueIds, QueueScopes, SatAdd;
  }
}
