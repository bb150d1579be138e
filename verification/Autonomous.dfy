/**
 * The autonomous loop: one runner, one set of counters, and a recursion that
 * delegates to itself. Planner, executor, clock and cancellation are arbitrary:
 * every call to one of them gets the number of calls made so far.
 */
module Autonomous {
  import opened Common
  import TreeSearch

  const MAX_INPUT_BYTES := 256 * 1024
  const MAX_INTENTS := 64
  const MAX_AUTONOMOUS_DEPTH := 8
  const MAX_AUTONOMOUS_STEPS := 64
  const MAX_AUTONOMOUS_CHILDREN := 16
  const MAX_WALL_TIME_MS := 300_000
  const MAX_OUTPUT_BYTES := 1024 * 1024

  type Value = string

  datatype Budget = Budget(maxDepth: nat, maxSteps: nat, maxChildren: nat, maxWallTimeMs: nat, maxOutputBytes: nat)

  predicate BudgetOk(b: Budget) {
    && 0 < b.maxDepth <= MAX_AUTONOMOUS_DEPTH && 0 < b.maxSteps <= MAX_AUTONOMOUS_STEPS
    && 0 < b.maxChildren <= MAX_AUTONOMOUS_CHILDREN
    && 0 < b.maxWallTimeMs <= MAX_WALL_TIME_MS && 0 < b.maxOutputBytes <= MAX_OUTPUT_BYTES
  }

  datatype Intent = Intent(name: string, payload: Value, delegate: bool)

  datatype Plan = Plan(complete: bool, intents: seq<Intent>)

  predicate PlanOk(p: Plan) {
    (p.complete <==> p.intents == []) && |p.intents| <= MAX_INTENTS
  }

  datatype Error = InvalidBudget | InputTooLarge | Cancelled | BudgetExceeded | RecursionLimit | Failed

  datatype Result = Success(output: Value) | Failure(error: Error)

  datatype Decision = Stop(result: Result) | Go(intent: Intent)

  /**
   * Everything the loop calls out to, by call number: the plan for an observation,
   * the output of an intent, cancellation, elapsed time, and whether a call to the
   * transcript, the memory or the skill store goes wrong. Outputs have a size.
   */
  datatype World = World(
    propose: (nat, Value) -> Option<Plan>, execute: (nat, Intent) -> Option<Value>,
    cancelled: nat -> bool, elapsedMs: nat -> nat, breaks: nat -> bool, size: Value -> nat,
    choices: TreeSearch.Choices, best: TreeSearch.Preference)

  ghost predicate Fair(w: World) {
    TreeSearch.Picks(w.choices) && TreeSearch.Prefers(w.best)
  }

  function Names(intents: seq<Intent>): seq<string> {
    seq(|intents|, i requires 0 <= i < |intents| => intents[i].name)
  }

  /** An intent the planner proposed for an observation. */
  ghost predicate Planned(w: World, observed: Value, intent: Intent) {
    exists call: nat :: ProposedAt(w, call, observed, intent)
  }

  ghost predicate ProposedAt(w: World, call: nat, observed: Value, intent: Intent) {
    var plan := w.propose(call, observed);
    plan.Some? && PlanOk(plan.value) && intent in plan.value.intents
  }

  /** The first intent of the selected name. */
  method Find(intents: seq<Intent>, name: string) returns (k: nat)
    requires name in Names(intents)
    ensures k < |intents| && intents[k].name == name
    ensures forall j :: 0 <= j < k ==> intents[j].name != name
  {
    var names := Names(intents);
    k := 0;
    while intents[k].name != name
      invariant k < |intents| && name in names[k..]
      invariant forall j :: 0 <= j < k ==> intents[j].name != name
      decreases |intents| - k
    {
      assert names[k..] == [names[k]] + names[k + 1..];
      k := k + 1;
    }
  }

  /**
   * The search picks an intent of the plan. There is always a path of one name,
   * and the name is always one of the intents, so neither "no intent" nor
   * "unknown intent" can be reported.
   */
  method Select(w: World, plan: Plan, iterations: nat) returns (k: nat)
    requires Fair(w) && plan.intents != [] && iterations > 0
    ensures k < |plan.intents|
    ensures var root := TreeSearch.Searched(Names(plan.intents), 1, Min(iterations, TreeSearch.MAX_ITERATIONS), w.choices);
            TreeSearch.Followed(root, w.best) == [plan.intents[k].name]
    ensures forall j :: 0 <= j < k ==> plan.intents[j].name != plan.intents[k].name
  {
    hide TreeSearch.Searched, TreeSearch.Followed;
    var names := Names(plan.intents);
    var root := TreeSearch.SearchBounded(names, iterations, 1, w.choices);
    var path := TreeSearch.BestPath(root, w.best);
    TreeSearch.SelectionIsTotal(names, 1, Min(iterations, TreeSearch.MAX_ITERATIONS), w.choices, w.best);
    assert path == [path[0]];
    k := Find(plan.intents, path[0]);
  }

  class Runner {
    const world: World
    const budget: Budget
    var steps: nat
    var children: nat
    var outputBytes: nat
    /** How many calls the runner has made to the outside. */
    var calls: nat
    /** Each execution, with the observation it was planned for. */
    ghost var executed: seq<(Value, Intent)>
    ghost var delegated: nat
    ghost var deepest: nat

    /**
     * Executions and delegations are counted, no counter or depth is beyond the
     * budget, and nothing was executed that had not been planned.
     */
    ghost predicate Valid()
      reads this
    {
      && Fair(world) && BudgetOk(budget)
      && |executed| <= steps <= budget.maxSteps
      && delegated == children <= budget.maxChildren
      && deepest <= budget.maxDepth
      && forall x :: x in executed ==> Planned(world, x.0, x.1)
    }

    constructor (w: World, b: Budget)
      requires Fair(w) && BudgetOk(b)
      ensures Valid() && world == w && budget == b && executed == [] && delegated == 0 && deepest == 0
    {
      world, budget := w, b;
      steps, children, outputBytes, calls := 0, 0, 0, 0;
      executed, delegated, deepest := [], 0, 0;
    }

    /** A call to the transcript, the memory or the skill store. */
    method Record() returns (ok: bool)
      modifies `calls
      ensures calls == old(calls) + 1 && ok == !world.breaks(old(calls))
    {
      ok := !world.breaks(calls);
      calls := calls + 1;
    }

    /** Why the loop may not go on, in the order in which it is found out. */
    function Obstacle(depth: nat): Option<Error>
      reads this
    {
      if world.cancelled(calls) then Some(Cancelled)
      else if depth > budget.maxDepth || steps >= budget.maxSteps || outputBytes >= budget.maxOutputBytes then Some(BudgetExceeded)
      else if world.elapsedMs(calls) > budget.maxWallTimeMs then Some(BudgetExceeded)
      else None
    }

    method Guard(depth: nat) returns (error: Option<Error>)
      modifies `calls
      ensures calls == old(calls) + 1 && error == Obstacle(depth)
    {
      calls := calls + 1;
      if world.cancelled(calls) { return Some(Cancelled); }
      if depth > budget.maxDepth || steps >= budget.maxSteps || outputBytes >= budget.maxOutputBytes {
        return Some(BudgetExceeded);
      }
      if world.elapsedMs(calls) > budget.maxWallTimeMs { return Some(BudgetExceeded); }
      return None;
    }

    /** What a node of the recursion may add to the counters, whatever its outcome. */
    twostate predicate Grew()
      reads this
    {
      && old(steps) <= steps && old(children) <= children && old(executed) <= executed && old(deepest) <= deepest
      && |executed| - |old(executed)| <= steps - old(steps)
    }

    /** Guard, recall, propose and select: a planned intent to execute, or the end of the node. */
    method Decide(observed: Value, depth: nat) returns (decision: Decision)
      requires Fair(world) && BudgetOk(budget)
      modifies `calls
      ensures decision.Go? ==> Planned(world, observed, decision.intent)
      ensures decision.Go? ==> depth <= budget.maxDepth && steps < budget.maxSteps && outputBytes < budget.maxOutputBytes
      ensures decision.Stop? && decision.result.Success? ==> decision.result.output == observed
    {
      var guarded := Guard(depth);
      if guarded.Some? { return Stop(Failure(guarded.value)); }
      var recalled := Record();
      if !recalled { return Stop(Failure(Failed)); }
      var plan := world.propose(calls, observed);
      ghost var asked := calls;
      calls := calls + 1;
      if plan.None? || !PlanOk(plan.value) { return Stop(Failure(Failed)); }
      var proposed := Record();
      if !proposed { return Stop(Failure(Failed)); }
      if plan.value.complete {
        var completed := Record();
        return Stop(if completed then Success(observed) else Failure(Failed));
      }
      var k := Select(world, plan.value, budget.maxSteps);
      assert ProposedAt(world, asked, observed, plan.value.intents[k]);
      return Go(plan.value.intents[k]);
    }

    /** One step: guard, count, execute, review. The budget is checked before the step is counted. */
    method Execute(observed: Value, intent: Intent, depth: nat) returns (result: Result)
      requires steps <= budget.maxSteps
      modifies `calls, `steps, `outputBytes, `executed
      ensures old(steps) <= steps <= budget.maxSteps
      ensures executed == old(executed) || (executed == old(executed) + [(observed, intent)] && steps == old(steps) + 1)
      ensures result.Success? ==>
        && executed == old(executed) + [(observed, intent)]
        && (exists call: nat :: world.execute(call, intent) == Some(result.output))
        && outputBytes == old(outputBytes) + world.size(result.output) <= budget.maxOutputBytes
    {
      var guarded := Guard(depth);
      if guarded.Some? { return Failure(guarded.value); }
      steps := steps + 1;
      var accepted := Record();
      if !accepted { return Failure(Failed); }
      var output := world.execute(calls, intent);
      calls := calls + 1;
      executed := executed + [(observed, intent)];
      if output.None? { return Failure(Failed); }
      outputBytes := outputBytes + world.size(output.value);
      if outputBytes > budget.maxOutputBytes { return Failure(BudgetExceeded); }
      var reviewed := Record();
      return if reviewed then Success(output.value) else Failure(Failed);
    }

    /** One turn of the loop: an observation to go on with, or the end of the node. */
    method Turn(observed: Value, depth: nat) returns (next: Option<Value>, result: Result)
      requires Valid() && depth <= budget.maxDepth
      modifies this
      ensures Valid() && Grew() && (next.Some? ==> old(steps) < steps)
      decreases budget.maxSteps - steps, 0
    {
      hide Fair, BudgetOk, Planned;
      var decision := Decide(observed, depth);
      if decision.Stop? { return None, decision.result; }
      result := Execute(observed, decision.intent, depth);
      if result.Failure? { return None, result; }
      if decision.intent.delegate {
        if depth >= budget.maxDepth || children >= budget.maxChildren {
          var noted := Record();
          return None, Failure(if noted then RecursionLimit else Failed);
        }
        children := children + 1;
        delegated := delegated + 1;
        var handed := Record();
        if !handed { return None, Failure(Failed); }
        result := RunNode(result.output, depth + 1);
        if result.Failure? { return None, result; }
      }
      return Some(result.output), result;
    }

    method Run(input: Value) returns (result: Result)
      requires Valid()
      modifies this
      ensures Valid() && Grew()
      ensures world.size(input) > MAX_INPUT_BYTES ==> result == Failure(InputTooLarge) && executed == old(executed)
    {
      if world.size(input) > MAX_INPUT_BYTES { return Failure(InputTooLarge); }
      result := RunNode(input, 0);
    }

    method RunNode(input: Value, depth: nat) returns (result: Result)
      requires Valid() && depth <= budget.maxDepth
      modifies this
      ensures Valid() && Grew()
      decreases budget.maxSteps - steps, 2
    {
      hide Fair, BudgetOk, Planned;
      result := RunNodeInner(input, depth);
      if result.Failure? {
        var recorded := Record();
        if !recorded { result := Failure(Failed); }
      }
    }

    method RunNodeInner(input: Value, depth: nat) returns (result: Result)
      requires Valid() && depth <= budget.maxDepth
      modifies this
      ensures Valid() && Grew()
      decreases budget.maxSteps - steps, 1
    {
      hide Fair, BudgetOk, Planned;
      if depth > deepest { deepest := depth; }
      var guarded := Guard(depth);
      if guarded.Some? { return Failure(guarded.value); }
      var noted := Record();
      if !noted { return Failure(Failed); }
      var next;
      next, result := Turn(input, depth);
      while next.Some?
        invariant Valid() && Grew()
        decreases next.Some?, budget.maxSteps - steps
      {
        next, result := Turn(next.value, depth);
      }
    }
  }

  /**
   * The whole autonomous loop ends, for every planner and executor, with no more
   * executor calls, delegations or nesting than the budget allows, and executes
   * only what was planned. A bad budget runs nothing.
   */
  method RunToTheEnd(w: World, b: Budget, input: Value)
    returns (result: Result, steps: nat, children: nat, ghost executed: seq<(Value, Intent)>, ghost deepest: nat)
    requires Fair(w)
    ensures !BudgetOk(b) ==> result == Failure(InvalidBudget) && steps == 0 && children == 0 && executed == []
    ensures BudgetOk(b) ==> |executed| <= steps <= b.maxSteps && children <= b.maxChildren && deepest <= b.maxDepth
    ensures forall x :: x in executed ==> Planned(w, x.0, x.1)
  {
    steps, children, executed, deepest := 0, 0, [], 0;
    if !BudgetOk(b) { return Failure(InvalidBudget), 0, 0, [], 0; }
    var r := new Runner(w, b);
    result := r.Run(input);
    steps, children, executed, deepest := r.steps, r.children, r.executed, r.deepest;
  }
}
