/**
 * Agents that call each other as tools (agent/src/agent/tools/agent_tool.py, core/subagent_runner.py,
 * core/agent_registry.py, core/turn_engine.py): any call graph, cycles included, and still a bound on model calls.
 */
module AgentRecursion {
  import opened Wrappers
  import Turn = TurnEngine

  const MAX_ITERATIONS: nat := Turn.MAX_ITERATIONS

  /** Model calls of one turn. */
  const SAMPLES: nat := MAX_ITERATIONS - 1

  /**
   * The outside, by the number of model calls made so far: the agents that are defined, the agents that the reply
   * to call n asks for, and whether a sampling loop ends early (deadline, stuck, interrupt).
   */
  datatype World = World(
    defined: nat -> set<string>,
    targets: (string, nat) -> seq<string>,
    stops: nat -> bool)

  /** No reply asks for more than k tool calls. */
  ghost predicate AtMost(world: World, k: nat) {
    forall agent: string, n: nat :: |world.targets(agent, n)| <= k
  }

  ghost predicate Known(world: World, agent: string) { forall n: nat :: agent in world.defined(n) }

  ghost predicate AllCallable(world: World, caller: string, targets: seq<string>) {
    forall j :: 0 <= j < |targets| ==> targets[j] != caller && Known(world, targets[j])
  }

  /** Every reply asks for k other agents that are defined, and no loop ends early. */
  ghost predicate Busy(world: World, k: nat) {
    && k > 0
    && (forall n: nat :: !world.stops(n))
    && forall caller: string, n: nat :: |world.targets(caller, n)| == k &&
         AllCallable(world, caller, world.targets(caller, n))
  }

  /** The model calls of an agent that has so many nesting levels to go, itself included. */
  function Bound(levels: nat, k: nat): nat {
    if levels == 0 then 0 else SAMPLES * (1 + k * Bound(levels - 1, k))
  }

  function Levels(depth: nat, limit: nat): nat { if depth <= limit then limit - depth + 1 else 0 }

  lemma MulMono(a: nat, b: nat, c: nat)
    requires a <= b
    ensures a * c <= b * c
  {
  }

  lemma MulNext(n: nat, c: nat)
    ensures (n + 1) * c == n * c + c
  {
  }

  /** The handler of the tool agent__<id>: it refuses unknown agents and too deep nesting. */
  method AgentTool(agent: string, depth: nat, limit: nat, k: nat, world: World, clock: nat) returns (llm: nat)
    requires AtMost(world, k) && depth > 0
    ensures llm <= Bound(Levels(depth, limit), k)
    ensures Busy(world, k) && Known(world, agent) ==> llm == Bound(Levels(depth, limit), k)
    decreases Levels(depth, limit), 1
  {
    if agent !in world.defined(clock) { return 0; }
    if depth > limit { return 0; }
    llm := RunAgent(agent, depth, limit, k, world, clock);
  }

  /** The tool calls of one reply; an agent's own tool is not registered with it. */
  method CallTools(caller: string, targets: seq<string>, depth: nat, limit: nat, k: nat, world: World, clock: nat)
    returns (llm: nat)
    requires AtMost(world, k) && 0 < depth <= limit
    ensures llm <= |targets| * Bound(limit - depth, k)
    ensures Busy(world, k) && AllCallable(world, caller, targets) ==> llm == |targets| * Bound(limit - depth, k)
    decreases limit - depth, 2
  {
    hide Bound, Busy, AtMost, Known;
    ghost var below := Bound(limit - depth, k);
    llm := 0;
    for j := 0 to |targets|
      invariant llm <= j * below
      invariant Busy(world, k) && AllCallable(world, caller, targets) ==> llm == j * below
    {
      MulNext(j, below);
      if targets[j] != caller {
        var nested := AgentTool(targets[j], depth + 1, limit, k, world, clock + llm);
        llm := llm + nested;
      }
    }
  }

  /** One turn of an agent at this depth. */
  method RunAgent(agent: string, depth: nat, limit: nat, k: nat, world: World, clock: nat) returns (llm: nat)
    requires AtMost(world, k) && 0 < depth <= limit
    ensures llm <= Bound(limit - depth + 1, k)
    ensures Busy(world, k) ==> llm == Bound(limit - depth + 1, k)
    decreases limit - depth + 1, 0
  {
    ghost var below := Bound(limit - depth, k);
    ghost var round := 1 + k * below;
    hide AllCallable, Known;
    llm := 0;
    var iteration := 0;
    while true
      invariant iteration < MAX_ITERATIONS && llm <= iteration * round
      invariant Busy(world, k) ==> llm == iteration * round
      decreases MAX_ITERATIONS - iteration
    {
      MulNext(iteration, round);
      MulMono(iteration, SAMPLES, round);
      iteration := iteration + 1;
      if iteration >= MAX_ITERATIONS || world.stops(clock + llm) { return; }
      var targets := world.targets(agent, clock + llm);
      MulMono(|targets|, k, below);
      MulMono(iteration, SAMPLES, round);
      llm := llm + 1;
      if targets == [] { return; }
      var nested := CallTools(agent, targets, depth, limit, k, world, clock + llm);
      llm := llm + nested;
    }
  }

  /** One chat: perhaps a forced call of another agent, then the turn of the executing agent at depth 1. */
  method Chat(executor: string, forced: Option<string>, limit: nat, k: nat, world: World) returns (llm: nat)
    requires AtMost(world, k) && limit > 0
    ensures llm <= SAMPLES * PowerSum(SAMPLES * k + 1, limit)
    ensures llm <= Bound(limit, k) + if forced.Some? then Bound(limit - 1, k) else 0
    ensures Busy(world, k) && forced.None? ==> llm == SAMPLES * PowerSum(SAMPLES * k, limit)
  {
    ChatBound(limit, k);
    BoundIsPowerSum(limit, k);
    hide Bound, AtMost, Busy;
    llm := 0;
    if forced.Some? && forced.value != executor {
      llm := AgentTool(forced.value, 2, limit, k, world, 0);
    } else if forced.Some? {
      return 0;
    }
    var turn := RunAgent(executor, 1, limit, k, world, llm);
    llm := llm + turn;
  }

  // ---- the bound in closed form ----

  function Power(r: nat, n: nat): nat {
    if n == 0 then 1 else r * Power(r, n - 1)
  }

  /** 1 + r + ... + r^(n-1) */
  function PowerSum(r: nat, n: nat): nat {
    if n == 0 then 0 else PowerSum(r, n - 1) + Power(r, n - 1)
  }

  /** The sum from the inside: one more level is one more branching of all the others. */
  lemma {:induction false} PowerSumInside(r: nat, n: nat)
    requires n > 0
    ensures PowerSum(r, n) == 1 + r * PowerSum(r, n - 1)
  {
    if n == 1 {
      assert PowerSum(r, 0) == 0 && Power(r, 0) == 1;
    } else {
      PowerSumInside(r, n - 1);
      assert r * (PowerSum(r, n - 2) + Power(r, n - 2)) == r * PowerSum(r, n - 2) + r * Power(r, n - 2);
    }
  }

  lemma {:induction false} BoundIsPowerSum(levels: nat, k: nat)
    ensures Bound(levels, k) == SAMPLES * PowerSum(SAMPLES * k, levels)
  {
    if levels == 0 {
    } else {
      BoundIsPowerSum(levels - 1, k);
      PowerSumInside(SAMPLES * k, levels);
      hide PowerSum, Power;
      var s := PowerSum(SAMPLES * k, levels - 1);
      assert k * (SAMPLES * s) == (SAMPLES * k) * s;
    }
  }

  /** One level more, counting the calls below it once more on the side. */
  lemma LevelGrows(t: nat, k: nat, b: nat, s: nat)
    requires b <= t * s
    ensures t * (1 + k * b) + b <= t * (1 + (t * k + 1) * s)
  {
    var q := t * k + 1;
    assert t * (k * b) == (t * k) * b;
    assert t * (1 + k * b) + b == t + q * b;
    MulMono(b, t * s, q);
    assert (t * s) * q == t * (q * s);
  }

  /** The forced call is paid for by counting one more branch per level. */
  lemma {:induction false} ChatBound(levels: nat, k: nat)
    requires levels > 0
    ensures Bound(levels, k) + Bound(levels - 1, k) <= SAMPLES * PowerSum(SAMPLES * k + 1, levels)
    decreases levels, 0
  {
    BoundGrows(levels - 1, k);
    PowerSumInside(SAMPLES * k + 1, levels);
    var b, s := Bound(levels - 1, k), PowerSum(SAMPLES * k + 1, levels - 1);
    assert Bound(levels, k) == SAMPLES * (1 + k * b);
    hide PowerSum, Power, Bound;
    LevelGrows(SAMPLES, k, b, s);
  }

  lemma {:induction false} BoundGrows(levels: nat, k: nat)
    ensures Bound(levels, k) <= SAMPLES * PowerSum(SAMPLES * k + 1, levels)
    decreases levels, 1
  {
    if levels == 0 {
    } else {
      ChatBound(levels, k);
    }
  }
}
