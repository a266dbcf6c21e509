/** The execution loop of the agent over one task graph, as a function of what its environment answers. */
module Execution {
  import opened Collections
  import opened TaskGraphs
  import opened Replanning
  import opened Rounding

  /** Everything the loop does not decide itself.  `call` counts subtask executions, `round` turns of the loop. */
  datatype Env = Env(
    healer: bool,                // a replanning engine is configured
    a2a: bool,                   // an A2A capability is configured
    succeeds: nat -> bool,       // call -> the subtask succeeded
    discovered: nat -> string,   // call -> a peer found for the skill, or ""
    fallbackA: nat -> Id,        // call -> the random ids of a split
    fallbackB: nat -> Id,
    stopped: nat -> bool)        // round -> shutdown was requested

  datatype SplitEvent = SplitEvent(failed: Id, a: Id, b: Id)

  /** The mutable state plus its history: `born` keeps the dependencies a node was created with. */
  datatype World = World(
    g: Graph,
    attempts: map<Id, nat>,
    calls: nat,
    failures: nat,
    splits: seq<SplitEvent>,
    born: map<Id, seq<Id>>)

  /** The node while it runs: peer discovery may have filled in the agent. */
  function Dispatched(n: Node, call: nat, env: Env): Node {
    if !(n.agent != "" && env.a2a) && env.discovered(call) != ""
    then n.(status := Running, agent := env.discovered(call))
    else n.(status := Running)
  }

  /** The peer that the task is sent to, or "" when it runs locally. */
  function Performer(n: Node, call: nat, env: Env): string {
    if n.agent != "" && env.a2a then n.agent else env.discovered(call)
  }

  function Handled(w: World, id: Id, n: Node, env: Env): World
    requires id in w.g.nodes
  {
    var k := CountOf(w.attempts, id) + 1;
    var a, b := env.fallbackA(w.calls), env.fallbackB(w.calls);
    var g := Replan(SetNode(w.g, id, n), id, k, a, b);
    if Choose(n, k).Decompose? then
      World(g, w.attempts[id := k], w.calls + 1, w.failures + 1,
            w.splits + [SplitEvent(id, a, b)], w.born[a := n.deps][b := [a]])
    else
      World(g, w.attempts[id := k], w.calls + 1, w.failures + 1, w.splits, w.born)
  }

  /** One subtask is executed and its outcome dealt with. */
  function Attempt(w: World, id: Id, env: Env): World
    requires id in w.g.nodes
  {
    var n := Dispatched(w.g.nodes[id], w.calls, env);
    if env.succeeds(w.calls) then
      w.(g := SetNode(w.g, id, n.(status := Completed)), calls := w.calls + 1)
    else if env.healer then
      Handled(w, id, n, env)
    else
      w.(g := SetNode(w.g, id, n.(status := Failed)), calls := w.calls + 1, failures := w.failures + 1)
  }

  lemma AttemptGrows(w: World, id: Id, env: Env)
    requires id in w.g.nodes
    ensures w.g.nodes.Keys <= Attempt(w, id, env).g.nodes.Keys
  {
  }

  /** One turn of the loop: the tasks that were ready at its start, in order. */
  function Round(w: World, ready: seq<Id>, env: Env): World
    requires forall id :: id in ready ==> id in w.g.nodes
    decreases |ready|
  {
    if ready == [] then w
    else
      AttemptGrows(w, ready[0], env);
      Round(Attempt(w, ready[0], env), ready[1..], env)
  }

  datatype Outcome = Outcome(w: World, rounds: nat, aborted: bool)

  ghost function Loop(w: World, rounds: nat, cap: nat, env: Env): Outcome
    decreases cap - rounds
  {
    if AllConcluded(w.g) || AnyFailed(w.g) || rounds >= cap then Outcome(w, rounds, false)
    else if env.stopped(rounds) then Outcome(w, rounds, true)
    else
      var ready := ReadyAmong(w.g, w.g.order);
      if ready == [] then Outcome(w, rounds, false)
      else Loop(Round(w, ready, env), rounds + 1, cap, env)
  }

  ghost predicate Succeeded(o: Outcome) {
    !o.aborted && AllConcluded(o.w.g) && !AnyFailed(o.w.g)
  }

  // ----- What one step does -----

  /** The graph after a split, node by node. */
  ghost predicate IsSplit(g: Graph, g': Graph, id: Id, n: Node, a: Id, b: Id) {
    && id in g.nodes && FreshPair(g, a, b)
    && g'.order == g.order + [a, b]
    && g'.nodes.Keys == g.nodes.Keys + {a, b}
    && (forall x :: x in g.nodes && x != id ==> g'.nodes[x] == RewiredNode(g.nodes[x], id, b))
    && g'.nodes[id] == RewiredNode(n, id, b).(status := Cancelled)
    && g'.nodes[a] == Fallback(n, n.deps, "analysis")
    && g'.nodes[b] == Fallback(n, [a], "verification")
  }

  /** The parts of a node that running it leaves alone. */
  ghost predicate SameTask(n: Node, n': Node) {
    n'.deps == n.deps && n'.maxRetries == n.maxRetries
  }

  lemma HandledSplits(w: World, id: Id, n: Node, env: Env)
    requires id in w.g.nodes && FreshPair(w.g, env.fallbackA(w.calls), env.fallbackB(w.calls))
    requires Choose(n, CountOf(w.attempts, id) + 1).Decompose? && SameTask(w.g.nodes[id], n)
    ensures var w', a, b := Handled(w, id, n, env), env.fallbackA(w.calls), env.fallbackB(w.calls);
      && IsSplit(w.g, w'.g, id, n.(status := Replanning), a, b)
      && w'.splits == w.splits + [SplitEvent(id, a, b)] && w'.born == w.born[a := n.deps][b := [a]]
      && n.retryCount >= n.maxRetries
  {
    hide Round3, Nearest, RewiredNode, Fallback, Split;
    var g1 := SetNode(SetNode(w.g, id, n), id, n.(status := Replanning));
    SplitByNode(g1, id, env.fallbackA(w.calls), env.fallbackB(w.calls));
  }

  /** Either one node changed or it was split in two; `n` is that node. */
  lemma AttemptCases(w: World, id: Id, env: Env) returns (n: Node, split: bool)
    requires id in w.g.nodes
    requires FreshPair(w.g, env.fallbackA(w.calls), env.fallbackB(w.calls))
    ensures SameTask(w.g.nodes[id], n)
    ensures var w', ok := Attempt(w, id, env), env.succeeds(w.calls);
      && w'.calls == w.calls + 1
      && w'.failures == w.failures + (if ok then 0 else 1)
      && w'.attempts == (if ok || !env.healer then w.attempts else w.attempts[id := CountOf(w.attempts, id) + 1])
      && (split ==> !ok && env.healer)
    ensures !split ==>
      var w', old_, ok := Attempt(w, id, env), w.g.nodes[id], env.succeeds(w.calls);
      && w'.g == SetNode(w.g, id, n) && w'.splits == w.splits && w'.born == w.born
      && n.status == (if ok then Completed else if env.healer then Pending else Failed)
      && (n.retryCount == old_.retryCount ||
          (n.retryCount == old_.retryCount + 1 <= n.maxRetries && !ok && env.healer))
      && (!ok && env.healer && n.retryCount == old_.retryCount ==>
        CountOf(w'.attempts, id) <= n.maxRetries + 1 <= n.retryCount + 1)
    ensures split ==>
      var w', a, b := Attempt(w, id, env), env.fallbackA(w.calls), env.fallbackB(w.calls);
      && IsSplit(w.g, w'.g, id, n, a, b)
      && w'.splits == w.splits + [SplitEvent(id, a, b)] && w'.born == w.born[a := n.deps][b := [a]]
      && n.retryCount == w.g.nodes[id].retryCount >= n.maxRetries
  {
    hide Round3, Nearest, RewiredNode, Fallback, Split, IsSplit;
    n := Dispatched(w.g.nodes[id], w.calls, env);
    split := false;
    if env.succeeds(w.calls) {
      n := n.(status := Completed);
    } else if !env.healer {
      n := n.(status := Failed);
    } else {
      var running := n.(status := Replanning);
      var g1 := SetNode(SetNode(w.g, id, n), id, running);
      match Choose(n, CountOf(w.attempts, id) + 1)
      case RetryInPlace =>
        n := Retried(running);
        assert SetNode(g1, id, n).nodes == w.g.nodes[id := n];
      case RerouteLocally =>
        n := Rerouted(running);
        assert SetNode(g1, id, n).nodes == w.g.nodes[id := n];
      case Decompose =>
        HandledSplits(w, id, n, env);
        n, split := running, true;
    }
  }
}
