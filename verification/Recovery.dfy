/** What the engine does with one failure, field by field, and how far it goes with a task over a whole run. */
module Recovery {
  import opened Collections
  import opened TaskGraphs
  import opened Replanning
  import opened Execution
  import opened ReplanInvariants
  import opened Liveness
  import opened Rounding

  /** x rounded to a grid of d steps per unit, halves upwards. */
  ghost predicate IsRounded(r: real, x: real, d: int)
    requires d > 0
  {
    -0.5 < (r - x) * d as real <= 0.5 && exists k: int :: OnGrid(r, k, d)
  }

  ghost predicate OnGrid(r: real, k: int, d: int) {
    r * d as real == k as real
  }

  lemma Round3Is(x: real)
    ensures IsRounded(Round3(x), x, 1000)
  {
    assert OnGrid(Round3(x), Nearest(x * 1000.0), 1000);
  }

  lemma NearestIs(x: real)
    ensures IsRounded(Nearest(x) as real, x, 1)
  {
    assert OnGrid(Nearest(x) as real, Nearest(x), 1);
  }

  /** The engine is asked to deal with a failure of `id`. */
  ghost predicate Fails(w: World, id: Id, env: Env) {
    id in w.g.nodes && env.healer && !env.succeeds(w.calls)
  }

  /** Nothing but the node under `id` has changed. */
  ghost predicate OnlyAt(g: Graph, g': Graph, id: Id) {
    && g'.order == g.order && g'.nodes.Keys == g.nodes.Keys
    && forall x :: x in g.nodes && x != id ==> g'.nodes[x] == g.nodes[x]
  }

  /** A task that is sent off is running and so not ready again; it belongs to the peer it is sent to. */
  lemma DispatchTakesTask(g: Graph, id: Id, call: nat, env: Env)
    requires id in g.nodes
    ensures var n, n', peer := g.nodes[id], Dispatched(g.nodes[id], call, env), Performer(g.nodes[id], call, env);
      && n' == n.(status := Running, agent := if peer != "" then peer else n.agent)
      && !IsReady(SetNode(g, id, n'), id)
  {
  }

  // ----- One failure -----

  /** A failure with retries left: the same task again, at the same peer, with a quarter more budget and half as much
      time again. */
  lemma FailureWithRetriesLeft(w: World, id: Id, env: Env)
    requires Fails(w, id, env) && w.g.nodes[id].retryCount < w.g.nodes[id].maxRetries
    ensures var w', n, peer := Attempt(w, id, env), w.g.nodes[id], Performer(w.g.nodes[id], w.calls, env);
      && OnlyAt(w.g, w'.g, id)
      && w'.attempts == w.attempts[id := CountOf(w.attempts, id) + 1]
      && var n' := w'.g.nodes[id];
         && n'.status == Pending && n'.retryCount == n.retryCount + 1
         && n'.agent == (if peer != "" then peer else n.agent)
         && n'.deps == n.deps && n'.skill == n.skill && n'.maxRetries == n.maxRetries
         && IsRounded(n'.estimatedCostUsd, 1.25 * n.estimatedCostUsd, 1000)
         && IsRounded(n'.maxBudgetUsd, 1.25 * n.maxBudgetUsd, 1000)
         && IsRounded(n'.executionTimeoutMs, 1.5 * n.executionTimeoutMs, 1)
  {
    hide IsRounded, Round3, Retried;
    var m := Dispatched(w.g.nodes[id], w.calls, env).(status := Replanning);
    RetriedIs(m);
  }

  lemma RetriedIs(n: Node)
    ensures var n' := Retried(n);
      && n' == n.(status := Pending, retryCount := n.retryCount + 1, estimatedCostUsd := n'.estimatedCostUsd,
                  maxBudgetUsd := n'.maxBudgetUsd, executionTimeoutMs := n'.executionTimeoutMs)
      && IsRounded(n'.estimatedCostUsd, 1.25 * n.estimatedCostUsd, 1000)
      && IsRounded(n'.maxBudgetUsd, 1.25 * n.maxBudgetUsd, 1000)
      && IsRounded(n'.executionTimeoutMs, 1.5 * n.executionTimeoutMs, 1)
  {
    Round3Is(n.estimatedCostUsd * 1.25);
    Round3Is(n.maxBudgetUsd * 1.25);
    NearestIs(n.executionTimeoutMs * 1.5);
    hide IsRounded, Round3;
  }

  /** The task belongs to a peer, or one is found for it now. */
  predicate AtPeer(n: Node, call: nat, env: Env) {
    n.agent != "" || env.discovered(call) != ""
  }

  /** Retries used up at a peer, not more than one failure too many: the peer is dropped and the task becomes a local
      analysis, otherwise as it was. */
  lemma FailureAtPeer(w: World, id: Id, env: Env)
    requires Fails(w, id, env) && w.g.nodes[id].retryCount >= w.g.nodes[id].maxRetries
    requires AtPeer(w.g.nodes[id], w.calls, env) && CountOf(w.attempts, id) <= w.g.nodes[id].maxRetries
    ensures var w', n := Attempt(w, id, env), w.g.nodes[id];
      && OnlyAt(w.g, w'.g, id)
      && w'.attempts == w.attempts[id := CountOf(w.attempts, id) + 1]
      && w'.g.nodes[id] == Node(n.deps, Pending, "", "analysis", n.estimatedCostUsd, n.maxBudgetUsd,
                                n.executionTimeoutMs, n.retryCount, n.maxRetries)
  {
  }

  /** Local execution is not forced by that: the next execution is local exactly when no peer is found for it then. */
  lemma ReroutedRunsLocallyIff(w: World, id: Id, env: Env, call: nat)
    requires Fails(w, id, env) && w.g.nodes[id].retryCount >= w.g.nodes[id].maxRetries
    requires AtPeer(w.g.nodes[id], w.calls, env) && CountOf(w.attempts, id) <= w.g.nodes[id].maxRetries
    ensures Performer(Attempt(w, id, env).g.nodes[id], call, env) == "" <==> env.discovered(call) == ""
  {
    FailureAtPeer(w, id, env);
    hide Attempt;
  }

  /** Half of a task: half its cost and budget, three quarters of its time, one retry. */
  ghost predicate IsHalf(h: Node, n: Node, deps: seq<Id>, skill: string) {
    && h.deps == deps && h.skill == skill && h.status == Pending && h.agent == ""
    && h.retryCount == 0 && h.maxRetries == 1
    && IsRounded(h.estimatedCostUsd, n.estimatedCostUsd / 2.0, 1000)
    && 2.0 * h.maxBudgetUsd == n.maxBudgetUsd
    && IsRounded(h.executionTimeoutMs, 0.75 * n.executionTimeoutMs, 1)
  }

  /** A task in two halves: the first takes over its dependencies, the second waits for the first, and who waited for
      the task waits for the second. */
  ghost predicate InTwoHalves(g: Graph, g': Graph, id: Id, peer: string, a: Id, b: Id)
    requires id in g.nodes
  {
    var n := g.nodes[id];
    && g'.order == g.order + [a, b] && g'.nodes.Keys == g.nodes.Keys + {a, b}
    && IsHalf(g'.nodes[a], n, n.deps, "analysis") && IsHalf(g'.nodes[b], n, [a], "verification")
    && g'.nodes[id] == n.(status := Cancelled, agent := if peer != "" then peer else n.agent)
    && forall x :: x in g.nodes && x != id ==> WaitsInstead(g.nodes[x], g'.nodes[x], id, b)
  }

  /** The same task, waiting for `b` where it waited for `id`. */
  ghost predicate WaitsInstead(n: Node, n': Node, id: Id, b: Id) {
    && n' == n.(deps := n'.deps)
    && forall d :: d in n'.deps <==> (d in n.deps && d != id) || (d == b && id in n.deps)
  }

  /** Retries used up and no peer to blame, or one failure too many: the task is cancelled and done in two halves. */
  lemma FailureAtTheEnd(w: World, id: Id, env: Env)
    requires Fails(w, id, env) && w.g.nodes[id].retryCount >= w.g.nodes[id].maxRetries
    requires !AtPeer(w.g.nodes[id], w.calls, env) || CountOf(w.attempts, id) > w.g.nodes[id].maxRetries
    requires FreshPair(w.g, env.fallbackA(w.calls), env.fallbackB(w.calls)) && id !in w.g.nodes[id].deps
    ensures var w', peer := Attempt(w, id, env), Performer(w.g.nodes[id], w.calls, env);
      && InTwoHalves(w.g, w'.g, id, peer, env.fallbackA(w.calls), env.fallbackB(w.calls))
      && w'.attempts == w.attempts[id := CountOf(w.attempts, id) + 1]
  {
    hide Round3, Split, IsSplit, InTwoHalves;
    var m := Dispatched(w.g.nodes[id], w.calls, env);
    HandledSplits(w, id, m, env);
    SplitInTwoHalves(w.g, Attempt(w, id, env).g, id, m.(status := Replanning),
                     Performer(w.g.nodes[id], w.calls, env), env.fallbackA(w.calls), env.fallbackB(w.calls));
  }

  lemma SplitInTwoHalves(g: Graph, g': Graph, id: Id, m: Node, peer: string, a: Id, b: Id)
    requires IsSplit(g, g', id, m, a, b) && id !in g.nodes[id].deps
    requires m == g.nodes[id].(status := Replanning, agent := if peer != "" then peer else g.nodes[id].agent)
    ensures InTwoHalves(g, g', id, peer, a, b)
  {
    hide Round3, Fallback, IsHalf, Rewired;
    var n := g.nodes[id];
    FallbackIsHalf(m, n, n.deps, "analysis");
    FallbackIsHalf(m, n, [a], "verification");
    RewiredOther(n.deps, id, b);
    forall x | x in g.nodes && x != id ensures WaitsInstead(g.nodes[x], g'.nodes[x], id, b) {
      RewiredDeps(g.nodes[x].deps, id, b);
    }
  }

  lemma RewiredOther(deps: seq<Id>, id: Id, b: Id)
    requires id !in deps
    ensures Rewired(deps, id, b) == deps
  {
  }

  lemma FallbackIsHalf(m: Node, n: Node, deps: seq<Id>, skill: string)
    requires m.estimatedCostUsd == n.estimatedCostUsd && m.maxBudgetUsd == n.maxBudgetUsd
    requires m.executionTimeoutMs == n.executionTimeoutMs
    ensures IsHalf(Fallback(m, deps, skill), n, deps, skill)
  {
    Round3Is(n.estimatedCostUsd * 0.5);
    NearestIs(n.executionTimeoutMs * 0.75);
    hide IsRounded, Round3;
  }

  // ----- Over a whole run -----

  /** How far the engine has gone with a task, read off the number of its failures. */
  ghost predicate OnLadder(n: Node, k: nat) {
    && n.retryCount == (if k <= n.maxRetries then k else n.maxRetries)
    && (k <= n.maxRetries ==> n.status != Cancelled)
    && (k == n.maxRetries + 1 && n.status != Cancelled ==>
          n.skill == "analysis" && (n.status == Pending ==> n.agent == ""))
    && (k > n.maxRetries + 1 ==> k == n.maxRetries + 2 && n.status == Cancelled)
  }

  ghost function Power(f: real, k: nat): real {
    if k == 0 then 1.0 else f * Power(f, k - 1)
  }

  /** k times multiplied by f, up to the rounding of each step. */
  ghost predicate Grown(x0: real, x: real, f: real, slack: real, k: nat) {
    -slack * (Power(f, k) - 1.0) <= x - Power(f, k) * x0 <= slack * (Power(f, k) - 1.0)
  }

  /** The retries of an original task have raised its limits step by step. */
  ghost predicate Raised(n0: Node, n: Node) {
    && Grown(n0.estimatedCostUsd, n.estimatedCostUsd, 1.25, 0.002, n.retryCount)
    && Grown(n0.maxBudgetUsd, n.maxBudgetUsd, 1.25, 0.002, n.retryCount)
    && Grown(n0.executionTimeoutMs, n.executionTimeoutMs, 1.5, 1.0, n.retryCount)
  }

  lemma GrowsOn(x0: real, x: real, x': real, f: real, slack: real, k: nat)
    requires Grown(x0, x, f, slack, k) && f > 1.0
    requires -slack * (f - 1.0) <= x' - f * x <= slack * (f - 1.0)
    ensures Grown(x0, x', f, slack, k + 1)
  {
    var p := Power(f, k);
    hide Power;
    assert Power(f, k + 1) == f * p by { PowerStep(f, k); }
    var d := x - p * x0;
    assert f * x == f * d + f * p * x0;
    assert f * d <= f * (slack * (p - 1.0)) && f * d >= f * (-slack * (p - 1.0));
    assert f * (slack * (p - 1.0)) + slack * (f - 1.0) == slack * (f * p - 1.0);
    assert f * (-slack * (p - 1.0)) - slack * (f - 1.0) == -slack * (f * p - 1.0);
  }

  lemma PowerStep(f: real, k: nat)
    ensures Power(f, k + 1) == f * Power(f, k)
  {
  }

  ghost predicate Climbing(w: World, g0: Graph) {
    && (forall x :: x in w.g.nodes ==> OnLadder(w.g.nodes[x], CountOf(w.attempts, x)))
    && (forall x :: x in g0.nodes ==> x in w.g.nodes && Raised(g0.nodes[x], w.g.nodes[x]))
  }

  /** A success or a final failure moves nobody. */
  lemma OtherwiseUnmoved(w: World, id: Id, env: Env)
    requires id in w.g.nodes && (env.succeeds(w.calls) || !env.healer)
    ensures var w', n := Attempt(w, id, env), w.g.nodes[id];
      && OnlyAt(w.g, w'.g, id) && w'.attempts == w.attempts
      && w'.g.nodes[id] == n.(status := w'.g.nodes[id].status, agent := w'.g.nodes[id].agent)
      && w'.g.nodes[id].status in {Completed, Failed}
  {
  }

  lemma RetryRaises(n0: Node, n: Node, n': Node)
    requires Raised(n0, n) && n'.retryCount == n.retryCount + 1
    requires IsRounded(n'.estimatedCostUsd, 1.25 * n.estimatedCostUsd, 1000)
    requires IsRounded(n'.maxBudgetUsd, 1.25 * n.maxBudgetUsd, 1000)
    requires IsRounded(n'.executionTimeoutMs, 1.5 * n.executionTimeoutMs, 1)
    ensures Raised(n0, n')
  {
    hide Grown;
    GrowsOn(n0.estimatedCostUsd, n.estimatedCostUsd, n'.estimatedCostUsd, 1.25, 0.002, n.retryCount);
    GrowsOn(n0.maxBudgetUsd, n.maxBudgetUsd, n'.maxBudgetUsd, 1.25, 0.002, n.retryCount);
    GrowsOn(n0.executionTimeoutMs, n.executionTimeoutMs, n'.executionTimeoutMs, 1.5, 1.0, n.retryCount);
  }

  lemma AttemptClimbs(w: World, g0: Graph, id: Id, env: Env)
    requires Inv(w, g0, env) && IsReady(w.g, id) && Climbing(w, g0)
    ensures Climbing(Attempt(w, id, env), g0)
  {
    hide *;
    ReadyFacts(w, g0, id, env);
    if env.succeeds(w.calls) || !env.healer {
      OtherwiseClimbs(w, g0, id, env);
    } else if w.g.nodes[id].retryCount < w.g.nodes[id].maxRetries {
      RetryClimbs(w, g0, id, env);
    } else if AtPeer(w.g.nodes[id], w.calls, env) && CountOf(w.attempts, id) <= w.g.nodes[id].maxRetries {
      RerouteClimbs(w, g0, id, env);
    } else {
      FailsIs(w, id, env);
      FailureAtTheEnd(w, id, env);
      SplitClimbs(w, Attempt(w, id, env), g0, id, env);
    }
  }

  lemma FailsIs(w: World, id: Id, env: Env)
    ensures Fails(w, id, env) <==> id in w.g.nodes && env.healer && !env.succeeds(w.calls)
  {
  }

  lemma ReadyFacts(w: World, g0: Graph, id: Id, env: Env)
    requires Inv(w, g0, env) && IsReady(w.g, id)
    ensures id in w.g.nodes && w.g.nodes[id].status == Pending && id !in w.g.nodes[id].deps && Unused(w, env)
    ensures FreshPair(w.g, env.fallbackA(w.calls), env.fallbackB(w.calls))
  {
    NotSelfDependent(w.g, id);
  }

  /** One node has moved. */
  lemma OneClimbs(w: World, w': World, g0: Graph, id: Id)
    requires Climbing(w, g0) && id in w.g.nodes && OnlyAt(w.g, w'.g, id)
    requires forall x :: x != id ==> CountOf(w'.attempts, x) == CountOf(w.attempts, x)
    requires OnLadder(w'.g.nodes[id], CountOf(w'.attempts, id))
    requires forall n0 :: Raised(n0, w.g.nodes[id]) ==> Raised(n0, w'.g.nodes[id])
    ensures Climbing(w', g0)
  {
    hide OnLadder, Raised, CountOf;
  }

  lemma OtherwiseClimbs(w: World, g0: Graph, id: Id, env: Env)
    requires Climbing(w, g0) && id in w.g.nodes && (env.succeeds(w.calls) || !env.healer)
    requires w.g.nodes[id].status == Pending
    ensures Climbing(Attempt(w, id, env), g0)
  {
    hide Attempt, Grown, OnlyAt;
    OtherwiseUnmoved(w, id, env);
    OneClimbs(w, Attempt(w, id, env), g0, id);
  }

  lemma RetryClimbs(w: World, g0: Graph, id: Id, env: Env)
    requires Climbing(w, g0) && id in w.g.nodes && env.healer && !env.succeeds(w.calls)
    requires w.g.nodes[id].status == Pending && w.g.nodes[id].retryCount < w.g.nodes[id].maxRetries
    ensures Climbing(Attempt(w, id, env), g0)
  {
    hide Attempt, Raised, IsRounded, Performer;
    FailureWithRetriesLeft(w, id, env);
    var n, n' := w.g.nodes[id], Attempt(w, id, env).g.nodes[id];
    forall n0 | Raised(n0, n) ensures Raised(n0, n') {
      RetryRaises(n0, n, n');
    }
    OneClimbs(w, Attempt(w, id, env), g0, id);
  }

  lemma RerouteClimbs(w: World, g0: Graph, id: Id, env: Env)
    requires Climbing(w, g0) && id in w.g.nodes && env.healer && !env.succeeds(w.calls)
    requires w.g.nodes[id].retryCount >= w.g.nodes[id].maxRetries
    requires AtPeer(w.g.nodes[id], w.calls, env) && CountOf(w.attempts, id) <= w.g.nodes[id].maxRetries
    ensures Climbing(Attempt(w, id, env), g0)
  {
    hide Attempt, Grown, OnlyAt, AtPeer;
    FailureAtPeer(w, id, env);
    OneClimbs(w, Attempt(w, id, env), g0, id);
  }

  lemma SameLimits(w: World, g0: Graph, w': World)
    requires forall x :: x in g0.nodes ==> x in w.g.nodes && Raised(g0.nodes[x], w.g.nodes[x])
    requires forall x :: x in w.g.nodes ==> x in w'.g.nodes && SameLimitsAt(w.g.nodes[x], w'.g.nodes[x])
    ensures forall x :: x in g0.nodes ==> x in w'.g.nodes && Raised(g0.nodes[x], w'.g.nodes[x])
  {
    hide Grown;
  }

  ghost predicate SameLimitsAt(n: Node, n': Node) {
    && n'.estimatedCostUsd == n.estimatedCostUsd && n'.maxBudgetUsd == n.maxBudgetUsd
    && n'.executionTimeoutMs == n.executionTimeoutMs && n'.retryCount == n.retryCount
  }

  lemma SplitClimbs(w: World, w': World, g0: Graph, id: Id, env: Env)
    requires Unused(w, env) && Climbing(w, g0) && id in w.g.nodes && w.g.nodes[id].status == Pending
    requires w.g.nodes[id].retryCount >= w.g.nodes[id].maxRetries
    requires InTwoHalves(w.g, w'.g, id, Performer(w.g.nodes[id], w.calls, env), env.fallbackA(w.calls),
                         env.fallbackB(w.calls))
    requires w'.attempts == w.attempts[id := CountOf(w.attempts, id) + 1]
    ensures Climbing(w', g0)
  {
    hide Raised, IsRounded, Performer, DistinctIds;
    SameLimits(w, g0, w');
  }

  lemma {:induction false} PlayedClimbs(w: World, g0: Graph, ids: seq<Id>, env: Env)
    requires Inv(w, g0, env) && Climbing(w, g0) && ReadyInTurn(w, ids, env)
    ensures Climbing(Played(w, ids, env), g0)
    decreases |ids|
  {
    hide Inv, Climbing, Attempt;
    if ids != [] {
      AttemptKeeps(w, g0, ids[0], env);
      AttemptClimbs(w, g0, ids[0], env);
      PlayedClimbs(Attempt(w, ids[0], env), g0, ids[1..], env);
    }
  }

  lemma StartClimbs(w: World, env: Env)
    requires Start(w, env) && forall x :: x in w.g.nodes ==> w.g.nodes[x].retryCount == 0
    ensures Climbing(w, w.g)
  {
    hide Sortable, WellFormed, Unused, DistinctIds;
  }

  /** In every reachable state the number of a task's failures says how far the engine has gone with it: a retry for
      each of the first maxRetries, each raising budget and cost by a quarter and the time by half up to rounding; after
      the next failure a local analysis without peer, unless it was cancelled at once; after one more, cancelled. */
  lemma Escalation(start: World, ids: seq<Id>, env: Env)
    requires Start(start, env) && ReadyInTurn(start, ids, env)
    requires forall x :: x in start.g.nodes ==> start.g.nodes[x].retryCount == 0
    ensures var w := Played(start, ids, env);
      && (forall x :: x in w.g.nodes ==> OnLadder(w.g.nodes[x], CountOf(w.attempts, x)))
      && (forall x :: x in start.g.nodes ==> x in w.g.nodes && Raised(start.g.nodes[x], w.g.nodes[x]))
  {
    hide Start, Inv, OnLadder, Raised, ReadyInTurn, Played;
    StartGivesInv(start, env);
    StartClimbs(start, env);
    PlayedClimbs(start, start.g, ids, env);
  }
}
