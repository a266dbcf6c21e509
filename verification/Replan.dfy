/** In-flight recovery: what happens to the graph when one subtask fails. */
module Replanning {
  import opened Collections
  import opened TaskGraphs
  import opened Rounding

  function Round3(x: real): real {
    Nearest(x * 1000.0) as real / 1000.0
  }

  datatype Strategy = RetryInPlace | RerouteLocally | Decompose

  /** `attempts` counts the failure being handled. */
  function Choose(n: Node, attempts: nat): Strategy {
    if n.retryCount < n.maxRetries then RetryInPlace
    else if n.agent != "" && attempts <= n.maxRetries + 1 then RerouteLocally
    else Decompose
  }

  function Retried(n: Node): Node {
    n.(status := Pending,
       retryCount := n.retryCount + 1,
       estimatedCostUsd := Round3(n.estimatedCostUsd * 1.25),
       maxBudgetUsd := Round3(n.maxBudgetUsd * 1.25),
       executionTimeoutMs := Nearest(n.executionTimeoutMs * 1.5) as real)
  }

  function Rerouted(n: Node): Node {
    n.(status := Pending, agent := "", skill := "analysis")
  }

  function Fallback(n: Node, deps: seq<Id>, skill: string): Node {
    Node(deps, Pending, "", skill,
         Round3(n.estimatedCostUsd * 0.5), n.maxBudgetUsd * 0.5,
         Nearest(n.executionTimeoutMs * 0.75) as real, 0, 1)
  }

  function Rewired(deps: seq<Id>, failed: Id, replacement: Id): seq<Id> {
    if failed in deps then Without(deps, failed) + [replacement] else deps
  }

  function RewiredNode(n: Node, failed: Id, b: Id): Node {
    n.(deps := Rewired(n.deps, failed, b))
  }

  function RewireAll(g: Graph, failed: Id, b: Id): Graph {
    g.(nodes := map id | id in g.nodes :: RewiredNode(g.nodes[id], failed, b))
  }

  function SetNode(g: Graph, id: Id, n: Node): Graph {
    g.(nodes := g.nodes[id := n])
  }

  /** The failed node is cancelled and its dependents wait for the second of two new nodes. */
  function Split(g: Graph, failed: Id, a: Id, b: Id): Graph
    requires failed in g.nodes
  {
    var n := g.nodes[failed];
    var withA := Added(RewireAll(g, failed, b), a, Fallback(n, n.deps, "analysis"));
    var withB := Added(withA, b, Fallback(n, [a], "verification"));
    SetNode(withB, failed, withB.nodes[failed].(status := Cancelled))
  }

  /** The graph after the engine has dealt with a failure of `failed`. */
  function Replan(g: Graph, failed: Id, attempts: nat, a: Id, b: Id): Graph
    requires failed in g.nodes
  {
    var n := g.nodes[failed].(status := Replanning);
    var g' := SetNode(g, failed, n);
    match Choose(n, attempts)
    case RetryInPlace => SetNode(g', failed, Retried(n))
    case RerouteLocally => SetNode(g', failed, Rerouted(n))
    case Decompose => Split(g', failed, a, b)
  }

  /** Two new ids, as the random suffixes are meant to provide. */
  ghost predicate FreshPair(g: Graph, a: Id, b: Id) {
    a !in g.nodes && b !in g.nodes && a != b
  }

  /** The split node by node. */
  lemma SplitByNode(g: Graph, failed: Id, a: Id, b: Id)
    requires failed in g.nodes && FreshPair(g, a, b)
    ensures var g' := Split(g, failed, a, b);
      && g'.order == g.order + [a, b] && g'.nodes.Keys == g.nodes.Keys + {a, b}
      && (forall id :: id in g.nodes && id != failed ==> g'.nodes[id] == RewiredNode(g.nodes[id], failed, b))
      && g'.nodes[failed] == RewiredNode(g.nodes[failed], failed, b).(status := Cancelled)
      && g'.nodes[a] == Fallback(g.nodes[failed], g.nodes[failed].deps, "analysis")
      && g'.nodes[b] == Fallback(g.nodes[failed], [a], "verification")
  {
  }

  function CountOf(m: map<Id, nat>, id: Id): nat {
    if id in m then m[id] else 0
  }

  class MorphlingReplanEngine {
    var healingAttempts: map<Id, nat>

    constructor ()
      ensures healingAttempts == map[]
    {
      healingAttempts := map[];
    }

    method HandleSubtaskFailure(graph: TaskGraph, failed: SubTask, fallbackAId: Id, fallbackBId: Id)
      returns (healed: bool)
      requires graph.Valid() && failed.id in graph.tasks && graph.tasks[failed.id] == failed
      requires FreshPair(graph.View(), fallbackAId, fallbackBId)
      modifies this, graph, graph.tasks.Values
      ensures healed && graph.Valid()
      ensures healingAttempts == old(healingAttempts)[failed.id := CountOf(old(healingAttempts), failed.id) + 1]
      ensures graph.View() == Replan(old(graph.View()), failed.id, healingAttempts[failed.id], fallbackAId, fallbackBId)
      ensures forall id :: id in old(graph.tasks) ==> id in graph.tasks && graph.tasks[id] == old(graph.tasks)[id]
      ensures forall t :: t in graph.tasks.Values ==> t in old(graph.tasks.Values) || fresh(t)
    {
      hide NoDup, Split, Retried, Rerouted, TaskGraph.View;
      graph.ViewAt(failed.id);
      failed.status := Replanning;
      graph.OneTaskChanged(failed);
      var attempts := CountOf(healingAttempts, failed.id) + 1;
      healingAttempts := healingAttempts[failed.id := attempts];
      if failed.retryCount < failed.maxRetries {
        AdaptInPlace(graph, failed);
      } else if failed.agent != "" && attempts <= failed.maxRetries + 1 {
        RerouteToLocal(graph, failed);
      } else {
        DecomposeTask(graph, failed, fallbackAId, fallbackBId);
      }
      healed := true;
    }

    method AdaptInPlace(graph: TaskGraph, failed: SubTask)
      requires graph.Valid() && failed.id in graph.tasks && graph.tasks[failed.id] == failed
      modifies failed
      ensures graph.View() == SetNode(old(graph.View()), failed.id, Retried(old(failed.View())))
    {
      hide TaskGraph.View;
      failed.retryCount := failed.retryCount + 1;
      failed.estimatedCostUsd := Round3(failed.estimatedCostUsd * 1.25);
      failed.maxBudgetUsd := Round3(failed.maxBudgetUsd * 1.25);
      failed.executionTimeoutMs := Nearest(failed.executionTimeoutMs * 1.5) as real;
      failed.status := Pending;
      graph.OneTaskChanged(failed);
    }

    method RerouteToLocal(graph: TaskGraph, failed: SubTask)
      requires graph.Valid() && failed.id in graph.tasks && graph.tasks[failed.id] == failed
      modifies failed
      ensures graph.View() == SetNode(old(graph.View()), failed.id, Rerouted(old(failed.View())))
    {
      hide TaskGraph.View;
      failed.agent := "";
      failed.skill := "analysis";
      failed.status := Pending;
      graph.OneTaskChanged(failed);
    }

    method DecomposeTask(graph: TaskGraph, failed: SubTask, fallbackAId: Id, fallbackBId: Id)
      requires graph.Valid() && failed.id in graph.tasks && graph.tasks[failed.id] == failed
      requires FreshPair(graph.View(), fallbackAId, fallbackBId)
      modifies graph, graph.tasks.Values
      ensures graph.Valid()
      ensures graph.View() == Split(old(graph.View()), failed.id, fallbackAId, fallbackBId)
      ensures forall id :: id in old(graph.tasks) ==> id in graph.tasks && graph.tasks[id] == old(graph.tasks)[id]
      ensures forall t :: t in graph.tasks.Values ==> t in old(graph.tasks.Values) || fresh(t)
    {
      hide Fallback, Nearest, Round3, NoDup, RewireAll, Added, TaskGraph.View;
      graph.ViewAt(failed.id);
      ghost var g := graph.View();
      var fallbackA := new SubTask(fallbackAId, Fallback(failed.View(), failed.deps, "analysis"));
      var fallbackB := new SubTask(fallbackBId, Fallback(failed.View(), [fallbackAId], "verification"));

      RewireDependents(graph, failed, fallbackBId);
      graph.AddTask(fallbackA);
      graph.AddTask(fallbackB);
      graph.ViewAt(failed.id);
      label Rewired:
      failed.status := Cancelled;
      graph.OneTaskChanged@Rewired(failed);
    }

    /** Every task that depended on `failed` now depends on `replacement` instead. */
    method RewireDependents(graph: TaskGraph, failed: SubTask, replacement: Id)
      requires graph.Valid()
      modifies graph.tasks.Values
      ensures graph.Valid()
      ensures graph.View() == RewireAll(old(graph.View()), failed.id, replacement)
    {
      hide NoDup, TaskGraph.View;
      graph.DistinctTasks();
      graph.ViewNodes();
      ghost var g := graph.View();
      for i := 0 to |graph.order|
        invariant forall k :: 0 <= k < |graph.order| ==> var id := graph.order[k];
          graph.tasks[id].View() == if k < i then RewiredNode(g.nodes[id], failed.id, replacement) else g.nodes[id]
      {
        var downstream := graph.tasks[graph.order[i]];
        if failed.id in downstream.deps {
          downstream.deps := Without(downstream.deps, failed.id);
          downstream.deps := downstream.deps + [replacement];
        }
      }
      graph.ViewIs(RewireAll(g, failed.id, replacement));
    }
  }
}
