/** The loop of `executeOpportunity`, working on the mutable graph in place. */
module AgentLoop {
  import opened Collections
  import opened TaskGraphs
  import opened Replanning
  import opened Execution
  import opened ReplanInvariants
  import opened Liveness

  ghost function Initial(graph: TaskGraph, engine: MorphlingReplanEngine?): World
    reads graph, graph.tasks.Values, engine
  {
    World(graph.View(), if engine == null then map[] else engine.healingAttempts, 0, 0, [],
          map x | x in graph.View().nodes :: graph.View().nodes[x].deps)
  }

  /** The history `w` describes the objects as they are now. */
  ghost predicate Mirrors(w: World, graph: TaskGraph, engine: MorphlingReplanEngine?)
    reads graph, graph.tasks.Values, engine
  {
    && graph.Valid()
    && w.g == graph.View()
    && (engine != null ==> w.attempts == engine.healingAttempts)
  }

  lemma InitialMirrors(graph: TaskGraph, engine: MorphlingReplanEngine?)
    requires graph.Valid()
    ensures var w := Initial(graph, engine);
      Mirrors(w, graph, engine) && w.g == graph.View() && w.calls == 0 && |w.g.nodes| == |graph.tasks|
  {
    CountTasks(graph);
  }

  lemma MirrorsGives(w: World, graph: TaskGraph, engine: MorphlingReplanEngine?)
    requires Mirrors(w, graph, engine)
    ensures graph.Valid() && w.g == graph.View()
  {
  }

  lemma UnusedKept(w: World, id: Id, env: Env)
    requires id in w.g.nodes && Unused(w, env) && DistinctIds(env)
    ensures Unused(Attempt(w, id, env), env)
  {
    hide Attempt, IsSplit;
    var n, split := AttemptCases(w, id, env);
    if split {
      SplitCounters(w.g, Attempt(w, id, env).g, id, n, env.fallbackA(w.calls), env.fallbackB(w.calls));
    }
  }

  lemma RunIsLoop(w: World, env: Env)
    ensures Run(w, env) == Loop(w, 0, |w.g.nodes| * 5 + 10, env)
  {
  }

  /** Attempt, branch by branch, in terms of the running node. */
  lemma AttemptBranches(w: World, id: Id, env: Env)
    requires id in w.g.nodes
    ensures var n, w', k := Dispatched(w.g.nodes[id], w.calls, env), Attempt(w, id, env), CountOf(w.attempts, id) + 1;
      if env.succeeds(w.calls) then
        w'.g == SetNode(w.g, id, n.(status := Completed)) && w'.attempts == w.attempts
      else if env.healer then
        && w'.g == Replan(SetNode(w.g, id, n), id, k, env.fallbackA(w.calls), env.fallbackB(w.calls))
        && w'.attempts == w.attempts[id := k]
      else
        w'.g == SetNode(w.g, id, n.(status := Failed)) && w'.attempts == w.attempts
  {
    hide Replan;
  }

  lemma AttemptCalls(w: World, id: Id, env: Env)
    requires id in w.g.nodes
    ensures Attempt(w, id, env).calls == w.calls + 1
    ensures w.g.nodes.Keys <= Attempt(w, id, env).g.nodes.Keys
  {
  }

  lemma RoundUnfolds(w: World, ids: seq<Id>, env: Env)
    requires ids != [] && forall id :: id in ids ==> id in w.g.nodes
    ensures forall id :: id in ids[1..] ==> id in Attempt(w, ids[0], env).g.nodes
    ensures Round(w, ids, env) == Round(Attempt(w, ids[0], env), ids[1..], env)
  {
    AttemptGrows(w, ids[0], env);
  }

  lemma CountTasks(graph: TaskGraph)
    requires graph.Valid()
    ensures |graph.View().nodes| == |graph.tasks|
  {
    assert graph.View().nodes.Keys == graph.tasks.Keys;
  }

  lemma LoopEnds(w: World, rounds: nat, cap: nat, env: Env)
    requires AllConcluded(w.g) || AnyFailed(w.g) || rounds >= cap ||
             (!env.stopped(rounds) && ReadyAmong(w.g, w.g.order) == [])
    ensures Loop(w, rounds, cap, env) == Outcome(w, rounds, false)
  {
  }

  lemma LoopStops(w: World, rounds: nat, cap: nat, env: Env)
    requires !AllConcluded(w.g) && !AnyFailed(w.g) && rounds < cap && env.stopped(rounds)
    ensures Loop(w, rounds, cap, env) == Outcome(w, rounds, true)
  {
  }

  lemma LoopTurns(w: World, rounds: nat, cap: nat, env: Env)
    requires !AllConcluded(w.g) && !AnyFailed(w.g) && rounds < cap && !env.stopped(rounds)
    requires ReadyAmong(w.g, w.g.order) != []
    ensures forall id :: id in ReadyAmong(w.g, w.g.order) ==> id in w.g.nodes
    ensures Loop(w, rounds, cap, env) == Loop(Round(w, ReadyAmong(w.g, w.g.order), env), rounds + 1, cap, env)
  {
  }

  lemma StoppedFails(w: World, rounds: nat)
    ensures !Succeeded(Outcome(w, rounds, true))
  {
  }

  lemma EndedSucceeds(w: World, rounds: nat)
    ensures Succeeded(Outcome(w, rounds, false)) <==> AllConcluded(w.g) && !AnyFailed(w.g)
  {
  }

  class AgentCore {
    const a2a: bool
    const morphlingReplan: MorphlingReplanEngine?

    constructor (a2a: bool, engine: MorphlingReplanEngine?)
      ensures this.a2a == a2a && morphlingReplan == engine
    {
      this.a2a := a2a;
      morphlingReplan := engine;
    }

    /** Runs one ready task and lets the engine deal with a failure. */
    method RunSubtask(graph: TaskGraph, task: SubTask, calls: nat, env: Env, ghost w: World)
      requires Mirrors(w, graph, morphlingReplan) && w.calls == calls
      requires env.a2a == a2a && env.healer == (morphlingReplan != null)
      requires task.id in graph.tasks && graph.tasks[task.id] == task
      requires Unused(w, env) && DistinctIds(env)
      modifies graph, graph.tasks.Values, morphlingReplan
      ensures task.id in w.g.nodes && Mirrors(Attempt(w, task.id, env), graph, morphlingReplan)
      ensures forall id :: id in old(graph.tasks) ==> id in graph.tasks && graph.tasks[id] == old(graph.tasks)[id]
      ensures forall t :: t in graph.tasks.Values ==> t in old(graph.tasks.Values) || fresh(t)
    {
      hide TaskGraph.View, NoDup, Replan, Attempt;
      graph.ViewAt(task.id);
      AttemptBranches(w, task.id, env);
      var peer := Dispatch(graph, task, calls, env);
      ghost var n := Dispatched(w.g.nodes[task.id], w.calls, env);
      hide Dispatched;
      if env.succeeds(calls) {
        Conclude(graph, task, Completed);
        assert graph.View().nodes == w.g.nodes[task.id := n.(status := Completed)];
      } else if morphlingReplan != null {
        graph.ViewAt(task.id);
        var healed := morphlingReplan.HandleSubtaskFailure(graph, task, env.fallbackA(calls), env.fallbackB(calls));
        assert healed;  // the engine never gives up, so the task is not marked FAILED here
      } else {
        Conclude(graph, task, Failed);
        assert graph.View().nodes == w.g.nodes[task.id := n.(status := Failed)];
      }
    }

    /** Marks the task as running and picks the peer it goes to; "" is local execution. */
    method Dispatch(graph: TaskGraph, task: SubTask, calls: nat, env: Env) returns (peer: string)
      requires graph.Valid() && task.id in graph.tasks && graph.tasks[task.id] == task
      requires env.a2a == a2a
      modifies task
      ensures graph.View() == SetNode(old(graph.View()), task.id, Dispatched(old(task.View()), calls, env))
      ensures task.View() == Dispatched(old(task.View()), calls, env)
      ensures peer == Performer(old(task.View()), calls, env)
    {
      hide TaskGraph.View;
      task.status := Running;
      var found := env.discovered(calls);
      if task.agent != "" && a2a {
        peer := task.agent;
      } else if found != "" {
        task.agent := found;
        peer := found;
      } else {
        peer := "";
      }
      graph.OneTaskChanged(task);
    }

    method Conclude(graph: TaskGraph, task: SubTask, status: Status)
      requires graph.Valid() && task.id in graph.tasks && graph.tasks[task.id] == task
      modifies task
      ensures graph.View() == SetNode(old(graph.View()), task.id, old(task.View()).(status := status))
    {
      hide TaskGraph.View;
      task.status := status;
      graph.OneTaskChanged(task);
    }

    /** One round over the tasks that were ready at its start. */
    method RunReady(graph: TaskGraph, readyTasks: seq<SubTask>, calls0: nat, env: Env, ghost ids: seq<Id>,
      ghost w0: World)
      returns (calls: nat, ghost w: World)
      requires Mirrors(w0, graph, morphlingReplan) && w0.calls == calls0
      requires env.a2a == a2a && env.healer == (morphlingReplan != null)
      requires Unused(w0, env) && DistinctIds(env)
      requires |ids| == |readyTasks| && forall k :: 0 <= k < |ids| ==>
        readyTasks[k].id == ids[k] && ids[k] in graph.tasks && graph.tasks[ids[k]] == readyTasks[k]
      requires forall id :: id in ids ==> id in w0.g.nodes
      modifies graph, graph.tasks.Values, morphlingReplan
      ensures w == Round(w0, ids, env)
      ensures Mirrors(w, graph, morphlingReplan) && w.calls == calls && Unused(w, env)
      ensures forall t :: t in graph.tasks.Values ==> t in old(graph.tasks.Values) || fresh(t)
    {
      hide TaskGraph.View, NoDup, Attempt, Unused, DistinctIds, Mirrors;
      w, calls := w0, calls0;
      for k := 0 to |readyTasks|
        invariant Mirrors(w, graph, morphlingReplan) && w.calls == calls && Unused(w, env)
        invariant forall i :: k <= i < |ids| ==> ids[i] in w.g.nodes
        invariant Round(w0, ids, env) == Round(w, ids[k..], env)
        invariant forall i :: 0 <= i < |ids| ==> ids[i] in graph.tasks && graph.tasks[ids[i]] == readyTasks[i]
        invariant forall t :: t in graph.tasks.Values ==> t in old(graph.tasks.Values) || fresh(t)
      {
        assert ids[k..][0] == ids[k] && ids[k..][1..] == ids[k + 1..];
        RoundUnfolds(w, ids[k..], env);
        UnusedKept(w, ids[k], env);
        AttemptCalls(w, ids[k], env);
        RunSubtask(graph, readyTasks[k], calls, env, w);
        w, calls := Attempt(w, ids[k], env), calls + 1;
      }
    }

    /** One turn of the loop: the ready set and a round over it; false when nothing is ready. */
    method Turn(graph: TaskGraph, calls0: nat, env: Env, ghost w0: World)
      returns (progress: bool, calls: nat, ghost w: World)
      requires Mirrors(w0, graph, morphlingReplan) && w0.calls == calls0
      requires env.a2a == a2a && env.healer == (morphlingReplan != null)
      requires Unused(w0, env) && DistinctIds(env)
      modifies graph, graph.tasks.Values, morphlingReplan
      ensures progress <==> ReadyAmong(w0.g, w0.g.order) != []
      ensures forall id :: id in ReadyAmong(w0.g, w0.g.order) ==> id in w0.g.nodes
      ensures w == if progress then Round(w0, ReadyAmong(w0.g, w0.g.order), env) else w0
      ensures Mirrors(w, graph, morphlingReplan) && w.calls == calls && Unused(w, env)
      ensures forall t :: t in graph.tasks.Values ==> t in old(graph.tasks.Values) || fresh(t)
    {
      hide TaskGraph.View, NoDup, Attempt, Unused, DistinctIds, Round, ReadyAmong, WellFormed;
      var readyTasks := graph.GetReadyTasks();
      graph.ViewKeys();
      progress, calls, w := |readyTasks| > 0, calls0, w0;
      if progress {
        calls, w := RunReady(graph, readyTasks, calls0, env, ReadyAmong(w0.g, w0.g.order), w0);
      }
    }

    /** Rounds over the ready tasks until the graph is done, something failed for good,
        nothing is ready, shutdown is requested, or the cap is reached. */
    method ExecuteGraph(graph: TaskGraph, env: Env) returns (success: bool, ghost o: Outcome)
      requires graph.Valid()
      requires env.a2a == a2a && env.healer == (morphlingReplan != null)
      requires Unused(Initial(graph, morphlingReplan), env) && DistinctIds(env)
      modifies graph, graph.tasks.Values, morphlingReplan
      ensures o == Run(old(Initial(graph, morphlingReplan)), env)
      ensures Mirrors(o.w, graph, morphlingReplan)
      ensures success <==> Succeeded(o)
    {
      hide TaskGraph.View, NoDup, Attempt, Unused, DistinctIds, Round, AllConcluded, AnyFailed, Loop, ReadyAmong;
      hide IsReady, WellFormed, Run, Cap, Initial, Mirrors, Succeeded, TaskGraph.Valid, SubTask.View;
      ghost var w0 := Initial(graph, morphlingReplan);
      ghost var w := w0;
      RunIsLoop(w0, env);
      InitialMirrors(graph, morphlingReplan);
      var iterations, calls := 0, 0;
      var maxIterations := |graph.tasks| * 5 + 10;
      while true
        invariant Mirrors(w, graph, morphlingReplan) && w.calls == calls && Unused(w, env)
        invariant Run(w0, env) == Loop(w, iterations, maxIterations, env)
        invariant iterations <= maxIterations
        invariant forall t :: t in graph.tasks.Values ==> t in old(graph.tasks.Values) || fresh(t)
        decreases maxIterations - iterations
      {
        MirrorsGives(w, graph, morphlingReplan);
        var done := graph.IsCompleted();
        var failed := graph.HasFailedTasks();
        if done || failed || iterations >= maxIterations {
          break;
        }
        if env.stopped(iterations) {
          LoopStops(w, iterations, maxIterations, env);
          StoppedFails(w, iterations);
          return false, Outcome(w, iterations, true);
        }
        ghost var before := w;
        var progress;
        progress, calls, w := Turn(graph, calls, env, w);
        if !progress {
          break;
        }
        LoopTurns(before, iterations, maxIterations, env);
        iterations := iterations + 1;
      }
      LoopEnds(w, iterations, maxIterations, env);
      o := Outcome(w, iterations, false);
      MirrorsGives(w, graph, morphlingReplan);
      var done := graph.IsCompleted();
      var failed := graph.HasFailedTasks();
      success := done && !failed;
      EndedSucceeds(w, iterations);
    }
  }
}
