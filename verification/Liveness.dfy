/** Whole runs of the execution loop: deadlock freedom, the bound on rounds, and what a finished run guarantees. */
module Liveness {
  import opened Collections
  import opened TaskGraphs
  import opened Replanning
  import opened Execution
  import opened ReplanInvariants

  /** Before the first round: pending tasks with distinct, present dependencies and no cycle, and unused ids. */
  ghost predicate Start(w: World, env: Env) {
    && WellFormed(w.g) && Sortable(w.g)
    && (forall x :: x in w.g.nodes ==> w.g.nodes[x].status == Pending && x !in w.attempts)
    && w.failures == 0 && w.splits == []
    && w.born == (map x | x in w.g.nodes :: w.g.nodes[x].deps)
    && Unused(w, env) && DistinctIds(env)
  }

  lemma StartGivesInv(w: World, env: Env)
    requires Start(w, env)
    ensures Inv(w, w.g, env)
    ensures |Live(w.g)| == |w.g.nodes|
  {
    hide Chained, Tallied, HasCycle, NoDup, Unused, DistinctIds, Healthy, Patient, DepsMet;
    StartTallied(w);
    StartChained(w);
    StartHealthy(w, env);
    assert Live(w.g) == w.g.nodes.Keys;
  }

  lemma StartHealthy(w: World, env: Env)
    requires Start(w, env)
    ensures Healthy(w.g) && Patient(w)
  {
    hide HasCycle, NoDup, Unused, DistinctIds;
  }

  lemma StartTallied(w: World)
    requires forall x :: x in w.g.nodes ==> w.g.nodes[x].status == Pending
    requires w.splits == []
    ensures Tallied(w, w.g.nodes.Keys)
  {
    assert CancelledIn(w.g) == {};
    assert Tried(w.g, w.g.nodes.Keys) == {};
  }

  lemma StartChained(w: World)
    requires PresentDeps(w.g) && w.splits == []
    requires forall x :: x in w.g.nodes ==> w.g.nodes[x].status == Pending
    requires w.born == (map x | x in w.g.nodes :: w.g.nodes[x].deps)
    ensures Chained(w)
  {
    forall x | x in w.g.nodes ensures Owed(w, x) {
      forall e | e in w.g.nodes[x].deps ensures StandsFor(w.born[x], w.splits, e) {
        assert Final(w.splits, e) == e;
      }
    }
  }

  /** Deadlock freedom: as long as nothing failed for good, some task is ready until the graph is done. */
  lemma ReadyUntilDone(g: Graph)
    requires Sound(g) && Healthy(g) && !AnyFailed(g)
    ensures AllConcluded(g) <==> ReadyAmong(g, g.order) == []
  {
    var ready := ReadyAmong(g, g.order);
    if ready != [] {
      assert ready[0] in ready && !Concluded(g.nodes[ready[0]].status);
    }
    if x :| x in g.nodes && !Concluded(g.nodes[x].status) {
      var y := FirstOpenIsReady(g, x);
      assert y in ready;
    }
  }

  lemma FirstOpenIsReady(g: Graph, x: Id) returns (y: Id)
    requires Sound(g) && Healthy(g) && !AnyFailed(g) && x in g.nodes && !Concluded(g.nodes[x].status)
    ensures y in g.order && IsReady(g, y)
  {
    AcyclicIffOrdered(g);
    var o :| IsTopologicalOrder(g, o);
    var k := FirstOpen(g, o, 0, IndexIn(o, x));
    y := o[k];
    forall d | d in g.nodes[y].deps ensures d in g.nodes && g.nodes[d].status == Completed {
      assert d in o[..k];
    }
  }

  /** The first task of an order that is not concluded, given that the one at `open` is not. */
  lemma {:induction false} FirstOpen(g: Graph, o: seq<Id>, from: nat, open: nat) returns (k: nat)
    requires from <= open < |o| && forall i :: 0 <= i < |o| ==> o[i] in g.nodes
    requires !Concluded(g.nodes[o[open]].status)
    requires forall i :: 0 <= i < from ==> Concluded(g.nodes[o[i]].status)
    ensures k < |o| && !Concluded(g.nodes[o[k]].status)
    ensures forall i :: 0 <= i < k ==> Concluded(g.nodes[o[i]].status)
    decreases open - from
  {
    if Concluded(g.nodes[o[from]].status) {
      k := FirstOpen(g, o, from + 1, open);
    } else {
      k := from;
    }
  }

  // ----- One round -----

  ghost predicate AllReady(g: Graph, ids: seq<Id>) {
    NoDup(ids) && forall id :: id in ids ==> id in g.nodes && IsReady(g, id)
  }

  /** What a stretch of execution costs: every failure may leave one more node, every success one less. */
  lemma {:induction false} RoundKeeps(w: World, g0: Graph, ready: seq<Id>, env: Env)
    requires Inv(w, g0, env) && AllReady(w.g, ready)
    ensures var w' := Round(w, ready, env);
      && Inv(w', g0, env)
      && |Live(w'.g)| + |ready| == |Live(w.g)| + (w'.failures - w.failures) + (|w'.splits| - |w.splits|)
      && |w.splits| <= |w'.splits| <= |w.splits| + w'.failures - w.failures
      && w.failures <= w'.failures <= w.failures + |ready|
    decreases |ready|
  {
    hide Inv, Live, Attempt, IsReady;
    if ready != [] {
      AttemptKeeps(w, g0, ready[0], env);
      var w1 := Attempt(w, ready[0], env);
      RestReady(w, ready, env);
      RoundKeeps(w1, g0, ready[1..], env);
    }
  }

  lemma RestReady(w: World, ready: seq<Id>, env: Env)
    requires ready != [] && AllReady(w.g, ready)
    requires forall u :: u != ready[0] && IsReady(w.g, u) ==> IsReady(Attempt(w, ready[0], env).g, u)
    ensures AllReady(Attempt(w, ready[0], env).g, ready[1..])
  {
    forall id | id in ready[1..] ensures IsReady(Attempt(w, ready[0], env).g, id) {
      assert id != ready[0] && id in ready;
    }
  }

  // ----- Whole runs -----

  lemma {:induction false} LoopKeeps(w: World, g0: Graph, rounds: nat, cap: nat, env: Env)
    requires Inv(w, g0, env) && rounds <= cap
    requires rounds + |Live(w.g)| <= |g0.nodes| + w.failures + |w.splits|
    ensures var o := Loop(w, rounds, cap, env);
      && Inv(o.w, g0, env)
      && o.rounds + |Live(o.w.g)| <= |g0.nodes| + o.w.failures + |o.w.splits|
      && rounds <= o.rounds <= cap
      && |o.w.splits| - |w.splits| <= o.w.failures - w.failures
      && (o.aborted || AllConcluded(o.w.g) || AnyFailed(o.w.g) || o.rounds == cap)
    decreases cap - rounds
  {
    hide Inv, Live, Round, ReadyAmong, AllConcluded, AnyFailed, Final;
    if !(AllConcluded(w.g) || AnyFailed(w.g) || rounds >= cap || env.stopped(rounds)) {
      ReadyStep(w, g0, env);
      var ready := ReadyAmong(w.g, w.g.order);
      RoundKeeps(w, g0, ready, env);
      LoopKeeps(Round(w, ready, env), g0, rounds + 1, cap, env);
    }
  }

  lemma ReadyStep(w: World, g0: Graph, env: Env)
    requires Inv(w, g0, env) && !AllConcluded(w.g) && !AnyFailed(w.g)
    ensures var ready := ReadyAmong(w.g, w.g.order); ready != [] && AllReady(w.g, ready)
  {
    ReadyUntilDone(w.g);
  }

  lemma CancelledBounded(w: World, g0: Graph)
    requires Tallied(w, g0.nodes.Keys)
    ensures 2 * |w.splits| <= w.failures + |g0.nodes|
  {
    SubsetSize(CancelledIn(w.g) * g0.nodes.Keys, g0.nodes.Keys);
  }

  function Cap(n: nat): nat {
    n * 5 + 10
  }

  /** So few failures that the cap cannot end a run of n tasks. */
  predicate WithinCap(n: nat, failures: nat) {
    failures + (failures + n) / 2 <= 4 * n + 10
  }

  /** The run that `executeOpportunity` makes over the graph. */
  ghost function Run(w: World, env: Env): Outcome {
    Loop(w, 0, Cap(|w.g.nodes|), env)
  }

  /** Everything known about the end of a run. */
  lemma RunEnds(w: World, env: Env) returns (o: Outcome)
    requires Start(w, env)
    ensures o == Run(w, env)
    ensures Inv(o.w, w.g, env)
    ensures o.rounds + |Live(o.w.g)| <= |w.g.nodes| + o.w.failures + |o.w.splits|
    ensures |o.w.splits| <= o.w.failures
    ensures 2 * |o.w.splits| <= o.w.failures + |w.g.nodes|
    ensures o.aborted || AllConcluded(o.w.g) || AnyFailed(o.w.g) || o.rounds == Cap(|w.g.nodes|)
  {
    StartGivesInv(w, env);
    LoopKeeps(w, w.g, 0, Cap(|w.g.nodes|), env);
    o := Run(w, env);
    CancelledBounded(o.w, w.g);
  }

  lemma NoLiveIsDone(g: Graph)
    requires Live(g) == {}
    ensures AllConcluded(g)
  {
    forall x | x in g.nodes ensures Concluded(g.nodes[x].status) {
      assert x !in Live(g);
    }
  }

  /** Liveness with a bound.  With F failures a run takes at most n + 2F rounds; unless it is stopped it can only
      miss its goal by using up all 5n + 10 rounds, and it cannot do that while 3F <= 7n + 20. */
  lemma RunSucceeds(w: World, env: Env)
    requires Start(w, env) && env.healer
    ensures var o, n := Run(w, env), |w.g.nodes|;
      && o.rounds <= n + o.w.failures + |o.w.splits| <= n + 2 * o.w.failures
      && 2 * o.rounds <= 3 * n + 3 * o.w.failures
      && !AnyFailed(o.w.g)
      && (o.aborted || Succeeded(o) || o.rounds == Cap(n))
      && (!o.aborted && WithinCap(n, o.w.failures) ==> Succeeded(o))
      && (!o.aborted && 3 * o.w.failures <= 7 * n + 20 ==> Succeeded(o))
      && (!o.aborted && o.w.failures <= 2 * n + 5 ==> Succeeded(o))
  {
    var o := RunEnds(w, env);
    if o.rounds == Cap(|w.g.nodes|) && WithinCap(|w.g.nodes|, o.w.failures) {
      assert Live(o.w.g) == {};
      NoLiveIsDone(o.w.g);
    }
  }

  lemma {:induction false} LoopStopsIff(w: World, rounds: nat, cap: nat, env: Env)
    ensures var o := Loop(w, rounds, cap, env);
      && rounds <= o.rounds
      && (forall r :: rounds <= r < o.rounds ==> !env.stopped(r))
      && (o.aborted <==> env.stopped(o.rounds) && !AllConcluded(o.w.g) && !AnyFailed(o.w.g) && o.rounds < cap)
    decreases cap - rounds
  {
    hide AllConcluded, AnyFailed, Round, ReadyAmong;
    if !(AllConcluded(w.g) || AnyFailed(w.g) || rounds >= cap || env.stopped(rounds)) {
      var ready := ReadyAmong(w.g, w.g.order);
      if ready != [] {
        LoopStopsIff(Round(w, ready, env), rounds + 1, cap, env);
      }
    }
  }

  /** A run is aborted exactly when shutdown has been requested at the start of a round that it still needs, and at the
      first such round. */
  lemma RunAbortsIff(w: World, env: Env)
    ensures var o := Run(w, env);
      && (forall r :: 0 <= r < o.rounds ==> !env.stopped(r))
      && (o.aborted <==>
            env.stopped(o.rounds) && !AllConcluded(o.w.g) && !AnyFailed(o.w.g) && o.rounds < Cap(|w.g.nodes|))
  {
    LoopStopsIff(w, 0, Cap(|w.g.nodes|), env);
    hide Loop, AllConcluded, AnyFailed;
  }

  /** Without a replanning engine a run succeeds exactly when no subtask fails. */
  lemma RunWithoutHealer(w: World, env: Env)
    requires Start(w, env) && !env.healer
    ensures var o := Run(w, env); !o.aborted ==> (Succeeded(o) <==> o.w.failures == 0)
  {
    var o := RunEnds(w, env);
  }

  /** A failure with retries left changes one node. */
  lemma RetryInPlaceAt(w: World, id: Id, env: Env) returns (n: Node)
    requires id in w.g.nodes && env.healer && !env.succeeds(w.calls)
    requires w.g.nodes[id].retryCount < w.g.nodes[id].maxRetries
    ensures Attempt(w, id, env).g == SetNode(w.g, id, n)
    ensures Attempt(w, id, env).failures == w.failures + 1 && Attempt(w, id, env).calls == w.calls + 1
    ensures n.status == Pending && SameTask(w.g.nodes[id], n) && n.retryCount == w.g.nodes[id].retryCount + 1
  {
    hide Round3;
    n := Retried(Dispatched(w.g.nodes[id], w.calls, env).(status := Replanning));
    assert Attempt(w, id, env).g.nodes == w.g.nodes[id := n];
  }

  /** So does a success. */
  lemma SuccessInPlaceAt(w: World, id: Id, env: Env) returns (n: Node)
    requires id in w.g.nodes && env.succeeds(w.calls)
    ensures Attempt(w, id, env).g == SetNode(w.g, id, n) && n.status == Completed && SameTask(w.g.nodes[id], n)
    ensures Attempt(w, id, env).failures == w.failures && Attempt(w, id, env).calls == w.calls + 1
  {
    n := Dispatched(w.g.nodes[id], w.calls, env).(status := Completed);
  }

  lemma LoneTaskIsReady(g: Graph, id: Id)
    requires g.order == [id] && g.nodes.Keys == {id} && g.nodes[id].status == Pending && g.nodes[id].deps == []
    ensures ReadyAmong(g, g.order) == [id] && !AllConcluded(g) && !AnyFailed(g)
  {
    assert id in g.nodes;
    assert ReadyAmong(g, []) == [];
    assert g.order[..0] == [] && g.order[0] == id;
  }

  /** The cap is not idle: a lone task with enough retries that always fails uses up every round. */
  lemma {:induction false} CapCanFire(w: World, id: Id, rounds: nat, env: Env)
    requires env.healer && rounds <= Cap(1)
    requires forall i :: !env.succeeds(i) && !env.stopped(i)
    requires w.g.order == [id] && w.g.nodes.Keys == {id}
    requires var n := w.g.nodes[id];
      n.status == Pending && n.deps == [] && n.retryCount + Cap(1) <= n.maxRetries + rounds
    requires w.failures == rounds
    ensures var o := Loop(w, rounds, Cap(1), env);
      !o.aborted && !Succeeded(o) && o.rounds == Cap(1) && o.w.failures == Cap(1)
    decreases Cap(1) - rounds
  {
    hide Attempt, ReadyAmong, AllConcluded, AnyFailed;
    LoneTaskIsReady(w.g, id);
    if rounds < Cap(1) {
      var n := RetryInPlaceAt(w, id, env);
      var w1 := Attempt(w, id, env);
      assert [id][1..] == [];
      assert Round(w, [id], env) == Round(w1, [], env) == w1;
      CapCanFire(w1, id, rounds + 1, env);
    }
  }

  // ----- What every reachable state guarantees -----

  /** Each task is ready when its turn comes.  The rounds of a run are such sequences, and so are all their prefixes. */
  ghost predicate ReadyInTurn(w: World, ids: seq<Id>, env: Env)
    decreases |ids|
  {
    ids == [] || (IsReady(w.g, ids[0]) && ReadyInTurn(Attempt(w, ids[0], env), ids[1..], env))
  }

  /** The state after the tasks were executed one after the other. */
  ghost function Played(w: World, ids: seq<Id>, env: Env): World
    requires ReadyInTurn(w, ids, env)
    decreases |ids|
  {
    if ids == [] then w else Played(Attempt(w, ids[0], env), ids[1..], env)
  }

  lemma {:induction false} PlayedKeeps(w: World, g0: Graph, ids: seq<Id>, env: Env)
    requires Inv(w, g0, env) && ReadyInTurn(w, ids, env)
    ensures Inv(Played(w, ids, env), g0, env)
    decreases |ids|
  {
    hide Inv, Attempt;
    if ids != [] {
      AttemptKeeps(w, g0, ids[0], env);
      PlayedKeeps(Attempt(w, ids[0], env), g0, ids[1..], env);
    }
  }

  lemma {:induction false} PlayedOn(w: World, first: seq<Id>, second: seq<Id>, env: Env)
    requires ReadyInTurn(w, first, env) && ReadyInTurn(Played(w, first, env), second, env)
    ensures ReadyInTurn(w, first + second, env)
    ensures Played(w, first + second, env) == Played(Played(w, first, env), second, env)
    decreases |first|
  {
    hide Attempt;
    if first == [] {
      assert first + second == second;
    } else {
      PlayedOn(Attempt(w, first[0], env), first[1..], second, env);
      assert (first + second)[1..] == first[1..] + second;
    }
  }

  lemma {:induction false} RoundIsPlayed(w: World, g0: Graph, ready: seq<Id>, env: Env)
    requires Inv(w, g0, env) && AllReady(w.g, ready)
    ensures ReadyInTurn(w, ready, env) && Played(w, ready, env) == Round(w, ready, env)
    decreases |ready|
  {
    hide Inv, Attempt;
    if ready != [] {
      AttemptKeeps(w, g0, ready[0], env);
      RestReady(w, ready, env);
      RoundIsPlayed(Attempt(w, ready[0], env), g0, ready[1..], env);
    }
  }

  /** The end of a run is a state of this kind. */
  lemma {:induction false} LoopIsPlayed(w: World, g0: Graph, rounds: nat, cap: nat, env: Env) returns (ids: seq<Id>)
    requires Inv(w, g0, env)
    ensures ReadyInTurn(w, ids, env) && Played(w, ids, env) == Loop(w, rounds, cap, env).w
    decreases cap - rounds
  {
    hide Inv, Attempt, IsReady, AllReady;
    ids := [];
    if !AllConcluded(w.g) && !AnyFailed(w.g) && rounds < cap && !env.stopped(rounds) {
      var ready := ReadyAmong(w.g, w.g.order);
      ReadyStep(w, g0, env);
      RoundKeeps(w, g0, ready, env);
      RoundIsPlayed(w, g0, ready, env);
      var rest := LoopIsPlayed(Round(w, ready, env), g0, rounds + 1, cap, env);
      PlayedOn(w, ready, rest, env);
      ids := ready + rest;
    }
  }

  lemma RunIsPlayed(w: World, env: Env) returns (ids: seq<Id>)
    requires Start(w, env)
    ensures ReadyInTurn(w, ids, env) && Played(w, ids, env) == Run(w, env).w
  {
    hide Inv, Start, Loop, ReadyInTurn, Played;
    StartGivesInv(w, env);
    ids := LoopIsPlayed(w, w.g, 0, Cap(|w.g.nodes|), env);
  }

  /** In every reachable state: a task only runs when the final replacement of each of its original dependencies is
      completed, and that stays true for every task that has run, cancelled ones included. */
  lemma ObligationsMet(start: World, ids: seq<Id>, env: Env, x: Id, d: Id)
    requires Start(start, env) && ReadyInTurn(start, ids, env)
    requires x in start.g.nodes && d in start.g.nodes[x].deps
    ensures var w := Played(start, ids, env);
      && x in w.g.nodes
      && (IsReady(w.g, x) || Concluded(w.g.nodes[x].status) ==>
            Final(w.splits, d) in w.g.nodes && w.g.nodes[Final(w.splits, d)].status == Completed)
  {
    hide Inv, Played, ReadyInTurn, Final, Start;
    StartGivesInv(start, env);
    PlayedKeeps(start, start.g, ids, env);
    DependenciesDone(Played(start, ids, env), start.g, env, x, d);
  }

  lemma DependenciesDone(w: World, g0: Graph, env: Env, x: Id, d: Id)
    requires Inv(w, g0, env) && x in g0.nodes && d in g0.nodes[x].deps
    ensures x in w.g.nodes
    ensures IsReady(w.g, x) || Concluded(w.g.nodes[x].status) ==>
      Final(w.splits, d) in w.g.nodes && w.g.nodes[Final(w.splits, d)].status == Completed
  {
    hide Final;
    TalliedBase(w, g0);
    assert Owed(w, x);
  }

  /** On a successful run the chain of every original task ends in a completed node, after its dependencies' chains. */
  lemma SuccessCompletesChains(w: World, env: Env, x: Id)
    requires Start(w, env) && Succeeded(Run(w, env)) && x in w.g.nodes
    ensures var o := Run(w, env).w;
      && Final(o.splits, x) in o.g.nodes && o.g.nodes[Final(o.splits, x)].status == Completed
      && forall d :: d in w.g.nodes[x].deps ==>
           Final(o.splits, d) in o.g.nodes && o.g.nodes[Final(o.splits, d)].status == Completed
  {
    var o := RunEnds(w, env);
    hide Final, Loop;
    assert o.w.g.nodes.Keys >= w.g.nodes.Keys by { TalliedBase(o.w, w.g); }
    assert Final(o.w.splits, x) in o.w.g.nodes;
    forall d | d in w.g.nodes[x].deps
      ensures Final(o.w.splits, d) in o.w.g.nodes && o.w.g.nodes[Final(o.w.splits, d)].status == Completed
    {
      DependenciesDone(o.w, w.g, env, x, d);
    }
  }

  /** The graph in every reachable state: sortable, free of dependencies on cancelled tasks, grown by two nodes for
      each cancelled one, and no node failed more often than its retries, one reroute and the final split allow. */
  lemma GraphStaysSound(start: World, ids: seq<Id>, env: Env)
    requires Start(start, env) && ReadyInTurn(start, ids, env)
    ensures var w := Played(start, ids, env);
      && WellFormed(w.g) && Sortable(w.g)
      && |w.g.nodes| == |start.g.nodes| + 2 * |CancelledIn(w.g)|
      && (forall x, d :: x in w.g.nodes && d in w.g.nodes[x].deps ==>
        d in w.g.nodes && w.g.nodes[d].status != Cancelled)
      && (forall x :: x in w.g.nodes ==> CountOf(w.attempts, x) <= w.g.nodes[x].maxRetries + 2)
      && (env.healer ==> !AnyFailed(w.g))
  {
    hide Start, Played, ReadyInTurn, Chained, HasCycle, NoDup;
    StartGivesInv(start, env);
    PlayedKeeps(start, start.g, ids, env);
  }
}
