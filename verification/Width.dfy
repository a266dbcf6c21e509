/** How many tasks can be ready at once: never more than there were at the start. */
module Width {
  import opened Collections
  import opened TaskGraphs
  import opened Replanning
  import opened Execution
  import opened ReplanInvariants
  import opened Liveness

  /** The second halves of splits. */
  ghost function Seconds(splits: seq<SplitEvent>): set<Id> {
    set k | 0 <= k < |splits| :: splits[k].b
  }

  /** The one task a second half waits for is completed. */
  ghost predicate Released(n: Node, g: Graph) {
    |n.deps| == 1 && n.deps[0] in g.nodes && g.nodes[n.deps[0]].status == Completed
  }

  /** The open tasks, except second halves that still wait for their first. */
  ghost function Heads(g: Graph, seconds: set<Id>): set<Id> {
    set x | x in g.nodes && !Concluded(g.nodes[x].status) && (x in seconds ==> Released(g.nodes[x], g))
  }

  /** Each second half waits for one task, no two for the same. */
  ghost predicate Paired(g: Graph, seconds: set<Id>) {
    && (forall y :: y in seconds ==> y in g.nodes && |g.nodes[y].deps| == 1)
    && forall y, z :: y in seconds && z in seconds && y != z ==> g.nodes[y].deps[0] != g.nodes[z].deps[0]
  }

  ghost predicate Narrow(g: Graph, seconds: set<Id>, n: nat) {
    Paired(g, seconds) && |Heads(g, seconds)| <= n
  }

  lemma ReadyIsHead(g: Graph, seconds: set<Id>, id: Id)
    requires Paired(g, seconds) && IsReady(g, id)
    ensures id in Heads(g, seconds)
  {
    if id in seconds {
      assert g.nodes[id].deps[0] in g.nodes[id].deps;
    }
  }

  /** The second half, if any, that waits for `id`. */
  ghost function WaitingFor(g: Graph, seconds: set<Id>, id: Id): set<Id>
    requires Paired(g, seconds)
  {
    set y | y in seconds && g.nodes[y].deps[0] == id
  }

  lemma AtMostOneWaits(g: Graph, seconds: set<Id>, id: Id)
    requires Paired(g, seconds)
    ensures |WaitingFor(g, seconds, id)| <= 1
  {
    var ys := WaitingFor(g, seconds, id);
    if ys != {} {
      var y :| y in ys;
      assert ys == {y};
    }
  }

  lemma RetryNarrow(g: Graph, seconds: set<Id>, id: Id, node: Node)
    requires Paired(g, seconds) && IsReady(g, id) && node.deps == g.nodes[id].deps && node.status == Pending
    ensures Paired(SetNode(g, id, node), seconds) && Heads(SetNode(g, id, node), seconds) == Heads(g, seconds)
  {
  }

  /** The head that is done makes room for the one second half that waited for it. */
  lemma SuccessNarrow(g: Graph, seconds: set<Id>, id: Id, node: Node)
    requires Paired(g, seconds) && IsReady(g, id) && node.deps == g.nodes[id].deps && node.status == Completed
    ensures Paired(SetNode(g, id, node), seconds)
    ensures Heads(SetNode(g, id, node), seconds) <= Heads(g, seconds) - {id} + WaitingFor(g, seconds, id)
  {
    var g' := SetNode(g, id, node);
    forall x | x in Heads(g', seconds) && x !in WaitingFor(g, seconds, id) ensures x in Heads(g, seconds) && x != id {
    }
  }

  lemma ChangeNarrow(g: Graph, seconds: set<Id>, n: nat, id: Id, node: Node)
    requires Narrow(g, seconds, n) && IsReady(g, id) && node.deps == g.nodes[id].deps
    requires node.status == Pending || node.status == Completed
    ensures Narrow(SetNode(g, id, node), seconds, n)
  {
    hide Paired, Heads, WaitingFor, IsReady;
    var g', heads, waiting := SetNode(g, id, node), Heads(g, seconds), WaitingFor(g, seconds, id);
    ReadyIsHead(g, seconds, id);
    AtMostOneWaits(g, seconds, id);
    if node.status == Pending {
      RetryNarrow(g, seconds, id, node);
    } else {
      SuccessNarrow(g, seconds, id, node);
      SubsetSize(Heads(g', seconds), heads - {id} + waiting);
    }
  }

  /** After a split the second halves that waited for the failed task wait for the new one instead. */
  lemma SplitPaired(g: Graph, g': Graph, seconds: set<Id>, id: Id, n: Node, a: Id, b: Id)
    requires Paired(g, seconds) && PresentDeps(g) && IsSplit(g, g', id, n, a, b) && SameTask(g.nodes[id], n)
    ensures forall y :: y in seconds ==>
      && y in g'.nodes && |g'.nodes[y].deps| == 1
      && g'.nodes[y].deps[0] == if g.nodes[y].deps[0] == id then b else g.nodes[y].deps[0]
    ensures Paired(g', seconds + {b})
  {
    hide Round3;
    forall y | y in seconds ensures
      && y in g'.nodes && |g'.nodes[y].deps| == 1
      && g'.nodes[y].deps[0] == if g.nodes[y].deps[0] == id then b else g.nodes[y].deps[0]
    {
      OneRewired(g.nodes[y].deps, id, b);
      assert g'.nodes[y].deps == Rewired(g.nodes[y].deps, id, b);
      assert g.nodes[y].deps[0] in g.nodes[y].deps;
    }
    assert g'.nodes[b].deps == [a];
    hide IsSplit, Rewired;
  }

  lemma OneRewired(deps: seq<Id>, failed: Id, b: Id)
    requires |deps| == 1
    ensures Rewired(deps, failed, b) == [if deps[0] == failed then b else deps[0]]
  {
    if deps[0] == failed {
      assert deps[1..] == [] && Without([], failed) == [];
      assert Without(deps, failed) == [];
    }
  }

  lemma SplitHeads(g: Graph, g': Graph, seconds: set<Id>, id: Id, n: Node, a: Id, b: Id)
    requires Paired(g, seconds) && PresentDeps(g) && IsReady(g, id)
    requires IsSplit(g, g', id, n, a, b) && SameTask(g.nodes[id], n)
    ensures Heads(g', seconds + {b}) == Heads(g, seconds) - {id} + {a}
  {
    hide IsSplit;
    SplitPaired(g, g', seconds, id, n, a, b);
    SplitCounters(g, g', id, n, a, b);
    NewDeps(g, g', id, n, a, b);
    forall x ensures x in Heads(g', seconds + {b}) <==> x in Heads(g, seconds) - {id} + {a} {
      if x in seconds {
        assert g.nodes[x].deps[0] in g.nodes[x].deps;
      }
    }
  }

  lemma SplitNarrow(g: Graph, g': Graph, seconds: set<Id>, width: nat, id: Id, n: Node, a: Id, b: Id)
    requires Narrow(g, seconds, width) && PresentDeps(g) && IsReady(g, id)
    requires IsSplit(g, g', id, n, a, b) && SameTask(g.nodes[id], n)
    ensures Narrow(g', seconds + {b}, width)
  {
    hide IsSplit, Paired, Heads, PresentDeps, IsReady;
    ReadyIsHead(g, seconds, id);
    SplitPaired(g, g', seconds, id, n, a, b);
    SplitHeads(g, g', seconds, id, n, a, b);
    assert |Heads(g, seconds) - {id}| == |Heads(g, seconds)| - 1;
  }

  lemma AttemptNarrow(w: World, g0: Graph, id: Id, env: Env, width: nat)
    requires Inv(w, g0, env) && env.healer && IsReady(w.g, id) && Narrow(w.g, Seconds(w.splits), width)
    ensures Narrow(Attempt(w, id, env).g, Seconds(Attempt(w, id, env).splits), width)
  {
    hide Attempt, Narrow, IsReady, IsSplit, Inv;
    InvGives(w, g0, id, env);
    InvPresent(w, g0, env);
    var w' := Attempt(w, id, env);
    var n, split := AttemptCases(w, id, env);
    if split {
      var a, b := env.fallbackA(w.calls), env.fallbackB(w.calls);
      SplitNarrow(w.g, w'.g, Seconds(w.splits), width, id, n, a, b);
      var splits := w.splits + [SplitEvent(id, a, b)];
      assert splits[|w.splits|].b == b && forall k :: 0 <= k < |w.splits| ==> splits[k] == w.splits[k];
      assert Seconds(splits) == Seconds(w.splits) + {b};
    } else {
      ChangeNarrow(w.g, Seconds(w.splits), width, id, n);
    }
  }

  lemma InvPresent(w: World, g0: Graph, env: Env)
    requires Inv(w, g0, env)
    ensures PresentDeps(w.g)
  {
  }

  /** At no time more tasks are ready than there are heads. */
  lemma ReadyBounded(g: Graph, seconds: set<Id>, width: nat, ids: seq<Id>)
    requires Narrow(g, seconds, width) && AllReady(g, ids)
    ensures |ids| <= width
  {
    ElemsSize(ids);
    forall id | id in Elems(ids) ensures id in Heads(g, seconds) {
      ReadyIsHead(g, seconds, id);
    }
    SubsetSize(Elems(ids), Heads(g, seconds));
  }

  lemma {:induction false} RoundNarrow(w: World, g0: Graph, ready: seq<Id>, env: Env, width: nat)
    requires Inv(w, g0, env) && env.healer && AllReady(w.g, ready) && Narrow(w.g, Seconds(w.splits), width)
    ensures Narrow(Round(w, ready, env).g, Seconds(Round(w, ready, env).splits), width)
    decreases |ready|
  {
    hide Inv, Attempt, IsReady, Narrow, Seconds;
    if ready != [] {
      AttemptKeeps(w, g0, ready[0], env);
      AttemptNarrow(w, g0, ready[0], env, width);
      RestReady(w, ready, env);
      RoundNarrow(Attempt(w, ready[0], env), g0, ready[1..], env, width);
    }
  }

  lemma {:induction false} LoopBounded(w: World, g0: Graph, rounds: nat, cap: nat, env: Env, width: nat)
    requires Inv(w, g0, env) && env.healer && Narrow(w.g, Seconds(w.splits), width) && rounds <= cap
    requires w.failures <= width * rounds
    ensures var o := Loop(w, rounds, cap, env);
      rounds <= o.rounds <= cap && o.w.failures <= width * o.rounds
    decreases cap - rounds
  {
    hide Inv, Round, ReadyAmong, AllConcluded, AnyFailed, Narrow, Seconds, AllReady;
    if !(AllConcluded(w.g) || AnyFailed(w.g) || rounds >= cap || env.stopped(rounds)) {
      ReadyStep(w, g0, env);
      var ready := ReadyAmong(w.g, w.g.order);
      RoundKeeps(w, g0, ready, env);
      RoundNarrow(w, g0, ready, env, width);
      ReadyBounded(w.g, Seconds(w.splits), width, ready);
      assert width * (rounds + 1) == width * rounds + width;
      LoopBounded(Round(w, ready, env), g0, rounds + 1, cap, env, width);
    }
  }

  lemma StartNarrow(g: Graph)
    ensures Narrow(g, {}, |Live(g)|)
  {
    assert Heads(g, {}) == Live(g);
  }

  /** A run over n tasks has at most n failures per round. */
  lemma FailuresPerRound(w: World, env: Env)
    requires Start(w, env) && env.healer
    ensures var o, n := Run(w, env), |w.g.nodes|;
      o.w.failures <= n * o.rounds <= n * Cap(n)
  {
    var n := |w.g.nodes|;
    hide Inv, Heads, Live, Narrow, Loop, Start;
    StartUnfailed(w, env);
    assert Seconds(w.splits) == {};
    StartNarrow(w.g);
    StartGivesInv(w, env);
    LoopBounded(w, w.g, 0, Cap(n), env, n);
    MoreRounds(n, Run(w, env).rounds, Cap(n));
  }

  lemma StartUnfailed(w: World, env: Env)
    requires Start(w, env)
    ensures w.failures == 0 && w.splits == []
  {
  }

  lemma MoreRounds(n: nat, r: nat, cap: nat)
    requires r <= cap
    ensures n * r <= n * cap
  {
  }
}
