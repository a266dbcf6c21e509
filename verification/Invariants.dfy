/** What every subtask execution keeps, whatever its outcome. */
module ReplanInvariants {
  import opened Collections
  import opened TaskGraphs
  import opened Replanning
  import opened Execution

  // ----- Shape: the graph stays sortable -----

  ghost predicate Sound(g: Graph) {
    WellFormed(g) && Sortable(g)
  }

  /** No task waits for a cancelled one, and whatever ran had its dependencies completed. */
  ghost predicate Healthy(g: Graph) {
    && (forall id, d :: id in g.nodes && d in g.nodes[id].deps && d in g.nodes ==> g.nodes[d].status != Cancelled)
    && (forall id :: id in g.nodes && Concluded(g.nodes[id].status) ==> DepsMet(g, id))
    && (forall id :: id in g.nodes ==> g.nodes[id].status in {Pending, Completed, Cancelled, Failed})
  }

  lemma ChangeKeepsSound(g: Graph, id: Id, n: Node)
    requires Sound(g) && id in g.nodes && n.deps == g.nodes[id].deps
    ensures Sound(SetNode(g, id, n))
  {
    var g' := SetNode(g, id, n);
    forall p | IsCycle(g', p) ensures false {
      assert IsCycle(g, p) by {
        forall i | 0 <= i < |p| - 1 ensures p[i] in g.nodes && p[i + 1] in g.nodes[p[i]].deps {
          assert p[i] in g'.nodes && p[i + 1] in g'.nodes[p[i]].deps;
        }
      }
    }
  }

  lemma ChangeKeepsHealthy(g: Graph, id: Id, n: Node)
    requires Healthy(g) && PresentDeps(g) && IsReady(g, id) && n.deps == g.nodes[id].deps
    requires n.status in {Pending, Completed, Failed}
    ensures Healthy(SetNode(g, id, n))
  {
    var g' := SetNode(g, id, n);
    forall x | x in g'.nodes && Concluded(g'.nodes[x].status) ensures DepsMet(g', x) {
      assert DepsMet(g, x);
    }
  }

  lemma RewiredDeps(deps: seq<Id>, failed: Id, b: Id)
    ensures forall d :: d in Rewired(deps, failed, b) <==> (d in deps && d != failed) || (failed in deps && d == b)
    ensures NoDup(deps) && b !in deps ==> NoDup(Rewired(deps, failed, b))
  {
    if failed in deps && NoDup(deps) && b !in deps {
      NoDupAppend(Without(deps, failed), b);
    }
  }

  /** Membership form of the dependencies after a split. */
  lemma SplitDeps(g: Graph, g': Graph, id: Id, n: Node, a: Id, b: Id, x: Id)
    requires Sound(g) && IsSplit(g, g', id, n, a, b) && SameTask(g.nodes[id], n) && x in g.nodes
    ensures forall d :: d in g'.nodes[x].deps <==>
      (d in g.nodes[x].deps && d != id) || (id in g.nodes[x].deps && d == b)
    ensures NoDup(g'.nodes[x].deps)
  {
    RewiredDeps(g.nodes[x].deps, id, b);
    assert NoDup(g.nodes[x].deps);
    assert b !in g.nodes[x].deps;
  }

  lemma NotSelfDependent(g: Graph, id: Id)
    requires Sound(g) && id in g.nodes
    ensures id !in g.nodes[id].deps
  {
    if id in g.nodes[id].deps {
      assert IsCycle(g, [id, id]);
    }
  }

  lemma SplitKeepsSound(g: Graph, g': Graph, id: Id, n: Node, a: Id, b: Id)
    requires Sound(g) && IsSplit(g, g', id, n, a, b) && SameTask(g.nodes[id], n)
    ensures Sound(g')
  {
    NoDupAppend(g.order, a);
    NoDupAppend(g.order + [a], b);
    assert g'.order == g.order + [a] + [b];
    forall x | x in g.nodes
      ensures NoDup(g'.nodes[x].deps) && forall d :: d in g'.nodes[x].deps ==> d in g'.nodes
    {
      SplitDeps(g, g', id, n, a, b, x);
    }
    SplitKeepsAcyclic(g, g', id, n, a, b);
  }

  lemma SoundRank(g: Graph) returns (rank: map<Id, nat>)
    requires Sound(g)
    ensures Ranked(g, rank) && rank.Keys == g.nodes.Keys
  {
    AcyclicIffOrdered(g);
    var o :| IsTopologicalOrder(g, o);
    rank := OrderGivesRank(g, o);
  }

  /** The two new nodes fit in the rank right after the failed one. */
  lemma SplitKeepsAcyclic(g: Graph, g': Graph, id: Id, n: Node, a: Id, b: Id)
    requires Sound(g) && IsSplit(g, g', id, n, a, b) && SameTask(g.nodes[id], n)
    ensures !HasCycle(g')
  {
    hide Sound, IsSplit, HasCycle;
    var rank := SoundRank(g);
    SplitCounters(g, g', id, n, a, b);
    var rank' := (map x | x in g.nodes :: 3 * rank[x])[a := 3 * rank[id] + 1][b := 3 * rank[id] + 2];
    forall x, d | x in g'.nodes && d in g'.nodes[x].deps ensures d in rank' && x in rank' && rank'[d] < rank'[x]
    {
      SplitRankFalls(g, g', id, n, a, b, rank, rank', x, d);
    }
    RankedHasNoCycle(g', rank');
  }

  /** Along one dependency of the new graph. */
  lemma SplitRankFalls(
      g: Graph, g': Graph, id: Id, n: Node, a: Id, b: Id, rank: map<Id, nat>, rank': map<Id, nat>, x: Id, d: Id)
    requires Sound(g) && IsSplit(g, g', id, n, a, b) && SameTask(g.nodes[id], n)
    requires Ranked(g, rank) && rank.Keys == g.nodes.Keys && x in g'.nodes && d in g'.nodes[x].deps
    requires rank' == (map y | y in g.nodes :: 3 * rank[y])[a := 3 * rank[id] + 1][b := 3 * rank[id] + 2]
    ensures d in rank' && x in rank' && rank'[d] < rank'[x]
  {
    hide Sound, IsSplit;
    SplitCounters(g, g', id, n, a, b);
    NewDeps(g, g', id, n, a, b);
    if x in g.nodes {
      SplitDeps(g, g', id, n, a, b, x);
      assert d in g.nodes[x].deps || (d == b && id in g.nodes[x].deps);
    }
  }

  lemma SplitKeepsHealthy(g: Graph, g': Graph, id: Id, n: Node, a: Id, b: Id)
    requires Sound(g) && Healthy(g) && IsReady(g, id)
    requires IsSplit(g, g', id, n, a, b) && SameTask(g.nodes[id], n)
    ensures Healthy(g')
  {
    NotSelfDependent(g, id);
    forall x | x in g.nodes
      ensures forall d :: d in g'.nodes[x].deps <==>
        (d in g.nodes[x].deps && d != id) || (id in g.nodes[x].deps && d == b)
    {
      SplitDeps(g, g', id, n, a, b, x);
    }
    forall x | x in g'.nodes && Concluded(g'.nodes[x].status) ensures DepsMet(g', x) {
      if x != id {
        assert DepsMet(g, x);
      }
    }
  }

  /** What a split does to the fields that are counted. */
  lemma SplitCounters(g: Graph, g': Graph, id: Id, n: Node, a: Id, b: Id)
    requires IsSplit(g, g', id, n, a, b)
    ensures a !in g.nodes && b !in g.nodes && a != b && g'.nodes.Keys == g.nodes.Keys + {a, b}
    ensures forall x :: x in g.nodes && x != id ==>
      && g'.nodes[x].status == g.nodes[x].status
      && g'.nodes[x].retryCount == g.nodes[x].retryCount
      && g'.nodes[x].maxRetries == g.nodes[x].maxRetries
    ensures id in g.nodes && g'.nodes[id].status == Cancelled && g'.nodes[id].maxRetries == n.maxRetries
    ensures forall x :: x in {a, b} ==>
      g'.nodes[x].status == Pending && g'.nodes[x].retryCount == 0 && g'.nodes[x].maxRetries == 1
  {
  }

  // ----- Obligations: replacement chains -----

  /** Follows the chain failed -> fallback B through the splits, oldest first. */
  ghost function Final(splits: seq<SplitEvent>, x: Id): Id {
    if splits == [] then x
    else
      var last := splits[|splits| - 1];
      var y := Final(splits[..|splits| - 1], x);
      if y == last.failed then last.b else y
  }

  lemma FinalStep(splits: seq<SplitEvent>, e: SplitEvent, x: Id)
    ensures Final(splits + [e], x) == if Final(splits, x) == e.failed then e.b else Final(splits, x)
  {
    assert (splits + [e])[..|splits|] == splits;
  }

  lemma {:induction false} FinalOfUntouched(splits: seq<SplitEvent>, x: Id)
    requires forall k :: 0 <= k < |splits| ==> splits[k].failed != x
    ensures Final(splits, x) == x
  {
    if splits != [] {
      FinalOfUntouched(splits[..|splits| - 1], x);
    }
  }

  /** Dependency `e` of `x` stands for one it was created with. */
  ghost predicate StandsFor(born: seq<Id>, splits: seq<SplitEvent>, e: Id) {
    exists d :: d in born && Final(splits, d) == e
  }

  /** Each node waits for exactly the final replacements of what it was created to wait for. */
  ghost predicate Owed(w: World, x: Id)
    requires x in w.g.nodes && x in w.born
  {
    && (forall d :: d in w.born[x] ==> d in w.g.nodes && Final(w.splits, d) in w.g.nodes[x].deps)
    && (forall e {:trigger StandsFor(w.born[x], w.splits, e)} ::
          e in w.g.nodes[x].deps ==> StandsFor(w.born[x], w.splits, e))
  }

  /** Every chain ends in a node that was not cancelled. */
  ghost predicate ChainsEnd(w: World) {
    && w.born.Keys == w.g.nodes.Keys
    && (forall k :: 0 <= k < |w.splits| ==>
          w.splits[k].failed in w.g.nodes && w.g.nodes[w.splits[k].failed].status == Cancelled)
    && (forall x {:trigger Final(w.splits, x)} :: x in w.g.nodes ==>
          Final(w.splits, x) in w.g.nodes && w.g.nodes[Final(w.splits, x)].status != Cancelled)
  }

  ghost predicate Chained(w: World) {
    ChainsEnd(w) && forall x {:trigger Owed(w, x)} :: x in w.g.nodes ==> Owed(w, x)
  }

  lemma LiveIsFinal(w: World, x: Id)
    requires ChainsEnd(w) && x in w.g.nodes && w.g.nodes[x].status != Cancelled
    ensures Final(w.splits, x) == x
  {
    FinalOfUntouched(w.splits, x);
  }

  lemma ChangeKeepsChained(w: World, w': World, id: Id, n: Node)
    requires Chained(w) && id in w.g.nodes
    requires w'.g == SetNode(w.g, id, n) && n.deps == w.g.nodes[id].deps
    requires n.status != Cancelled && w.g.nodes[id].status != Cancelled
    requires w'.splits == w.splits && w'.born == w.born
    ensures Chained(w')
  {
    hide Final;
    forall x | x in w'.g.nodes ensures Owed(w', x) {
      assert Owed(w, x);
      forall e | e in w'.g.nodes[x].deps ensures StandsFor(w'.born[x], w'.splits, e) {
        assert StandsFor(w.born[x], w.splits, e);
      }
    }
  }

  lemma SplitKeepsChained(w: World, w': World, id: Id, n: Node, a: Id, b: Id)
    requires Sound(w.g) && Healthy(w.g) && Chained(w) && IsReady(w.g, id)
    requires IsSplit(w.g, w'.g, id, n, a, b) && SameTask(w.g.nodes[id], n)
    requires w'.splits == w.splits + [SplitEvent(id, a, b)] && w'.born == w.born[a := n.deps][b := [a]]
    ensures Chained(w')
  {
    hide Final, StandsFor, IsSplit, ChainsEnd;
    SplitKeepsChainsEnd(w, w', id, n, a, b);
    SplitCounters(w.g, w'.g, id, n, a, b);
    FinalAfterSplit(w, w', id, a, b);
    ChainKeys(w);
    assert DepsMet(w.g, id);
    assert w'.g.nodes[a].deps == n.deps && w'.g.nodes[b].deps == [a] by { NewDeps(w.g, w'.g, id, n, a, b); }
    forall x | x in w'.g.nodes ensures Owed(w', x) {
      if x in w.g.nodes {
        assert Owed(w, x);
        SplitDeps(w.g, w'.g, id, n, a, b, x);
        SplitKeepsOwed(w, w', id, a, b, x);
      } else if x == a {
        FirstHalfOwed(w, w', id, n, a, b);
      } else {
        SecondHalfOwed(w', n, a, b);
      }
    }
  }

  lemma ChainKeys(w: World)
    requires ChainsEnd(w)
    ensures w.born.Keys == w.g.nodes.Keys
  {
  }

  lemma SplitKeepsChainsEnd(w: World, w': World, id: Id, n: Node, a: Id, b: Id)
    requires ChainsEnd(w) && IsReady(w.g, id) && IsSplit(w.g, w'.g, id, n, a, b)
    requires w'.splits == w.splits + [SplitEvent(id, a, b)] && w'.born == w.born[a := n.deps][b := [a]]
    ensures ChainsEnd(w')
  {
    hide Final, IsSplit;
    SplitCounters(w.g, w'.g, id, n, a, b);
    FinalAfterSplit(w, w', id, a, b);
  }

  lemma NewDeps(g: Graph, g': Graph, id: Id, n: Node, a: Id, b: Id)
    requires IsSplit(g, g', id, n, a, b)
    ensures g'.nodes[a].deps == n.deps && g'.nodes[b].deps == [a]
  {
  }

  /** The first new node takes over the dependencies of the failed one, all of them completed. */
  lemma FirstHalfOwed(w: World, w': World, id: Id, n: Node, a: Id, b: Id)
    requires Chained(w) && PresentDeps(w.g) && IsReady(w.g, id) && SameTask(w.g.nodes[id], n)
    requires a in w'.g.nodes && w'.g.nodes[a].deps == n.deps && w.g.nodes.Keys <= w'.g.nodes.Keys
    requires a in w'.born && w'.born[a] == n.deps
    requires forall y :: Final(w'.splits, y) == if Final(w.splits, y) == id then b else Final(w.splits, y)
    ensures Owed(w', a)
  {
    hide Final;
    assert DepsMet(w.g, id);
    forall d | d in n.deps ensures Final(w'.splits, d) == d && d in w.g.nodes {
      LiveIsFinal(w, d);
    }
    forall e | e in n.deps ensures StandsFor(n.deps, w'.splits, e) {
      assert Final(w'.splits, e) == e;
    }
  }

  lemma SecondHalfOwed(w': World, n: Node, a: Id, b: Id)
    requires a in w'.g.nodes && b in w'.g.nodes && w'.g.nodes[b].deps == [a]
    requires b in w'.born && w'.born[b] == [a] && Final(w'.splits, a) == a
    ensures Owed(w', b)
  {
    assert StandsFor([a], w'.splits, a);
  }

  lemma FinalAfterSplit(w: World, w': World, id: Id, a: Id, b: Id)
    requires ChainsEnd(w) && a !in w.g.nodes && b !in w.g.nodes && id in w.g.nodes
    requires w'.splits == w.splits + [SplitEvent(id, a, b)]
    ensures forall x :: Final(w'.splits, x) == if Final(w.splits, x) == id then b else Final(w.splits, x)
    ensures Final(w'.splits, a) == a && Final(w'.splits, b) == b
  {
    forall x ensures Final(w'.splits, x) == if Final(w.splits, x) == id then b else Final(w.splits, x) {
      FinalStep(w.splits, SplitEvent(id, a, b), x);
    }
    FinalOfUntouched(w.splits, a);
    FinalOfUntouched(w.splits, b);
  }

  lemma SplitKeepsOwed(w: World, w': World, id: Id, a: Id, b: Id, x: Id)
    requires x in w.g.nodes && x in w.born && Owed(w, x) && x != a && x != b
    requires x in w'.g.nodes && w.g.nodes.Keys <= w'.g.nodes.Keys
    requires x in w'.born && w'.born[x] == w.born[x]
    requires forall y :: Final(w'.splits, y) == if Final(w.splits, y) == id then b else Final(w.splits, y)
    requires forall d :: d in w'.g.nodes[x].deps <==>
      (d in w.g.nodes[x].deps && d != id) || (id in w.g.nodes[x].deps && d == b)
    ensures Owed(w', x)
  {
    forall e | e in w'.g.nodes[x].deps ensures StandsFor(w'.born[x], w'.splits, e) {
      var e0 := if e in w.g.nodes[x].deps && e != id then e else id;
      assert StandsFor(w.born[x], w.splits, e0);
      var d :| d in w.born[x] && Final(w.splits, d) == e0;
    }
  }

  // ----- Counting -----

  ghost function Live(g: Graph): set<Id> {
    set x | x in g.nodes && !Concluded(g.nodes[x].status)
  }

  ghost function CancelledIn(g: Graph): set<Id> {
    set x | x in g.nodes && g.nodes[x].status == Cancelled
  }

  /** Nodes made by a split that have already used their one retry and are not split themselves. */
  ghost function Tried(g: Graph, base: set<Id>): set<Id> {
    set x | x in g.nodes && x !in base && g.nodes[x].status != Cancelled && g.nodes[x].retryCount >= 1
  }

  /** Every split cancels one node and adds two, and a node made by a split fails twice before it is split. */
  ghost predicate Tallied(w: World, base: set<Id>) {
    && base <= w.g.nodes.Keys
    && |w.g.nodes| == |base| + 2 * |w.splits|
    && |CancelledIn(w.g)| == |w.splits|
    && (forall x :: x in w.g.nodes && x !in base ==> w.g.nodes[x].maxRetries == 1)
    && 2 * |w.splits| + |Tried(w.g, base)| <= w.failures + |CancelledIn(w.g) * base|
  }

  lemma ChangeLive(g: Graph, id: Id, n: Node)
    requires IsReady(g, id) && n.status != Cancelled
    ensures |Live(SetNode(g, id, n))| == |Live(g)| - if n.status == Completed then 1 else 0
  {
    var g' := SetNode(g, id, n);
    if n.status == Completed {
      assert Live(g') == Live(g) - {id};
    } else {
      assert Live(g') == Live(g);
    }
  }

  lemma SplitLiveSet(g: Graph, g': Graph, id: Id, n: Node, a: Id, b: Id)
    requires IsReady(g, id) && IsSplit(g, g', id, n, a, b)
    ensures Live(g') == Live(g) - {id} + {a, b}
    ensures id in Live(g) && a !in Live(g) && b !in Live(g) && a != b
  {
    hide IsSplit;
    SplitCounters(g, g', id, n, a, b);
  }

  lemma OneForTwo<T>(s: set<T>, x: T, a: T, b: T)
    requires x in s && a !in s && b !in s && a != b
    ensures |s - {x} + {a, b}| == |s| + 1
  {
    assert s - {x} + {a, b} == s - {x} + {a} + {b};
  }

  lemma SplitLive(g: Graph, g': Graph, id: Id, n: Node, a: Id, b: Id)
    requires IsReady(g, id) && IsSplit(g, g', id, n, a, b)
    ensures |Live(g')| == |Live(g)| + 1
  {
    hide *;
    SplitLiveSet(g, g', id, n, a, b);
    OneForTwo(Live(g), id, a, b);
  }

  lemma ChangeKeepsTallied(w: World, w': World, base: set<Id>, id: Id, n: Node)
    requires Tallied(w, base) && IsReady(w.g, id)
    requires w'.g == SetNode(w.g, id, n) && w'.splits == w.splits && SameTask(w.g.nodes[id], n)
    requires n.status != Cancelled && w.failures <= w'.failures
    requires n.retryCount == w.g.nodes[id].retryCount || w'.failures == w.failures + 1
    ensures Tallied(w', base)
  {
    hide Tried;
    assert w'.g.nodes.Keys == w.g.nodes.Keys;
    assert CancelledIn(w'.g) == CancelledIn(w.g);
    ChangeTried(w.g, base, id, n);
  }

  lemma ChangeTried(g: Graph, base: set<Id>, id: Id, n: Node)
    requires IsReady(g, id) && n.status != Cancelled
    ensures |Tried(SetNode(g, id, n), base)| <=
      |Tried(g, base)| + if n.retryCount == g.nodes[id].retryCount then 0 else 1
  {
    var g' := SetNode(g, id, n);
    if n.retryCount == g.nodes[id].retryCount {
      assert Tried(g', base) == Tried(g, base);
    } else {
      SubsetSize(Tried(g', base), Tried(g, base) + {id});
    }
  }

  lemma SplitKeepsTallied(w: World, w': World, base: set<Id>, id: Id, n: Node, a: Id, b: Id)
    requires Tallied(w, base) && IsReady(w.g, id)
    requires IsSplit(w.g, w'.g, id, n, a, b) && SameTask(w.g.nodes[id], n)
    requires w'.splits == w.splits + [SplitEvent(id, a, b)] && w'.failures == w.failures + 1
    requires n.retryCount == w.g.nodes[id].retryCount && n.retryCount >= n.maxRetries
    ensures Tallied(w', base)
  {
    hide IsSplit, Tried, CancelledIn;
    SplitCounters(w.g, w'.g, id, n, a, b);
    assert |w'.g.nodes.Keys| == |w.g.nodes.Keys| + 2;
    SplitCancelled(w.g, w'.g, base, id, n, a, b);
    SplitTried(w.g, w'.g, base, id, n, a, b);
  }

  lemma SplitCancelledSet(g: Graph, g': Graph, id: Id, n: Node, a: Id, b: Id)
    requires IsReady(g, id) && IsSplit(g, g', id, n, a, b)
    ensures CancelledIn(g') == CancelledIn(g) + {id} && id !in CancelledIn(g)
  {
    hide IsSplit;
    SplitCounters(g, g', id, n, a, b);
  }

  lemma OneMore<T>(s: set<T>, x: T, base: set<T>)
    requires x !in s
    ensures |s + {x}| == |s| + 1
    ensures |(s + {x}) * base| == |s * base| + if x in base then 1 else 0
  {
    if x in base {
      assert (s + {x}) * base == s * base + {x};
    } else {
      assert (s + {x}) * base == s * base;
    }
  }

  lemma SplitCancelled(g: Graph, g': Graph, base: set<Id>, id: Id, n: Node, a: Id, b: Id)
    requires IsReady(g, id) && IsSplit(g, g', id, n, a, b)
    ensures |CancelledIn(g')| == |CancelledIn(g)| + 1
    ensures |CancelledIn(g') * base| == |CancelledIn(g) * base| + if id in base then 1 else 0
  {
    hide *;
    SplitCancelledSet(g, g', id, n, a, b);
    OneMore(CancelledIn(g), id, base);
  }

  lemma SplitTried(g: Graph, g': Graph, base: set<Id>, id: Id, n: Node, a: Id, b: Id)
    requires IsReady(g, id) && IsSplit(g, g', id, n, a, b)
    ensures |Tried(g', base)| == |Tried(g, base)| - if id !in base && g.nodes[id].retryCount >= 1 then 1 else 0
  {
    hide IsSplit;
    SplitCounters(g, g', id, n, a, b);
    assert Tried(g', base) == Tried(g, base) - {id};
  }

  // ----- Patience: how often one node may fail -----

  /** A node fails at most maxRetries + 1 times before the failure that splits it. */
  ghost predicate Patient(w: World) {
    forall x :: x in w.g.nodes ==>
      var n, k := w.g.nodes[x], CountOf(w.attempts, x);
      if n.status == Cancelled then k <= n.maxRetries + 2
      else k <= n.maxRetries + 1 && (n.retryCount < n.maxRetries ==> k <= n.retryCount)
  }

  /** The ids still to come are unknown to the graph and to the engine. */
  ghost predicate Unused(w: World, env: Env) {
    && (forall i :: i >= w.calls ==> env.fallbackA(i) !in w.g.nodes && env.fallbackA(i) !in w.attempts)
    && (forall i :: i >= w.calls ==> env.fallbackB(i) !in w.g.nodes && env.fallbackB(i) !in w.attempts)
  }

  ghost predicate DistinctIds(env: Env) {
    && (forall i: nat, j: nat :: env.fallbackA(i) != env.fallbackB(j))
    && (forall i: nat, j: nat :: i != j ==> env.fallbackA(i) != env.fallbackA(j))
    && (forall i: nat, j: nat :: i != j ==> env.fallbackB(i) != env.fallbackB(j))
  }

  // ----- The invariant of the loop -----

  /** The original tasks keep the dependencies they were given. */
  ghost predicate Remembers(w: World, g0: Graph) {
    forall x :: x in g0.nodes ==> x in w.born && w.born[x] == g0.nodes[x].deps
  }

  /** `g0` is the graph the run started from. */
  ghost predicate Inv(w: World, g0: Graph, env: Env) {
    && Sound(w.g)
    && Healthy(w.g)
    && Chained(w)
    && Tallied(w, g0.nodes.Keys)
    && Remembers(w, g0)
    && Patient(w)
    && Unused(w, env)
    && DistinctIds(env)
    && (env.healer ==> !AnyFailed(w.g))
    && (!env.healer ==> (AnyFailed(w.g) <==> w.failures > 0))
  }

  lemma ChangeKeepsPatient(w: World, w': World, id: Id, n: Node)
    requires Patient(w) && IsReady(w.g, id) && SameTask(w.g.nodes[id], n) && n.status != Cancelled
    requires w'.g == SetNode(w.g, id, n)
    requires
      || (w'.attempts == w.attempts && n.retryCount == w.g.nodes[id].retryCount)
      || (w'.attempts == w.attempts[id := CountOf(w.attempts, id) + 1]
          && (n.retryCount == w.g.nodes[id].retryCount + 1 <= n.maxRetries
              || (n.retryCount == w.g.nodes[id].retryCount >= n.maxRetries && w'.attempts[id] <= n.maxRetries + 1)))
    ensures Patient(w')
  {
  }

  lemma SplitKeepsPatient(w: World, w': World, id: Id, n: Node, a: Id, b: Id)
    requires Patient(w) && IsReady(w.g, id) && IsSplit(w.g, w'.g, id, n, a, b) && SameTask(w.g.nodes[id], n)
    requires a !in w.attempts && b !in w.attempts
    requires w'.attempts == w.attempts[id := CountOf(w.attempts, id) + 1]
    ensures Patient(w')
  {
    hide IsSplit;
    SplitCounters(w.g, w'.g, id, n, a, b);
  }

  /** A ready task stays ready while the other ready tasks run. */
  lemma ChangeKeepsReady(g: Graph, id: Id, n: Node, u: Id)
    requires IsReady(g, id) && IsReady(g, u) && u != id
    ensures IsReady(SetNode(g, id, n), u)
  {
    assert DepsMet(g, u);
  }

  lemma SplitKeepsReady(g: Graph, g': Graph, id: Id, n: Node, a: Id, b: Id, u: Id)
    requires Sound(g) && IsReady(g, id) && IsReady(g, u) && u != id
    requires IsSplit(g, g', id, n, a, b) && SameTask(g.nodes[id], n)
    ensures IsReady(g', u)
  {
    assert DepsMet(g, u);
    SplitDeps(g, g', id, n, a, b, u);
    SplitCounters(g, g', id, n, a, b);
  }

  /** The main step: the invariant, what it costs, and what it leaves to the others. */
  lemma AttemptKeeps(w: World, g0: Graph, id: Id, env: Env)
    requires Inv(w, g0, env) && IsReady(w.g, id)
    ensures var w' := Attempt(w, id, env);
      && Inv(w', g0, env)
      && (forall u :: u != id && IsReady(w.g, u) ==> IsReady(w'.g, u))
      && |Live(w'.g)| == |Live(w.g)| - (if env.succeeds(w.calls) then 1 else 0) + |w'.splits| - |w.splits|
      && |w.splits| <= |w'.splits| <= |w.splits| + w'.failures - w.failures
      && w'.failures == w.failures + (if env.succeeds(w.calls) then 0 else 1)
  {
    hide *;
    InvGives(w, g0, id, env);
    var w' := Attempt(w, id, env);
    var n, split := AttemptCases(w, id, env);
    if split {
      AttemptSplit(w, w', g0, id, n, env);
    } else {
      AttemptChange(w, w', g0, id, n, env);
    }
  }

  lemma InvGives(w: World, g0: Graph, id: Id, env: Env)
    requires Inv(w, g0, env) && IsReady(w.g, id)
    ensures id in w.g.nodes && FreshPair(w.g, env.fallbackA(w.calls), env.fallbackB(w.calls))
  {
  }

  lemma AttemptChange(w: World, w': World, g0: Graph, id: Id, n: Node, env: Env)
    requires Inv(w, g0, env) && IsReady(w.g, id) && SameTask(w.g.nodes[id], n)
    requires w'.g == SetNode(w.g, id, n) && w'.splits == w.splits && w'.born == w.born
    requires w'.calls == w.calls + 1
    requires var ok, old_ := env.succeeds(w.calls), w.g.nodes[id];
      && w'.failures == w.failures + (if ok then 0 else 1)
      && w'.attempts == (if ok || !env.healer then w.attempts else w.attempts[id := CountOf(w.attempts, id) + 1])
      && n.status == (if ok then Completed else if env.healer then Pending else Failed)
      && (n.retryCount == old_.retryCount || (n.retryCount == old_.retryCount + 1 <= n.maxRetries && !ok && env.healer))
      && (!ok && env.healer && n.retryCount == old_.retryCount ==>
        CountOf(w'.attempts, id) <= n.maxRetries + 1 <= n.retryCount + 1)
    ensures Inv(w', g0, env)
    ensures forall u :: u != id && IsReady(w.g, u) ==> IsReady(w'.g, u)
    ensures |Live(w'.g)| == |Live(w.g)| - if env.succeeds(w.calls) then 1 else 0
  {
    hide Sound, Healthy, Chained, Tallied, Patient, Live, AnyFailed;
    ChangeKeepsSound(w.g, id, n);
    assert PresentDeps(w.g) by { SoundGives(w.g); }
    ChangeKeepsHealthy(w.g, id, n);
    ChangeKeepsChained(w, w', id, n);
    ChangeKeepsTallied(w, w', g0.nodes.Keys, id, n);
    ChangeKeepsPatient(w, w', id, n);
    ChangeLive(w.g, id, n);
    forall u | u != id && IsReady(w.g, u) ensures IsReady(w'.g, u) {
      ChangeKeepsReady(w.g, id, n, u);
    }
    ChangeFailed(w.g, id, n);
  }

  lemma TalliedBase(w: World, g0: Graph)
    requires Tallied(w, g0.nodes.Keys)
    ensures g0.nodes.Keys <= w.g.nodes.Keys
  {
  }

  lemma SoundGives(g: Graph)
    requires Sound(g)
    ensures PresentDeps(g)
  {
  }

  lemma ChangeFailed(g: Graph, id: Id, n: Node)
    requires IsReady(g, id)
    ensures AnyFailed(SetNode(g, id, n)) <==> AnyFailed(g) || n.status == Failed
  {
    assert SetNode(g, id, n).nodes[id] == n;
    if x :| x in g.nodes && g.nodes[x].status == Failed {
      assert SetNode(g, id, n).nodes[x].status == Failed;
    }
  }

  lemma AttemptSplit(w: World, w': World, g0: Graph, id: Id, n: Node, env: Env)
    requires Inv(w, g0, env) && IsReady(w.g, id) && SameTask(w.g.nodes[id], n) && env.healer
    requires var a, b := env.fallbackA(w.calls), env.fallbackB(w.calls);
      && IsSplit(w.g, w'.g, id, n, a, b)
      && w'.splits == w.splits + [SplitEvent(id, a, b)] && w'.born == w.born[a := n.deps][b := [a]]
    requires w'.calls == w.calls + 1 && w'.failures == w.failures + 1
    requires w'.attempts == w.attempts[id := CountOf(w.attempts, id) + 1]
    requires n.retryCount == w.g.nodes[id].retryCount && n.retryCount >= n.maxRetries
    ensures Inv(w', g0, env)
    ensures forall u :: u != id && IsReady(w.g, u) ==> IsReady(w'.g, u)
    ensures |Live(w'.g)| == |Live(w.g)| + 1
  {
    hide Sound, Healthy, Chained, Tallied, Patient, Live, IsSplit;
    var a, b := env.fallbackA(w.calls), env.fallbackB(w.calls);
    SplitCounters(w.g, w'.g, id, n, a, b);
    SplitKeepsSound(w.g, w'.g, id, n, a, b);
    SplitKeepsHealthy(w.g, w'.g, id, n, a, b);
    SplitKeepsChained(w, w', id, n, a, b);
    SplitKeepsTallied(w, w', g0.nodes.Keys, id, n, a, b);
    SplitKeepsPatient(w, w', id, n, a, b);
    assert g0.nodes.Keys <= w.g.nodes.Keys by { TalliedBase(w, g0); }
    SplitLive(w.g, w'.g, id, n, a, b);
    forall u | u != id && IsReady(w.g, u) ensures IsReady(w'.g, u) {
      SplitKeepsReady(w.g, w'.g, id, n, a, b, u);
    }
  }
}
