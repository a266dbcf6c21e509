/** Runs with several ready tasks in a round: they can have up to n failures per round. */
module WideRuns {
  import opened Collections
  import opened TaskGraphs
  import opened Replanning
  import opened Execution
  import opened ReplanInvariants
  import opened Liveness

  // ----- The plan: task k fails wants(k) times and then succeeds -----

  /** The failures dealt out to the tasks, at most `cap` to each, the first tasks first. */
  function Share(failures: nat, cap: nat): nat -> nat {
    k => if failures >= (k + 1) * cap then cap else if failures >= k * cap then failures - k * cap else 0
  }

  /** From task i of round r on: one outcome for each task that is still ready in its round. */
  function Plan(wants: nat -> nat, n: nat, cap: nat, r: nat, i: nat): seq<bool>
    requires i <= n
    decreases cap - r, n - i
  {
    if r >= cap then []
    else if i == n then Plan(wants, n, cap, r + 1, 0)
    else (if wants(i) >= r then [wants(i) == r] else []) + Plan(wants, n, cap, r, i + 1)
  }

  function Minus(x: nat, y: nat): nat {
    if x >= y then x - y else 0
  }

  /** The failures still to come of the first m tasks, when the first i of them have had their turn in round r. */
  function Left(wants: nat -> nat, r: nat, i: nat, m: nat): nat {
    if m == 0 then 0
    else Left(wants, r, i, m - 1) + Minus(wants(m - 1), if m - 1 < i then r + 1 else r)
  }

  lemma {:induction false} LeftStep(wants: nat -> nat, r: nat, i: nat, m: nat)
    ensures Left(wants, r, i, m) == Left(wants, r, i + 1, m) + if i < m && wants(i) > r then 1 else 0
  {
    if m > 0 {
      LeftStep(wants, r, i, m - 1);
    }
  }

  lemma {:induction false} LeftNextRound(wants: nat -> nat, r: nat, n: nat, m: nat)
    requires m <= n
    ensures Left(wants, r, n, m) == Left(wants, r + 1, 0, m)
  {
    if m > 0 {
      LeftNextRound(wants, r, n, m - 1);
    }
  }

  lemma {:induction false} LeftNothing(wants: nat -> nat, cap: nat, m: nat)
    requires forall k :: wants(k) <= cap
    ensures Left(wants, cap, 0, m) == 0
  {
    if m > 0 {
      LeftNothing(wants, cap, m - 1);
    }
  }

  lemma ShareAtMost(failures: nat, cap: nat)
    ensures forall k :: Share(failures, cap)(k) <= cap
  {
    forall k: nat ensures Share(failures, cap)(k) <= cap {
      assert (k + 1) * cap == k * cap + cap;
    }
  }

  /** All failures are dealt out if there are at most `cap` for each task. */
  lemma {:induction false} SharesAddUp(failures: nat, cap: nat, m: nat)
    ensures Left(Share(failures, cap), 0, 0, m) == if failures <= m * cap then failures else m * cap
  {
    if m > 0 {
      SharesAddUp(failures, cap, m - 1);
      assert m * cap == (m - 1) * cap + cap;
    }
  }

  // ----- The tasks: nothing to wait for, and retries enough -----

  function Name(tag: char, i: nat): (name: Id)
    ensures |name| == i + 1 && name[0] == tag
  {
    [tag] + seq(i, _ => '.')
  }

  /** The names of tasks i to n. */
  function Names(i: nat, n: nat): (names: seq<Id>)
    requires i <= n
    ensures |names| == n - i && forall k :: 0 <= k < n - i ==> names[k] == Name('t', i + k)
  {
    seq(n - i, k requires 0 <= k < n - i => Name('t', i + k))
  }

  /** The tasks from i on that are ready in round r. */
  function Turns(wants: nat -> nat, r: nat, i: nat, n: nat): seq<Id>
    requires i <= n
    decreases n - i
  {
    if i == n then []
    else (if wants(i) >= r then [Name('t', i)] else []) + Turns(wants, r, i + 1, n)
  }

  /** Task k when it has had its turn in all rounds before r: done, or retried in each of them. */
  ghost predicate Standing(node: Node, wants: nat, r: nat, cap: nat) {
    && node.deps == [] && node.maxRetries == cap
    && (if wants < r then node.status == Completed else node.status == Pending && node.retryCount == r)
  }

  ghost predicate NodesStand(g: Graph, wants: nat -> nat, n: nat, cap: nat, r: nat, i: nat) {
    forall k :: 0 <= k < n ==>
      Name('t', k) in g.nodes && Standing(g.nodes[Name('t', k)], wants(k), if k < i then r + 1 else r, cap)
  }

  /** In round r, when the first i tasks have had their turn. */
  ghost predicate At(w: World, wants: nat -> nat, n: nat, cap: nat, r: nat, i: nat, env: Env, total: nat)
    requires i <= n
  {
    && w.g.order == Names(0, n)
    && (forall x :: x in w.g.nodes <==> x in w.g.order)
    && NodesStand(w.g, wants, n, cap, r, i)
    && Follows(env, w.calls, Plan(wants, n, cap, r, i))
    && w.failures + Left(wants, r, i, n) == total
  }

  /** The next outcomes are these. */
  ghost predicate Follows(env: Env, calls: nat, plan: seq<bool>) {
    forall j :: 0 <= j < |plan| ==> env.succeeds(calls + j) == plan[j]
  }

  // ----- One turn, one round -----

  lemma NamesDiffer(i: nat, k: nat)
    ensures i != k ==> Name('t', i) != Name('t', k)
  {
    assert |Name('t', i)| == i + 1 && |Name('t', k)| == k + 1;
  }

  lemma TurnStands(
      g: Graph, node: Node, wants: nat -> nat, n: nat, cap: nat, r: nat, i: nat)
    requires i < n && NodesStand(g, wants, n, cap, r, i)
    requires Standing(node, wants(i), r + 1, cap)
    ensures NodesStand(SetNode(g, Name('t', i), node), wants, n, cap, r, i + 1)
  {
    hide Standing, Name;
    forall k | 0 <= k < n
      ensures var g' := SetNode(g, Name('t', i), node);
        && Name('t', k) in g'.nodes
        && Standing(g'.nodes[Name('t', k)], wants(k), if k < i + 1 then r + 1 else r, cap)
    {
      NamesDiffer(i, k);
    }
  }

  lemma FollowsTail(env: Env, calls: nat, plan: seq<bool>)
    requires plan != [] && Follows(env, calls, plan)
    ensures env.succeeds(calls) == plan[0] && Follows(env, calls + 1, plan[1..])
  {
    assert env.succeeds(calls + 0) == plan[0];
    forall j | 0 <= j < |plan[1..]| ensures env.succeeds(calls + 1 + j) == plan[1..][j] {
      assert env.succeeds(calls + (j + 1)) == plan[j + 1];
    }
  }

  lemma PlanOfTurn(wants: nat -> nat, n: nat, cap: nat, r: nat, i: nat)
    requires i < n && r < cap
    ensures Plan(wants, n, cap, r, i) == (if wants(i) >= r then [wants(i) == r] else []) + Plan(wants, n, cap, r, i + 1)
  {
  }

  lemma NoTurnStands(g: Graph, wants: nat -> nat, n: nat, cap: nat, r: nat, i: nat)
    requires i < n && wants(i) < r && NodesStand(g, wants, n, cap, r, i)
    ensures NodesStand(g, wants, n, cap, r, i + 1)
  {
    hide Name;
  }

  /** A task that is done already has no turn. */
  lemma NoTurn(w: World, wants: nat -> nat, n: nat, cap: nat, r: nat, i: nat, env: Env, total: nat)
    requires i < n && r < cap && wants(i) < r && At(w, wants, n, cap, r, i, env, total)
    ensures At(w, wants, n, cap, r, i + 1, env, total)
  {
    hide Name, Names, Follows, Plan, Left, NodesStand;
    LeftStep(wants, r, i, n);
    PlanOfTurn(wants, n, cap, r, i);
    assert [] + Plan(wants, n, cap, r, i + 1) == Plan(wants, n, cap, r, i + 1);
    NoTurnStands(w.g, wants, n, cap, r, i);
  }

  lemma StandingAt(g: Graph, wants: nat -> nat, n: nat, cap: nat, r: nat, i: nat)
    requires i < n && NodesStand(g, wants, n, cap, r, i)
    ensures Name('t', i) in g.nodes && Standing(g.nodes[Name('t', i)], wants(i), r, cap)
  {
    hide Name, Standing;
  }

  lemma Turn(w: World, wants: nat -> nat, n: nat, cap: nat, r: nat, i: nat, env: Env, total: nat)
    requires i < n && r < cap && wants(i) >= r && wants(i) <= cap && env.healer &&
      At(w, wants, n, cap, r, i, env, total)
    ensures Name('t', i) in w.g.nodes
    ensures At(Attempt(w, Name('t', i), env), wants, n, cap, r, i + 1, env, total)
  {
    hide Plan, Left, Name, Names, Follows, Attempt, NodesStand;
    var id, plan, rest := Name('t', i), Plan(wants, n, cap, r, i), Plan(wants, n, cap, r, i + 1);
    PlanOfTurn(wants, n, cap, r, i);
    assert plan[0] == (wants(i) == r) && plan[1..] == rest;
    FollowsTail(env, w.calls, plan);
    LeftStep(wants, r, i, n);
    StandingAt(w.g, wants, n, cap, r, i);
    var node;
    if wants(i) == r {
      node := SuccessInPlaceAt(w, id, env);
    } else {
      node := RetryInPlaceAt(w, id, env);
    }
    TurnStands(w.g, node, wants, n, cap, r, i);
  }

  lemma TurnNames(w: World, wants: nat -> nat, n: nat, cap: nat, r: nat, i: nat, env: Env, total: nat)
    requires i <= n && At(w, wants, n, cap, r, i, env, total)
    ensures forall id :: id in Turns(wants, r, i, n) ==> id in w.g.nodes
    decreases n - i
  {
    TurnsAreNames(wants, r, i, n);
    hide Turns, Name;
  }

  lemma {:induction false} TurnsAreNames(wants: nat -> nat, r: nat, i: nat, n: nat)
    requires i <= n
    ensures forall id :: id in Turns(wants, r, i, n) ==> exists k :: i <= k < n && id == Name('t', k)
    decreases n - i
  {
    hide Name;
    if i < n {
      TurnsAreNames(wants, r, i + 1, n);
    }
  }

  lemma {:induction false} RoundOfTurns(
      w: World, wants: nat -> nat, n: nat, cap: nat, r: nat, i: nat, env: Env, total: nat)
    requires i <= n && r < cap && env.healer && At(w, wants, n, cap, r, i, env, total)
    requires forall k :: wants(k) <= cap
    ensures forall id :: id in Turns(wants, r, i, n) ==> id in w.g.nodes
    ensures At(Round(w, Turns(wants, r, i, n), env), wants, n, cap, r, n, env, total)
    decreases n - i
  {
    hide At, Name, Attempt;
    TurnNames(w, wants, n, cap, r, i, env, total);
    if i < n {
      if wants(i) < r {
        NoTurn(w, wants, n, cap, r, i, env, total);
        RoundOfTurns(w, wants, n, cap, r, i + 1, env, total);
        assert Turns(wants, r, i, n) == Turns(wants, r, i + 1, n);
      } else {
        Turn(w, wants, n, cap, r, i, env, total);
        var w' := Attempt(w, Name('t', i), env);
        RoundOfTurns(w', wants, n, cap, r, i + 1, env, total);
        var turns := Turns(wants, r, i, n);
        assert turns[0] == Name('t', i) && turns[1..] == Turns(wants, r, i + 1, n);
      }
    }
  }

  lemma NextRound(w: World, wants: nat -> nat, n: nat, cap: nat, r: nat, env: Env, total: nat)
    requires r < cap && At(w, wants, n, cap, r, n, env, total)
    ensures At(w, wants, n, cap, r + 1, 0, env, total)
  {
    LeftNextRound(wants, r, n, n);
    assert Plan(wants, n, cap, r, n) == Plan(wants, n, cap, r + 1, 0);
    hide Plan, Left, Name, Names, Follows, Standing;
    assert NodesStand(w.g, wants, n, cap, r + 1, 0);
  }

  // ----- The ready set -----

  lemma {:induction false} OneMoreTurn(wants: nat -> nat, r: nat, i: nat, m: nat)
    requires i <= m
    ensures Turns(wants, r, i, m + 1) == Turns(wants, r, i, m) + if wants(m) >= r then [Name('t', m)] else []
    decreases m - i
  {
    hide Name;
    if i < m {
      OneMoreTurn(wants, r, i + 1, m);
    } else {
      assert Turns(wants, r, m + 1, m + 1) == [];
    }
  }

  lemma {:induction false} ReadyAreTurns(g: Graph, wants: nat -> nat, n: nat, cap: nat, r: nat, m: nat)
    requires m <= n && NodesStand(g, wants, n, cap, r, 0)
    ensures ReadyAmong(g, Names(0, m)) == Turns(wants, r, 0, m)
  {
    hide Name;
    if m > 0 {
      ReadyAreTurns(g, wants, n, cap, r, m - 1);
      OneMoreTurn(wants, r, 0, m - 1);
      assert Names(0, m)[..m - 1] == Names(0, m - 1) && Names(0, m)[m - 1] == Name('t', m - 1);
      assert Standing(g.nodes[Name('t', m - 1)], wants(m - 1), r, cap);
      hide Names, NodesStand;
      assert IsReady(g, Name('t', m - 1)) <==> wants(m - 1) >= r;
    }
  }

  lemma OpenAndUnfailed(w: World, wants: nat -> nat, n: nat, cap: nat, r: nat, env: Env, total: nat)
    requires n >= 1 && wants(0) >= r && At(w, wants, n, cap, r, 0, env, total)
    ensures !AllConcluded(w.g) && !AnyFailed(w.g)
  {
    hide Name, Plan, Left, Follows;
    assert Standing(w.g.nodes[Name('t', 0)], wants(0), r, cap);
    forall x | x in w.g.nodes ensures w.g.nodes[x].status != Failed {
      var k :| 0 <= k < n && Names(0, n)[k] == x;
      assert Standing(w.g.nodes[Name('t', k)], wants(k), r, cap);
    }
  }

  lemma {:induction false} WideLoop(w: World, wants: nat -> nat, n: nat, cap: nat, r: nat, env: Env, total: nat)
    requires n >= 1 && r <= cap && wants(0) >= cap && (forall k :: wants(k) <= cap)
    requires env.healer && (forall i :: !env.stopped(i)) && At(w, wants, n, cap, r, 0, env, total)
    ensures var o := Loop(w, r, cap, env);
      !o.aborted && !Succeeded(o) && o.rounds == cap && o.w.failures == total
    decreases cap - r
  {
    hide Plan, Names, Name, Standing, NodesStand, Attempt, Turns, Follows, Round, ReadyAmong;
    OpenAndUnfailed(w, wants, n, cap, r, env, total);
    if r < cap {
      ReadyAreTurns(w.g, wants, n, cap, r, n);
      FirstTurn(wants, r, n);
      RoundOfTurns(w, wants, n, cap, r, 0, env, total);
      var w' := Round(w, Turns(wants, r, 0, n), env);
      NextRound(w', wants, n, cap, r, env, total);
      hide At;
      WideLoop(w', wants, n, cap, r + 1, env, total);
    } else {
      LeftNothing(wants, cap, n);
    }
  }

  lemma FirstTurn(wants: nat -> nat, r: nat, n: nat)
    requires n >= 1 && wants(0) >= r
    ensures Turns(wants, r, 0, n) != []
  {
  }

  // ----- The start of such a run -----

  function WideNode(cap: nat): Node {
    Node([], Pending, "", "", 0.0, 0.0, 0.0, 0, cap)
  }

  function WideGraph(n: nat, cap: nat): Graph {
    Graph(Names(0, n), map x | x in Names(0, n) :: WideNode(cap))
  }

  function Outcomes(plan: seq<bool>): nat -> bool {
    (i: nat) => i < |plan| && plan[i]
  }

  function WideEnv(plan: seq<bool>): Env {
    Env(true, false, Outcomes(plan), _ => "", (c: nat) => Name('a', c), (c: nat) => Name('b', c), _ => false)
  }

  ghost function WideWorld(n: nat, cap: nat): World {
    World(WideGraph(n, cap), map[], 0, 0, [], map x | x in WideGraph(n, cap).nodes :: [])
  }

  lemma WideGraphShape(n: nat, cap: nat)
    ensures var g := WideGraph(n, cap);
      && WellFormed(g) && Sortable(g) && |g.nodes| == n
      && forall x :: x in g.nodes ==> g.nodes[x] == WideNode(cap) && x != "" && x[0] == 't'
  {
    var g := WideGraph(n, cap);
    forall i, j | 0 <= i < j < n ensures g.order[i] != g.order[j] {
      NamesDiffer(i, j);
    }
    ElemsSize(g.order);
    assert g.nodes.Keys == Elems(g.order);
    RankedHasNoCycle(g, map x | x in g.nodes :: 0);
  }

  lemma WideStarts(n: nat, cap: nat, plan: seq<bool>)
    ensures Start(WideWorld(n, cap), WideEnv(plan))
  {
    WideGraphShape(n, cap);
    var g, env := WideGraph(n, cap), WideEnv(plan);
    hide Sortable, WellFormed, WideGraph;
    forall i: nat ensures env.fallbackA(i)[0] == 'a' && env.fallbackB(i)[0] == 'b' {
    }
    forall i: nat, j: nat | i != j
      ensures env.fallbackA(i) != env.fallbackA(j) && env.fallbackB(i) != env.fallbackB(j)
    {
      assert |env.fallbackA(i)| == i + 1 && |env.fallbackB(j)| == j + 1;
      assert |env.fallbackA(j)| == j + 1 && |env.fallbackB(i)| == i + 1;
    }
  }

  lemma WideIsAt(n: nat, cap: nat, wants: nat -> nat)
    ensures var plan := Plan(wants, n, cap, 0, 0);
      At(WideWorld(n, cap), wants, n, cap, 0, 0, WideEnv(plan), Left(wants, 0, 0, n))
  {
    hide Name, Plan, Left;
    var g := WideGraph(n, cap);
    forall k | 0 <= k < n ensures Name('t', k) in g.nodes && Standing(g.nodes[Name('t', k)], wants(k), 0, cap) {
      assert Names(0, n)[k] == Name('t', k);
    }
  }

  /** n tasks can fail any number of times between the cap and n times the cap, and then the run fails at the cap. */
  lemma WideRunFails(n: nat, failures: nat) returns (w: World, env: Env)
    requires n >= 1 && Cap(n) <= failures <= n * Cap(n)
    ensures Start(w, env) && env.healer && |w.g.nodes| == n
    ensures var o := Run(w, env); !o.aborted && !Succeeded(o) && o.rounds == Cap(n) && o.w.failures == failures
  {
    var cap := Cap(n);
    var wants := Share(failures, cap);
    var plan := Plan(wants, n, cap, 0, 0);
    w, env := WideWorld(n, cap), WideEnv(plan);
    ShareAtMost(failures, cap);
    SharesAddUp(failures, cap, n);
    WideStarts(n, cap, plan);
    WideGraphShape(n, cap);
    WideIsAt(n, cap, wants);
    assert wants(0) == cap;
    hide Plan, Left, At, Start, WideGraph, Sortable, Loop, Cap;
    WideLoop(w, wants, n, cap, 0, env, failures);
  }
}
