/** How many failures the cap on rounds leaves room for: the bound of RunSucceeds cannot be improved. */
module CapThreshold {
  import opened Collections
  import opened TaskGraphs
  import opened Replanning
  import opened Execution
  import opened ReplanInvariants
  import opened Liveness
  import opened Width
  import opened WideRuns

  // ----- A line of tasks, one ready at a time -----

  /** The open tasks, each waiting for the one before it, all to be done locally. */
  ghost predicate Line(g: Graph, line: seq<Id>) {
    && NoDup(line)
    && Live(g) == Elems(line)
    && (forall i :: 0 <= i < |line| ==> line[i] in g.nodes && Plain(g.nodes[line[i]]))
    && (line != [] ==> DepsMet(g, line[0]))
    && forall i :: 0 < i < |line| ==> g.nodes[line[i]].deps == [line[i - 1]]
  }

  predicate Plain(n: Node) {
    n.status == Pending && n.agent == "" && n.retryCount <= n.maxRetries
  }

  /** How many more failures a task survives. */
  function FuseOf(n: Node): nat {
    if n.retryCount <= n.maxRetries then n.maxRetries - n.retryCount else 0
  }

  function Fuses(g: Graph, line: seq<Id>): (fuses: seq<nat>)
    requires forall i :: 0 <= i < |line| ==> line[i] in g.nodes
    ensures |fuses| == |line|
    ensures forall i :: 0 <= i < |line| ==> fuses[i] == FuseOf(g.nodes[line[i]])
  {
    seq(|line|, i requires 0 <= i < |line| => FuseOf(g.nodes[line[i]]))
  }

  /** The fuses after the first task was run. */
  function Burn(fuses: seq<nat>, ok: bool): seq<nat>
    requires fuses != []
  {
    if ok then fuses[1..]
    else if fuses[0] > 0 then [fuses[0] - 1] + fuses[1..]
    else [1, 1] + fuses[1..]
  }

  lemma LaterNotReady(g: Graph, line: seq<Id>, i: nat)
    requires Line(g, line) && 0 < i < |line|
    ensures !IsReady(g, line[i])
  {
    assert line[i - 1] in g.nodes[line[i]].deps && line[i - 1] in Live(g);
  }

  lemma OneElement<T>(s: seq<T>, x: T)
    requires NoDup(s) && x in s && forall y :: y in s ==> y == x
    ensures s == [x]
  {
    ElemsSize(s);
    assert Elems(s) == {x};
    assert s[0] in s;
  }

  lemma OnlyFirstReady(g: Graph, line: seq<Id>)
    requires Sound(g) && Line(g, line) && line != []
    ensures IsReady(g, line[0])
    ensures ReadyAmong(g, g.order) == [line[0]]
    ensures !AllConcluded(g)
  {
    var ready := ReadyAmong(g, g.order);
    forall id | id in ready ensures id == line[0] {
      assert id in Live(g) && id in Elems(line);
      var i :| 0 <= i < |line| && line[i] == id;
      if i > 0 {
        LaterNotReady(g, line, i);
      }
    }
    assert line[0] in ready;
    OneElement(ready, line[0]);
  }

  // ----- What happens to the line -----

  lemma SuccessAt(w: World, id: Id, env: Env)
    requires id in w.g.nodes && env.succeeds(w.calls) && env.discovered(w.calls) == ""
    ensures Attempt(w, id, env).g == SetNode(w.g, id, w.g.nodes[id].(status := Completed))
    ensures Attempt(w, id, env).calls == w.calls + 1 && Attempt(w, id, env).failures == w.failures
  {
  }

  lemma RetryAt(w: World, id: Id, env: Env) returns (n: Node)
    requires id in w.g.nodes && !env.succeeds(w.calls) && env.discovered(w.calls) == "" && env.healer
    requires Plain(w.g.nodes[id]) && w.g.nodes[id].retryCount < w.g.nodes[id].maxRetries
    ensures Attempt(w, id, env).g == SetNode(w.g, id, n)
    ensures Plain(n) && SameTask(w.g.nodes[id], n) && n.retryCount == w.g.nodes[id].retryCount + 1
    ensures Attempt(w, id, env).calls == w.calls + 1 && Attempt(w, id, env).failures == w.failures + 1
  {
    hide Round3;
    n := Retried(Dispatched(w.g.nodes[id], w.calls, env));
    assert Attempt(w, id, env).g.nodes == w.g.nodes[id := n];
  }

  lemma SplitAt(w: World, id: Id, env: Env) returns (n: Node)
    requires id in w.g.nodes && !env.succeeds(w.calls) && env.discovered(w.calls) == "" && env.healer
    requires Plain(w.g.nodes[id]) && w.g.nodes[id].retryCount == w.g.nodes[id].maxRetries
    requires FreshPair(w.g, env.fallbackA(w.calls), env.fallbackB(w.calls))
    ensures IsSplit(w.g, Attempt(w, id, env).g, id, n, env.fallbackA(w.calls), env.fallbackB(w.calls))
    ensures SameTask(w.g.nodes[id], n)
    ensures Attempt(w, id, env).calls == w.calls + 1 && Attempt(w, id, env).failures == w.failures + 1
  {
    hide Split, IsSplit, Round3;
    var m := Dispatched(w.g.nodes[id], w.calls, env);
    HandledSplits(w, id, m, env);
    n := m.(status := Replanning);
  }

  lemma LineAfterSuccess(g: Graph, line: seq<Id>, g': Graph)
    requires Line(g, line) && line != [] && g' == SetNode(g, line[0], g.nodes[line[0]].(status := Completed))
    ensures Line(g', line[1..]) && Fuses(g', line[1..]) == Fuses(g, line)[1..]
  {
    var rest := line[1..];
    assert forall i :: 0 <= i < |rest| ==> rest[i] == line[i + 1];
    forall id ensures id in Live(g') <==> id in Elems(rest) {
      assert id in Elems(line) <==> id == line[0] || id in Elems(rest);
    }
    if rest != [] {
      assert g'.nodes[rest[0]].deps == [line[0]];
    }
  }

  lemma LineAfterRetry(g: Graph, line: seq<Id>, g': Graph, n: Node)
    requires Line(g, line) && line != [] && g' == SetNode(g, line[0], n)
    requires Plain(n) && SameTask(g.nodes[line[0]], n) && n.retryCount == g.nodes[line[0]].retryCount + 1
    ensures Line(g', line) && Fuses(g', line) == [Fuses(g, line)[0] - 1] + Fuses(g, line)[1..]
  {
    assert Live(g') == Live(g);
  }

  lemma LineAfterSplit(g: Graph, line: seq<Id>, g': Graph, n: Node, a: Id, b: Id)
    requires Line(g, line) && line != [] && IsSplit(g, g', line[0], n, a, b) && SameTask(g.nodes[line[0]], n)
    ensures Line(g', [a, b] + line[1..]) && Fuses(g', [a, b] + line[1..]) == [1, 1] + Fuses(g, line)[1..]
  {
    hide IsSplit, Live, DepsMet, Plain, FuseOf;
    var rest, line' := line[1..], [a, b] + line[1..];
    assert forall i :: 0 <= i < |rest| ==> rest[i] == line[i + 1];
    assert forall i :: 2 <= i < |line'| ==> line'[i] == rest[i - 2];
    SplitNodes(g, line, g', n, a, b);
    SplitDeps(g, line, g', n, a, b);
    SplitIsLive(g, line, g', n, a, b);
  }

  lemma SplitNodes(g: Graph, line: seq<Id>, g': Graph, n: Node, a: Id, b: Id)
    requires Line(g, line) && line != [] && IsSplit(g, g', line[0], n, a, b)
    ensures a !in g.nodes && b !in g.nodes && a != b && a in g'.nodes && b in g'.nodes
    ensures Plain(g'.nodes[a]) && Plain(g'.nodes[b]) && FuseOf(g'.nodes[a]) == 1 && FuseOf(g'.nodes[b]) == 1
    ensures forall i :: 0 < i < |line| ==>
      line[i] in g'.nodes && Plain(g'.nodes[line[i]]) && FuseOf(g'.nodes[line[i]]) == FuseOf(g.nodes[line[i]])
  {
    hide Round3, Rewired, Live, DepsMet;
  }

  lemma SplitIsLive(g: Graph, line: seq<Id>, g': Graph, n: Node, a: Id, b: Id)
    requires Line(g, line) && line != [] && IsSplit(g, g', line[0], n, a, b)
    ensures Live(g') == Elems([a, b] + line[1..])
  {
    hide Round3, Rewired;
    var id, rest, line' := line[0], line[1..], [a, b] + line[1..];
    forall x ensures x in Live(g') <==> x in Elems(line') {
      assert x in Elems(line) <==> x == id || x in Elems(rest);
      assert x in Elems(line') <==> x == a || x == b || x in Elems(rest);
    }
  }

  lemma SplitDeps(g: Graph, line: seq<Id>, g': Graph, n: Node, a: Id, b: Id)
    requires Line(g, line) && line != [] && IsSplit(g, g', line[0], n, a, b) && SameTask(g.nodes[line[0]], n)
    ensures DepsMet(g', a) && g'.nodes[b].deps == [a]
    ensures |line| > 1 ==> g'.nodes[line[1]].deps == [b]
    ensures forall i :: 1 < i < |line| ==> g'.nodes[line[i]].deps == [line[i - 1]]
  {
    hide Round3;
    assert Without([line[0]], line[0]) == [] by { assert [line[0]][1..] == []; }
  }

  // ----- Whole runs along a line -----

  /** Everything runs locally, a replanning engine is there and nobody stops the run. */
  ghost predicate Local(env: Env) {
    env.healer && forall i :: env.discovered(i) == "" && !env.stopped(i)
  }

  lemma StepAlongLine(w: World, g0: Graph, line: seq<Id>, env: Env) returns (line': seq<Id>)
    requires Inv(w, g0, env) && Line(w.g, line) && line != [] && Local(env)
    ensures var w' := Attempt(w, line[0], env);
      && Line(w'.g, line')
      && Fuses(w'.g, line') == Burn(Fuses(w.g, line), env.succeeds(w.calls))
      && w'.calls == w.calls + 1
      && w'.failures == w.failures + if env.succeeds(w.calls) then 0 else 1
  {
    hide Attempt, Live, DepsMet, Fuses, IsSplit, Inv;
    var id, a, b := line[0], env.fallbackA(w.calls), env.fallbackB(w.calls);
    var g' := Attempt(w, id, env).g;
    if env.succeeds(w.calls) {
      SuccessAt(w, id, env);
      line' := line[1..];
      LineAfterSuccess(w.g, line, g');
    } else if w.g.nodes[id].retryCount < w.g.nodes[id].maxRetries {
      var n := RetryAt(w, id, env);
      line' := line;
      LineAfterRetry(w.g, line, g', n);
    } else {
      FirstIsReady(w.g, line);
      InvGives(w, g0, id, env);
      var n := SplitAt(w, id, env);
      line' := [a, b] + line[1..];
      LineAfterSplit(w.g, line, g', n, a, b);
    }
  }

  lemma FirstIsReady(g: Graph, line: seq<Id>)
    requires Line(g, line) && line != []
    ensures IsReady(g, line[0])
  {
  }

  /** The line does not run out before the cap. */
  ghost predicate Lasts(fuses: seq<nat>, succeeds: nat -> bool, from: nat, cap: nat)
    decreases cap - from
  {
    fuses != [] && (from < cap ==> Lasts(Burn(fuses, succeeds(from)), succeeds, from + 1, cap))
  }

  function FailuresIn(succeeds: nat -> bool, from: nat, cap: nat): nat
    decreases cap - from
  {
    if from >= cap then 0 else (if succeeds(from) then 0 else 1) + FailuresIn(succeeds, from + 1, cap)
  }

  lemma {:induction false} RunAlongLine(w: World, g0: Graph, line: seq<Id>, cap: nat, env: Env)
    requires Inv(w, g0, env) && Line(w.g, line) && Local(env) && w.calls <= cap
    requires Lasts(Fuses(w.g, line), env.succeeds, w.calls, cap)
    ensures var o := Loop(w, w.calls, cap, env);
      && !o.aborted && o.rounds == cap && !Succeeded(o)
      && o.w.failures == w.failures + FailuresIn(env.succeeds, w.calls, cap)
    decreases cap - w.calls
  {
    hide Attempt, Line, Fuses, Burn, Inv, Sound, IsReady, ReadyAmong, AllConcluded, AnyFailed;
    InvSound(w, g0, env);
    OnlyFirstReady(w.g, line);
    if w.calls < cap {
      var w' := Attempt(w, line[0], env);
      AttemptKeeps(w, g0, line[0], env);
      var line' := StepAlongLine(w, g0, line, env);
      assert [line[0]][1..] == [];
      assert Round(w', [], env) == w';
      assert Round(w, [line[0]], env) == w';
      RunAlongLine(w', g0, line', cap, env);
    }
  }

  lemma InvSound(w: World, g0: Graph, env: Env)
    requires Inv(w, g0, env)
    ensures Sound(w.g) && (env.healer ==> !AnyFailed(w.g))
  {
  }

  // ----- A plan of failures that wastes as many rounds as possible -----

  /** j times a failure and two successes, then the other failures, then successes. */
  function Plan(j: nat, failures: nat): nat -> bool {
    i => if i < 3 * j then i % 3 != 0 else i >= 2 * j + failures
  }

  function Zeros(m: nat): (fuses: seq<nat>)
    ensures |fuses| == m && forall i :: 0 <= i < m ==> fuses[i] == 0
  {
    seq(m, _ => 0)
  }

  lemma {:induction false} PlanEnds(j: nat, failures: nat, fuses: seq<nat>, from: nat, cap: nat)
    requires 3 * j <= from && 2 * j + failures <= from <= cap && |fuses| > cap - from
    ensures Lasts(fuses, Plan(j, failures), from, cap) && FailuresIn(Plan(j, failures), from, cap) == 0
    decreases cap - from
  {
    if from < cap {
      PlanEnds(j, failures, Burn(fuses, true), from + 1, cap);
    }
  }

  /** Each second failure makes the line one longer. */
  lemma {:induction false} PlanFails(j: nat, failures: nat, fuses: seq<nat>, from: nat, cap: nat)
    requires 3 * j <= from <= 2 * j + failures <= cap && fuses != [] && fuses[0] <= 1
    requires |fuses| + (2 * j + failures - from + 1 - fuses[0]) / 2 > cap - 2 * j - failures
    ensures Lasts(fuses, Plan(j, failures), from, cap)
    ensures FailuresIn(Plan(j, failures), from, cap) == 2 * j + failures - from
    decreases cap - from
  {
    if from == 2 * j + failures {
      PlanEnds(j, failures, fuses, from, cap);
    } else {
      PlanFails(j, failures, Burn(fuses, false), from + 1, cap);
    }
  }

  lemma {:induction false} PlanStarts(j: nat, failures: nat, i: nat, m: nat, cap: nat)
    requires i <= j <= failures && 2 * j + failures <= cap && j - i < m
    requires m - (j - i) + (failures - j + 1) / 2 > cap - 2 * j - failures
    ensures Lasts(Zeros(m), Plan(j, failures), 3 * i, cap)
    ensures FailuresIn(Plan(j, failures), 3 * i, cap) == failures - i
    decreases j - i
  {
    var plan, at := Plan(j, failures), 3 * i;
    if i == j {
      PlanFails(j, failures, Zeros(m), at, cap);
    } else {
      PlanStarts(j, failures, i + 1, m - 1, cap);
      assert !plan(at) && plan(at + 1) && plan(at + 2);
      var f1 := Burn(Zeros(m), false);
      var f2 := Burn(f1, true);
      var f3 := Burn(f2, true);
      assert f3 == Zeros(m - 1);
      assert Lasts(f3, plan, at + 3, cap);
      assert Lasts(f2, plan, at + 2, cap);
      assert Lasts(f1, plan, at + 1, cap);
      assert FailuresIn(plan, at + 2, cap) == FailuresIn(plan, at + 1, cap) == failures - i - 1;
    }
  }

  // ----- The tasks of such a run -----

  function LineNode(i: nat): Node {
    Node(if i == 0 then [] else [Name('t', i - 1)], Pending, "", "", 0.0, 0.0, 0.0, 0, 0)
  }

  /** n tasks without retries, each waiting for the one before it. */
  function LineGraph(n: nat): Graph {
    if n == 0 then Graph([], map[]) else Added(LineGraph(n - 1), Name('t', n - 1), LineNode(n - 1))
  }

  function LineEnv(plan: nat -> bool): Env {
    Env(true, false, plan, _ => "", (c: nat) => Name('a', c), (c: nat) => Name('b', c), _ => false)
  }

  ghost function LineWorld(n: nat): World {
    World(LineGraph(n), map[], 0, 0, [], map x | x in LineGraph(n).nodes :: LineGraph(n).nodes[x].deps)
  }

  /** The length of a name tells its place. */
  ghost predicate Placed(x: Id, n: nat) {
    0 < |x| <= n && x == Name('t', |x| - 1)
  }

  /** The tasks are those named, in order. */
  ghost predicate Named(g: Graph, n: nat) {
    && |g.order| == n && |g.nodes| == n
    && (forall i :: 0 <= i < n ==> g.order[i] == Name('t', i) && g.order[i] in g.nodes)
    && forall x :: x in g.nodes ==> Placed(x, n)
  }

  lemma {:induction false} LineGraphNamed(n: nat)
    ensures Named(LineGraph(n), n)
  {
    hide LineNode, Name, Placed, Added;
    if n > 0 {
      var g, x := LineGraph(n - 1), Name('t', n - 1);
      LineGraphNamed(n - 1);
      NewName(n);
      forall y | y in g.nodes ensures Placed(y, n) && y != x {
        EarlierName(y, n);
      }
      OneMoreNamed(g, Added(g, x, LineNode(n - 1)), n);
    }
  }

  lemma OneMoreNamed(g: Graph, g': Graph, n: nat)
    requires n > 0 && Named(g, n - 1) && g' == Added(g, Name('t', n - 1), LineNode(n - 1))
    requires Name('t', n - 1) !in g.nodes && Placed(Name('t', n - 1), n) && forall y :: y in g.nodes ==> Placed(y, n)
    ensures Named(g', n)
  {
    hide LineNode, Name, Placed;
  }

  lemma NewName(n: nat)
    requires n > 0
    ensures Placed(Name('t', n - 1), n)
  {
  }

  lemma EarlierName(y: Id, n: nat)
    requires n > 0 && Placed(y, n - 1)
    ensures Placed(y, n) && y != Name('t', n - 1)
  {
  }

  lemma {:induction false} LineNodeAt(n: nat, i: nat)
    requires i < n
    ensures Name('t', i) in LineGraph(n).nodes && LineGraph(n).nodes[Name('t', i)] == LineNode(i)
  {
    hide LineNode, Name;
    if i < n - 1 {
      LineNodeAt(n - 1, i);
      assert |Name('t', i)| != |Name('t', n - 1)|;
    }
  }

  /** The node behind a task of the line. */
  lemma NodeOf(n: nat, x: Id)
    requires x in LineGraph(n).nodes
    ensures 0 < |x| <= n && x == Name('t', |x| - 1) && LineGraph(n).nodes[x] == LineNode(|x| - 1)
  {
    hide LineGraph, LineNode, Name;
    LineGraphNamed(n);
    assert Placed(x, n);
    LineNodeAt(n, |x| - 1);
  }

  lemma LineSortable(n: nat)
    ensures WellFormed(LineGraph(n)) && Sortable(LineGraph(n))
  {
    hide LineGraph, LineNode, Name, Placed;
    var g := LineGraph(n);
    LineGraphNamed(n);
    forall x | x in g.nodes
      ensures NoDup(g.nodes[x].deps) && forall d :: d in g.nodes[x].deps ==> d in g.nodes && |d| < |x|
    {
      NodeOf(n, x);
      LineDeps(n, |x| - 1);
    }
    forall i, j | 0 <= i < j < |g.order| ensures g.order[i] != g.order[j] {
      assert |Name('t', i)| == i + 1 && |Name('t', j)| == j + 1;
    }
    forall id ensures id in g.order <==> id in g.nodes {
      if id in g.nodes {
        NodeOf(n, id);
        assert g.order[|id| - 1] == id;
      }
    }
    var rank := map x | x in g.nodes :: |x|;
    RankedHasNoCycle(g, rank);
  }

  lemma LineDeps(n: nat, i: nat)
    requires i < n
    ensures NoDup(LineNode(i).deps)
    ensures forall d :: d in LineNode(i).deps ==> d in LineGraph(n).nodes && |d| <= i
  {
    hide LineGraph, Name, Placed;
    LineGraphNamed(n);
    if i > 0 {
      assert LineGraph(n).order[i - 1] == Name('t', i - 1);
    }
  }

  lemma LineStarts(n: nat, plan: nat -> bool)
    ensures Start(LineWorld(n), LineEnv(plan)) && Local(LineEnv(plan))
  {
    hide LineGraph, LineNode, Sortable, WellFormed, Placed;
    LineSortable(n);
    LineGraphNamed(n);
    var g, env := LineGraph(n), LineEnv(plan);
    forall x | x in g.nodes ensures g.nodes[x].status == Pending && |x| > 0 && x[0] == 't' {
      NodeOf(n, x);
      PendingNode(|x| - 1);
    }
    hide Named;
    forall i: nat ensures env.fallbackA(i)[0] == 'a' && env.fallbackB(i)[0] == 'b' {
    }
    forall i: nat, j: nat | i != j
      ensures env.fallbackA(i) != env.fallbackA(j) && env.fallbackB(i) != env.fallbackB(j)
    {
      assert |env.fallbackA(i)| == i + 1 && |env.fallbackB(j)| == j + 1;
      assert |env.fallbackA(j)| == j + 1 && |env.fallbackB(i)| == i + 1;
    }
  }

  lemma PendingNode(i: nat)
    ensures LineNode(i).status == Pending && Plain(LineNode(i)) && FuseOf(LineNode(i)) == 0
    ensures LineNode(i).deps == if i == 0 then [] else [Name('t', i - 1)]
  {
  }

  lemma LineIsLine(n: nat)
    ensures Line(LineGraph(n), LineGraph(n).order)
    ensures Fuses(LineGraph(n), LineGraph(n).order) == Zeros(n)
  {
    hide LineGraph, LineNode, Name, Sortable, Placed, Plain, FuseOf;
    LineSortable(n);
    LineGraphNamed(n);
    var g := LineGraph(n);
    forall x | x in g.nodes ensures g.nodes[x].status == Pending && Plain(g.nodes[x]) && FuseOf(g.nodes[x]) == 0 {
      NodeOf(n, x);
      PendingNode(|x| - 1);
    }
    forall i | 0 <= i < n ensures g.nodes[g.order[i]].deps == if i == 0 then [] else [g.order[i - 1]] {
      LineNodeAt(n, i);
      PendingNode(i);
    }
    assert Live(g) == Elems(g.order);
    if n > 0 {
      LineNodeAt(n, 0);
      PendingNode(0);
      assert g.nodes[g.order[0]].deps == [] && DepsMet(g, g.order[0]);
    }
    assert NoDup(g.order);
    assert Fuses(g, g.order) == Zeros(n);
  }

  // ----- The threshold -----

  /** Outside the bound there is a run with just so many failures that uses up its rounds and fails. */
  lemma CapIsReached(n: nat, failures: nat) returns (w: World, env: Env)
    requires n >= 1 && !WithinCap(n, failures) && failures <= n * Cap(n)
    ensures Start(w, env) && env.healer && |w.g.nodes| == n
    ensures var o := Run(w, env); !o.aborted && !Succeeded(o) && o.rounds == Cap(n) && o.w.failures == failures
  {
    if failures >= Cap(n) {
      w, env := WideRunFails(n, failures);
    } else {
      w, env := NarrowRunFails(n, failures);
    }
  }

  /** One failure per round at most. */
  lemma NarrowRunFails(n: nat, failures: nat) returns (w: World, env: Env)
    requires n >= 1 && !WithinCap(n, failures) && failures <= Cap(n)
    ensures Start(w, env) && env.healer && |w.g.nodes| == n
    ensures var o := Run(w, env); !o.aborted && !Succeeded(o) && o.rounds == Cap(n) && o.w.failures == failures
  {
    hide Start, Succeeded, Loop;
    var j := if failures <= 3 * n + 12 then n - 1 else (Cap(n) - failures) / 2;
    PlanStarts(j, failures, 0, n, Cap(n));
    w, env := PlanRuns(n, Plan(j, failures));
  }

  lemma PlanRuns(n: nat, plan: nat -> bool) returns (w: World, env: Env)
    requires Lasts(Zeros(n), plan, 0, Cap(n))
    ensures Start(w, env) && env.healer && |w.g.nodes| == n
    ensures var o := Run(w, env);
      !o.aborted && !Succeeded(o) && o.rounds == Cap(n) && o.w.failures == FailuresIn(plan, 0, Cap(n))
  {
    hide Line, Lasts, FailuresIn, Inv, Start, Succeeded, Loop, Fuses, Placed;
    env, w := LineEnv(plan), LineWorld(n);
    LineStarts(n, plan);
    LineIsLine(n);
    LineGraphNamed(n);
    StartGivesInv(w, env);
    hide LineGraph;
    RunAlongLine(w, w.g, LineGraph(n).order, Cap(n), env);
  }

  /** A run over n tasks with a replanning engine that is not stopped and has so many failures. */
  ghost predicate Fits(w: World, env: Env, n: nat, failures: nat) {
    && Start(w, env) && env.healer && |w.g.nodes| == n
    && !Run(w, env).aborted && Run(w, env).w.failures == failures
  }

  /** No run has more failures than that. */
  lemma NoMoreFailures(w: World, env: Env, n: nat, failures: nat)
    ensures Fits(w, env, n, failures) ==> failures <= n * Cap(n)
  {
    hide Start, Run;
    if Fits(w, env, n, failures) {
      FailuresPerRound(w, env);
    }
  }

  /** The bound is exact: for any number of tasks and of failures, all runs with a replanning engine that are not
      stopped succeed if and only if the failures are within the bound; n * Cap(n) is the most such a run can have. */
  lemma ThresholdIsExact(n: nat, failures: nat)
    ensures WithinCap(n, failures) || failures > n * Cap(n) <==>
      forall w: World, env: Env :: Fits(w, env, n, failures) ==> Succeeded(Run(w, env))
  {
    hide Start, Run, Succeeded;
    if WithinCap(n, failures) {
      forall w: World, env: Env | Fits(w, env, n, failures)
        ensures Succeeded(Run(w, env))
      {
        RunSucceeds(w, env);
      }
    } else if failures > n * Cap(n) {
      forall w: World, env: Env ensures Fits(w, env, n, failures) ==> failures <= n * Cap(n) {
        NoMoreFailures(w, env, n, failures);
      }
    } else {
      assert n >= 1;
      var w, env := CapIsReached(n, failures);
      assert Fits(w, env, n, failures);
    }
  }
}
