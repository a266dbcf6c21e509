/** The task graph of the planner: nodes, readiness, completion. */
module TaskGraphs {
  import opened Collections

  type Id = string

  datatype Status = Pending | Running | Completed | Failed | Replanning | Cancelled

  /** The fields of a subtask that the engine reads or writes.  An unset agent is "". */
  datatype Node = Node(
    deps: seq<Id>,
    status: Status,
    agent: string,
    skill: string,
    estimatedCostUsd: real,
    maxBudgetUsd: real,
    executionTimeoutMs: real,
    retryCount: nat,
    maxRetries: nat)

  /** The value of a graph: its ids in insertion order and the node behind each id. */
  datatype Graph = Graph(order: seq<Id>, nodes: map<Id, Node>)

  ghost predicate WellFormed(g: Graph) {
    && NoDup(g.order)
    && forall id :: id in g.order <==> id in g.nodes
  }

  ghost predicate DistinctDeps(g: Graph) {
    forall id :: id in g.nodes ==> NoDup(g.nodes[id].deps)
  }

  ghost predicate PresentDeps(g: Graph) {
    forall id, d :: id in g.nodes && d in g.nodes[id].deps ==> d in g.nodes
  }

  /** Every step of `p` goes from a task to one of its dependencies. */
  ghost predicate IsWalk(g: Graph, p: seq<Id>) {
    forall i :: 0 <= i < |p| - 1 ==> p[i] in g.nodes && p[i + 1] in g.nodes[p[i]].deps
  }

  ghost predicate IsCycle(g: Graph, p: seq<Id>) {
    |p| >= 2 && p[0] == p[|p| - 1] && IsWalk(g, p)
  }

  ghost predicate HasCycle(g: Graph) {
    exists p :: IsCycle(g, p)
  }

  ghost predicate DepsFirst(g: Graph, out: seq<Id>) {
    && (forall k :: 0 <= k < |out| ==> out[k] in g.nodes)
    && forall k, d :: 0 <= k < |out| && d in g.nodes[out[k]].deps ==> d in out[..k]
  }

  /** All tasks exactly once, each after all of its dependencies. */
  ghost predicate IsTopologicalOrder(g: Graph, o: seq<Id>) {
    && NoDup(o)
    && (forall id :: id in o <==> id in g.nodes)
    && DepsFirst(g, o)
  }

  /** What `topologicalOrder` accepts. */
  ghost predicate Sortable(g: Graph) {
    DistinctDeps(g) && PresentDeps(g) && !HasCycle(g)
  }

  predicate DepsMet(g: Graph, id: Id)
    requires id in g.nodes
  {
    forall d :: d in g.nodes[id].deps ==> d in g.nodes && g.nodes[d].status == Completed
  }

  predicate IsReady(g: Graph, id: Id) {
    id in g.nodes && g.nodes[id].status == Pending && DepsMet(g, id)
  }

  predicate Concluded(s: Status) {
    s == Completed || s == Cancelled
  }

  ghost predicate AllConcluded(g: Graph) {
    forall id :: id in g.nodes ==> Concluded(g.nodes[id].status)
  }

  ghost predicate AnyFailed(g: Graph) {
    exists id :: id in g.nodes && g.nodes[id].status == Failed
  }

  /** The ready ids among `ids`, in the order given. */
  function ReadyAmong(g: Graph, ids: seq<Id>): (r: seq<Id>)
    ensures forall id :: id in r <==> id in ids && IsReady(g, id)
    ensures NoDup(ids) ==> NoDup(r)
  {
    if ids == [] then []
    else
      var front, last := ids[..|ids| - 1], ids[|ids| - 1];
      assert ids == front + [last];
      var r := ReadyAmong(g, front);
      if IsReady(g, last) then r + [last] else r
  }

  lemma ReadyAmongStep(g: Graph, ids: seq<Id>, i: nat)
    requires i < |ids|
    ensures ReadyAmong(g, ids[..i + 1]) == ReadyAmong(g, ids[..i]) + if IsReady(g, ids[i]) then [ids[i]] else []
  {
    assert ids[..i + 1][..i] == ids[..i];
  }

  lemma NoneReady(g: Graph)
    ensures ReadyAmong(g, []) == []
  {
  }

  function Added(g: Graph, id: Id, n: Node): Graph {
    Graph(if id in g.nodes then g.order else g.order + [id], g.nodes[id := n])
  }

  // ----- Cycles and topological orders -----

  ghost predicate DependsInto(g: Graph, id: Id, s: set<Id>) {
    id in g.nodes && exists d :: d in g.nodes[id].deps && d in s
  }

  /** Every task of `s` waits for a task of `s`. */
  ghost predicate IsStuck(g: Graph, s: set<Id>) {
    forall id {:trigger DependsInto(g, id, s)} :: id in s ==> DependsInto(g, id, s)
  }

  /** Walks `n` steps from `x`, staying inside `s`. */
  lemma {:induction false} WalkInside(g: Graph, s: set<Id>, x: Id, n: nat) returns (p: seq<Id>)
    requires x in s
    requires IsStuck(g, s)
    ensures |p| == n + 1 && p[0] == x && IsWalk(g, p) && Elems(p) <= s
    decreases n
  {
    if n == 0 {
      p := [x];
    } else {
      assert DependsInto(g, x, s);
      var d :| d in g.nodes[x].deps && d in s;
      var q := WalkInside(g, s, d, n - 1);
      p := [x] + q;
    }
  }

  /** If every task of a non-empty set depends on a task of the set, the graph has a cycle. */
  lemma StuckSetHasCycle(g: Graph, s: set<Id>)
    requires s != {}
    requires IsStuck(g, s)
    ensures HasCycle(g)
  {
    var x :| x in s;
    var p := WalkInside(g, s, x, |s|);
    ElemsSize(p);
    SubsetSize(Elems(p), s);
    var i, j :| 0 <= i < j < |p| && p[i] == p[j];
    var c := p[i..j + 1];
    assert IsCycle(g, c) by {
      forall k | 0 <= k < |c| - 1
        ensures c[k] in g.nodes && c[k + 1] in g.nodes[c[k]].deps
      {
        assert c[k] == p[i + k] && c[k + 1] == p[i + k + 1];
      }
    }
  }

  /** A rank that decreases along every dependency. */
  ghost predicate Ranked(g: Graph, rank: map<Id, nat>) {
    forall id, d :: id in g.nodes && d in g.nodes[id].deps
      ==> id in rank && d in rank && rank[d] < rank[id]
  }

  ghost function IndexIn(o: seq<Id>, id: Id): (k: nat)
    requires id in o
    ensures k < |o| && o[k] == id
  {
    var k :| 0 <= k < |o| && o[k] == id;
    k
  }

  lemma OrderGivesRank(g: Graph, o: seq<Id>) returns (rank: map<Id, nat>)
    requires IsTopologicalOrder(g, o)
    ensures Ranked(g, rank) && rank.Keys == g.nodes.Keys
  {
    rank := map id | id in g.nodes :: IndexIn(o, id);
    forall id, d | id in g.nodes && d in g.nodes[id].deps
      ensures d in rank && rank[d] < rank[id]
    {
      var k := IndexIn(o, id);
      assert d in o[..k];
      var m :| 0 <= m < k && o[m] == d;
    }
  }

  lemma {:induction false} RankFallsAlongWalk(g: Graph, rank: map<Id, nat>, p: seq<Id>)
    requires Ranked(g, rank) && IsWalk(g, p) && |p| >= 2
    ensures p[0] in rank && p[|p| - 1] in rank && rank[p[|p| - 1]] < rank[p[0]]
  {
    assert p[0] in g.nodes && p[0 + 1] in g.nodes[p[0]].deps;
    assert rank[p[1]] < rank[p[0]];
    if |p| > 2 {
      assert IsWalk(g, p[1..]) by {
        forall i | 0 <= i < |p[1..]| - 1
          ensures p[1..][i] in g.nodes && p[1..][i + 1] in g.nodes[p[1..][i]].deps
        {
          assert p[i + 1] in g.nodes && p[i + 1 + 1] in g.nodes[p[i + 1]].deps;
        }
      }
      RankFallsAlongWalk(g, rank, p[1..]);
    }
  }

  lemma RankedHasNoCycle(g: Graph, rank: map<Id, nat>)
    requires Ranked(g, rank)
    ensures !HasCycle(g)
  {
    forall p | IsCycle(g, p) ensures false {
      RankFallsAlongWalk(g, rank, p);
    }
  }

  /** Appending a task whose dependencies are all placed keeps "dependencies first". */
  lemma PlaceNext(g: Graph, out: seq<Id>, current: Id)
    requires current in g.nodes && Elems(g.nodes[current].deps) <= Elems(out)
    requires DepsFirst(g, out)
    ensures DepsFirst(g, out + [current])
  {
    var out' := out + [current];
    forall k, d | 0 <= k < |out'| && d in g.nodes[out'[k]].deps ensures d in out'[..k] {
      if k < |out| {
        assert out'[..k] == out[..k];
      } else {
        assert out'[..k] == out;
        assert d in Elems(g.nodes[current].deps);
      }
    }
  }

  /** Extends a partial order until it covers the graph. */
  lemma {:induction false} CompleteOrder(g: Graph, o: seq<Id>) returns (full: seq<Id>)
    requires PresentDeps(g) && !HasCycle(g)
    requires NoDup(o) && Elems(o) <= g.nodes.Keys
    requires DepsFirst(g, o)
    ensures IsTopologicalOrder(g, full)
    decreases |g.nodes.Keys - Elems(o)|
  {
    var rest := g.nodes.Keys - Elems(o);
    if rest == {} {
      full := o;
      assert forall id :: id in g.nodes ==> id !in rest;
    } else if exists id :: id in rest && forall d :: d in g.nodes[id].deps ==> d in o {
      var id :| id in rest && forall d :: d in g.nodes[id].deps ==> d in o;
      var o' := o + [id];
      PlaceNext(g, o, id);
      assert g.nodes.Keys - Elems(o') == rest - {id};
      full := CompleteOrder(g, o');
    } else {
      assert forall id :: id in rest ==> DependsInto(g, id, rest);
      StuckSetHasCycle(g, rest);
      assert false;
    }
  }

  /** The two readings of "acyclic" agree: no cycle exactly when the tasks can be laid out in order. */
  lemma AcyclicIffOrdered(g: Graph)
    requires PresentDeps(g)
    ensures !HasCycle(g) <==> exists o :: IsTopologicalOrder(g, o)
  {
    if !HasCycle(g) {
      var o := CompleteOrder(g, []);
    }
    if o :| IsTopologicalOrder(g, o) {
      var rank := OrderGivesRank(g, o);
      RankedHasNoCycle(g, rank);
    }
  }

  // ----- Kahn's invariant -----

  /** How many listed dependencies of `id` are not yet accounted for by `done`. */
  ghost function Unmet(g: Graph, id: Id, done: set<Id>): int
    requires id in g.nodes
  {
    |g.nodes[id].deps| - |Elems(g.nodes[id].deps) * done|
  }

  /** The in-degree of every task counts its dependencies outside `done`. */
  ghost predicate Counted(g: Graph, deg: map<Id, int>, done: set<Id>) {
    && deg.Keys == g.nodes.Keys
    && forall id :: id in deg ==> deg[id] == Unmet(g, id, done)
  }

  /** As Counted, when only the tasks in `scanned` have seen that `current` is done as well. */
  ghost predicate PartlyCounted(g: Graph, deg: map<Id, int>, done: set<Id>, current: Id, scanned: seq<Id>) {
    && deg.Keys == g.nodes.Keys
    && forall id :: id in deg ==> deg[id] == Unmet(g, id, if id in scanned then done + {current} else done)
  }

  /** Exactly the tasks whose in-degree reached zero were ever queued, each once. */
  ghost predicate QueuedAtZero(deg: map<Id, int>, queued: seq<Id>) {
    && NoDup(queued)
    && forall id :: id in queued <==> id in deg && deg[id] == 0
  }

  /** Between two turns of the outer loop. */
  ghost predicate KahnState(g: Graph, deg: map<Id, int>, out: seq<Id>, queue: seq<Id>) {
    && Counted(g, deg, Elems(out))
    && QueuedAtZero(deg, out + queue)
    && DepsFirst(g, out)
  }

  /** Inside the inner loop, after the tasks in `scanned`. */
  ghost predicate KahnScan(g: Graph, deg: map<Id, int>, out: seq<Id>, queue: seq<Id>,
                           done: set<Id>, current: Id, scanned: seq<Id>)
  {
    && current !in done && Elems(out) == done + {current}
    && PartlyCounted(g, deg, done, current, scanned)
    && QueuedAtZero(deg, out + queue)
    && DepsFirst(g, out)
  }

  /** A task whose count is zero lists distinct dependencies that are all done. */
  lemma DegreeZero(g: Graph, id: Id, done: set<Id>)
    requires id in g.nodes
    ensures Unmet(g, id, done) >= 0
    ensures Unmet(g, id, done) == 0 <==> NoDup(g.nodes[id].deps) && Elems(g.nodes[id].deps) <= done
  {
    var deps := g.nodes[id].deps;
    ElemsSize(deps);
    SubsetSize(Elems(deps) * done, Elems(deps));
    if Elems(deps) <= done {
      assert Elems(deps) * done == Elems(deps);
    }
  }

  lemma UnmetStep(g: Graph, id: Id, done: set<Id>, current: Id)
    requires id in g.nodes && current !in done
    ensures Unmet(g, id, done + {current}) == Unmet(g, id, done) - (if current in g.nodes[id].deps then 1 else 0)
  {
    var deps := Elems(g.nodes[id].deps);
    if current in g.nodes[id].deps {
      assert deps * (done + {current}) == deps * done + {current};
    } else {
      assert deps * (done + {current}) == deps * done;
    }
  }

  lemma ScanDomain(g: Graph, deg: map<Id, int>, out: seq<Id>, queue: seq<Id>,
                   done: set<Id>, current: Id, scanned: seq<Id>)
    requires KahnScan(g, deg, out, queue, done, current, scanned)
    ensures deg.Keys == g.nodes.Keys
  {
  }

  lemma ScanStep(g: Graph, deg: map<Id, int>, deg': map<Id, int>, out: seq<Id>, queue: seq<Id>, queue': seq<Id>,
                 done: set<Id>, current: Id, scanned: seq<Id>, id: Id)
    requires KahnScan(g, deg, out, queue, done, current, scanned)
    requires id in g.nodes && id !in scanned && id in deg
    requires deg' == deg[id := if current in g.nodes[id].deps then deg[id] - 1 else deg[id]]
    requires queue' == if current in g.nodes[id].deps && deg[id] == 1 then queue + [id] else queue
    ensures KahnScan(g, deg', out, queue', done, current, scanned + [id])
  {
    hide PartlyCounted, QueuedAtZero, DepsFirst, Elems, Unmet;
    CountOne(g, deg, deg', done, current, scanned, id);
    assert out + queue' == out + queue + if deg[id] != 0 && deg'[id] == 0 then [id] else [];
    ZeroesQueued(deg, out + queue, id, deg'[id]);
  }

  lemma CountOne(g: Graph, deg: map<Id, int>, deg': map<Id, int>, done: set<Id>, current: Id,
                 scanned: seq<Id>, id: Id)
    requires current !in done && PartlyCounted(g, deg, done, current, scanned)
    requires id in deg && id !in scanned
    requires deg' == deg[id := if current in g.nodes[id].deps then deg[id] - 1 else deg[id]]
    ensures PartlyCounted(g, deg', done, current, scanned + [id])
    ensures deg[id] == 0 ==> deg'[id] == 0
  {
    UnmetStep(g, id, done, current);
    DegreeZero(g, id, done);
  }

  /** A task joins the queue at the moment its count reaches zero. */
  lemma ZeroesQueued(deg: map<Id, int>, queued: seq<Id>, id: Id, v: int)
    requires QueuedAtZero(deg, queued) && id in deg
    requires deg[id] == 0 ==> v == 0
    ensures QueuedAtZero(deg[id := v], queued + if deg[id] != 0 && v == 0 then [id] else [])
  {
    if deg[id] != 0 && v == 0 {
      NoDupAppend(queued, id);
    } else {
      assert queued + [] == queued;
    }
  }

  lemma ScanDone(g: Graph, deg: map<Id, int>, out: seq<Id>, queue: seq<Id>, done: set<Id>, current: Id)
    requires WellFormed(g) && KahnScan(g, deg, out, queue, done, current, g.order)
    ensures KahnState(g, deg, out, queue)
  {
  }

  lemma KahnStart(g: Graph, deg: map<Id, int>, queue: seq<Id>)
    requires deg.Keys == g.nodes.Keys
    requires forall id :: id in deg ==> deg[id] == |g.nodes[id].deps|
    requires NoDup(queue) && forall id :: id in queue <==> id in deg && deg[id] == 0
    ensures KahnState(g, deg, [], queue)
  {
    assert [] + queue == queue;
    forall id | id in deg ensures deg[id] == Unmet(g, id, Elems([])) {
      assert Elems(g.nodes[id].deps) * Elems([]) == {};
    }
  }

  lemma KahnPop(g: Graph, deg: map<Id, int>, out: seq<Id>, queue: seq<Id>)
    requires KahnState(g, deg, out, queue) && queue != []
    ensures KahnScan(g, deg, out + [queue[0]], queue[1..], Elems(out), queue[0], [])
  {
    var current := queue[0];
    assert out + [current] + queue[1..] == out + queue;
    assert (out + queue)[|out|] == current;
    assert forall i :: 0 <= i < |out| ==> (out + queue)[i] == out[i] && out[i] in out + queue;
    DegreeZero(g, current, Elems(out));
    PlaceNext(g, out, current);
    AppendElem(out, current);
  }

  lemma KahnShort(g: Graph, deg: map<Id, int>, out: seq<Id>, queue: seq<Id>)
    requires KahnState(g, deg, out, queue)
    ensures |out| + |queue| <= |g.nodes|
  {
    ElemsSize(out + queue);
    forall id | id in Elems(out + queue) ensures id in g.nodes {
      assert id in out + queue;
    }
    SubsetSize(Elems(out + queue), g.nodes.Keys);
  }

  /** When the queue runs dry, either everything is in order or some set of tasks waits for itself. */
  lemma KahnFinish(g: Graph, deg: map<Id, int>, out: seq<Id>)
    requires KahnState(g, deg, out, [])
    ensures |out| == |g.nodes| <==> Sortable(g)
    ensures |out| == |g.nodes| ==> IsTopologicalOrder(g, out)
  {
    assert out + [] == out;
    ElemsSize(out);
    assert Elems(out) <= g.nodes.Keys;
    SubsetSize(Elems(out), g.nodes.Keys);
    forall id | id in g.nodes
      ensures id in out <==> NoDup(g.nodes[id].deps) && Elems(g.nodes[id].deps) <= Elems(out)
    {
      DegreeZero(g, id, Elems(out));
    }
    if |out| == |g.nodes| {
      AllPlaced(g, out);
    } else {
      SomeLeft(g, out);
    }
  }

  lemma AllPlaced(g: Graph, out: seq<Id>)
    requires NoDup(out) && Elems(out) == g.nodes.Keys
    requires forall id :: id in g.nodes ==> NoDup(g.nodes[id].deps) && Elems(g.nodes[id].deps) <= Elems(out)
    requires DepsFirst(g, out)
    ensures Sortable(g) && IsTopologicalOrder(g, out)
  {
    assert PresentDeps(g) by {
      forall id, d | id in g.nodes && d in g.nodes[id].deps ensures d in g.nodes {
        assert d in Elems(g.nodes[id].deps);
      }
    }
    assert forall id :: id in out <==> id in Elems(out);
    var rank := OrderGivesRank(g, out);
    RankedHasNoCycle(g, rank);
  }

  lemma SomeLeft(g: Graph, out: seq<Id>)
    requires Elems(out) <= g.nodes.Keys && Elems(out) != g.nodes.Keys
    requires forall id :: id in g.nodes && id !in out ==>
      !(NoDup(g.nodes[id].deps) && Elems(g.nodes[id].deps) <= Elems(out))
    ensures !Sortable(g)
  {
    var rest := g.nodes.Keys - Elems(out);
    var id0 :| id0 in g.nodes.Keys && id0 !in Elems(out);
    assert id0 in rest;
    if Sortable(g) {
      forall id | id in rest ensures DependsInto(g, id, rest) {
        assert !(Elems(g.nodes[id].deps) <= Elems(out));
        var d :| d in Elems(g.nodes[id].deps) && d !in Elems(out);
        assert d in g.nodes[id].deps && d in rest;
      }
      StuckSetHasCycle(g, rest);
    }
  }

  // ----- The mutable graph -----

  class SubTask {
    const id: Id
    var deps: seq<Id>
    var status: Status
    var agent: string
    var skill: string
    var estimatedCostUsd: real
    var maxBudgetUsd: real
    var executionTimeoutMs: real
    var retryCount: nat
    var maxRetries: nat

    constructor (id: Id, n: Node)
      ensures this.id == id && View() == n
    {
      this.id := id;
      deps, status, agent, skill := n.deps, n.status, n.agent, n.skill;
      estimatedCostUsd, maxBudgetUsd := n.estimatedCostUsd, n.maxBudgetUsd;
      executionTimeoutMs, retryCount, maxRetries := n.executionTimeoutMs, n.retryCount, n.maxRetries;
    }

    function View(): Node
      reads this
    {
      Node(deps, status, agent, skill, estimatedCostUsd, maxBudgetUsd, executionTimeoutMs, retryCount, maxRetries)
    }
  }

  class TaskGraph {
    var order: seq<Id>
    var tasks: map<Id, SubTask>

    constructor ()
      ensures Valid() && View() == Graph([], map[])
    {
      order, tasks := [], map[];
    }

    ghost predicate Valid()
      reads this
    {
      && NoDup(order)
      && (forall id :: id in order <==> id in tasks)
      && forall id :: id in tasks ==> tasks[id].id == id
    }

    ghost function View(): (g: Graph)
      reads this, tasks.Values
    {
      Graph(order, map id | id in tasks :: tasks[id].View())
    }

    /** Map.set: a new id goes to the end, a known id keeps its place. */
    method AddTask(task: SubTask)
      requires Valid()
      modifies this
      ensures Valid()
      ensures tasks == old(tasks)[task.id := task]
      ensures View() == Added(old(View()), task.id, task.View())
    {
      hide TaskGraph.View, NoDup;
      ViewKeys();
      if task.id !in tasks {
        NoDupAppend(order, task.id);
        order := order + [task.id];
      }
      tasks := tasks[task.id := task];
      OneTaskPut(task);
    }

    twostate lemma OneTaskPut(task: SubTask)
      requires tasks == old(tasks)[task.id := task]
      requires forall t :: t in old(tasks).Values ==> t.View() == old(t.View())
      ensures View() == Graph(order, old(View()).nodes[task.id := task.View()])
    {
    }

    /** No task object stands at two places. */
    lemma DistinctTasks()
      requires Valid()
      ensures forall j, k :: 0 <= j < k < |order| ==> order[j] in tasks && order[k] in tasks
      ensures forall j, k :: 0 <= j < k < |order| ==> tasks[order[j]] != tasks[order[k]]
    {
    }

    lemma ViewNodes()
      requires Valid()
      ensures View().order == order && View().nodes.Keys == tasks.Keys
      ensures forall k :: 0 <= k < |order| ==> order[k] in tasks && View().nodes[order[k]] == tasks[order[k]].View()
    {
    }

    /** The value of the graph, found task by task. */
    lemma ViewIs(g: Graph)
      requires Valid() && g.order == order && g.nodes.Keys == tasks.Keys
      requires forall k :: 0 <= k < |order| ==> tasks[order[k]].View() == g.nodes[order[k]]
      ensures View() == g
    {
      hide NoDup;
      forall id | id in tasks ensures tasks[id].View() == g.nodes[id] {
        var k :| 0 <= k < |order| && order[k] == id;
      }
    }

    lemma ViewKeys()
      ensures View().order == order && View().nodes.Keys == tasks.Keys
    {
    }

    lemma ViewAt(id: Id)
      requires Valid() && id in tasks
      ensures View().order == order && View().nodes.Keys == tasks.Keys && View().nodes[id] == tasks[id].View()
    {
    }

    /** Writing the fields of one task changes the value of the graph at one id. */
    twostate lemma OneTaskChanged(t: SubTask)
      requires old(Valid()) && order == old(order) && tasks == old(tasks)
      requires t.id in tasks && tasks[t.id] == t
      requires forall u :: u in tasks.Values && u != t ==> u.View() == old(u.View())
      ensures View() == old(View()).(nodes := old(View()).nodes[t.id := t.View()])
    {
      forall id | id in tasks && id != t.id ensures tasks[id].View() == old(tasks[id].View()) {
        assert tasks[id] in tasks.Values && tasks[id] != t;
      }
    }

    /** Readiness, read off the task objects. */
    lemma ReadyIs(id: Id)
      requires Valid() && id in tasks
      ensures IsReady(View(), id) <==>
        && tasks[id].status == Pending
        && forall d :: d in tasks[id].deps ==> d in tasks && tasks[d].status == Completed
    {
      hide NoDup;
    }

    method GetReadyTasks() returns (ready: seq<SubTask>)
      requires Valid()
      ensures |ready| == |ReadyAmong(View(), order)|
      ensures forall k :: 0 <= k < |ready| ==>
        ready[k].id in tasks && ready[k] == tasks[ready[k].id] && ready[k].id == ReadyAmong(View(), order)[k]
    {
      hide ReadyAmong, IsReady, View, NoDup;
      ready := [];
      ghost var g := View();
      NoneReady(g);
      for i := 0 to |order|
        invariant |ready| == |ReadyAmong(g, order[..i])|
        invariant forall k :: 0 <= k < |ready| ==>
          ready[k].id in tasks && ready[k] == tasks[ready[k].id] && ready[k].id == ReadyAmong(g, order[..i])[k]
      {
        var task := tasks[order[i]];
        ReadyAmongStep(g, order, i);
        ReadyIs(order[i]);
        if task.status != Pending {
          continue;
        }
        var allDepsMet := forall d :: d in task.deps ==> d in tasks && tasks[d].status == Completed;
        if allDepsMet {
          ready := ready + [task];
        }
      }
      assert order[..|order|] == order;
    }

    method IsCompleted() returns (done: bool)
      requires Valid()
      ensures done <==> AllConcluded(View())
    {
      if |tasks| == 0 {
        return true;
      }
      for i := 0 to |order|
        invariant forall k :: 0 <= k < i ==> Concluded(tasks[order[k]].status)
      {
        var task := tasks[order[i]];
        if task.status != Completed && task.status != Cancelled {
          assert View().nodes[order[i]].status == task.status;
          return false;
        }
      }
      return true;
    }

    method HasFailedTasks() returns (failed: bool)
      requires Valid()
      ensures failed <==> AnyFailed(View())
    {
      for i := 0 to |order|
        invariant forall k :: 0 <= k < i ==> tasks[order[k]].status != Failed
      {
        if tasks[order[i]].status == Failed {
          assert View().nodes[order[i]].status == Failed;
          return true;
        }
      }
      return false;
    }

    /** The inner loop of Kahn's algorithm: `current` no longer holds its dependents back. */
    method ReleaseDependents(current: Id, inDegree0: map<Id, int>, queue0: seq<Id>,
                             ghost g: Graph, ghost done: set<Id>, ghost out: seq<Id>)
      returns (inDegree: map<Id, int>, queue: seq<Id>)
      requires Valid() && g == View()
      requires KahnScan(g, inDegree0, out, queue0, done, current, [])
      ensures KahnState(g, inDegree, out, queue)
    {
      hide KahnScan, KahnState;
      inDegree, queue := inDegree0, queue0;
      for i := 0 to |order|
        invariant KahnScan(g, inDegree, out, queue, done, current, order[..i])
      {
        PrefixGrows(order, i);
        var task := tasks[order[i]];
        assert task.id == order[i] && task.deps == g.nodes[order[i]].deps;
        ScanDomain(g, inDegree, out, queue, done, current, order[..i]);
        ghost var deg, queued := inDegree, queue;
        if current in task.deps {
          var currentDeg := inDegree[task.id] - 1;
          inDegree := inDegree[task.id := currentDeg];
          if currentDeg == 0 {
            queue := queue + [task.id];
          }
        }
        ScanStep(g, deg, inDegree, out, queued, queue, done, current, order[..i], order[i]);
      }
      assert order[..|order|] == order;
      ScanDone(g, inDegree, out, queue, done, current);
    }

    method InitialDegrees(ghost g: Graph) returns (inDegree: map<Id, int>, queue: seq<Id>)
      requires Valid() && g == View()
      ensures KahnState(g, inDegree, [], queue)
    {
      inDegree := map[];
      for i := 0 to |order|
        invariant inDegree.Keys == Elems(order[..i])
        invariant forall id :: id in inDegree ==> id in g.nodes && inDegree[id] == |g.nodes[id].deps|
      {
        PrefixGrows(order, i);
        inDegree := inDegree[order[i] := |tasks[order[i]].deps|];
      }
      assert order[..|order|] == order;

      queue := [];
      for i := 0 to |order|
        invariant NoDup(queue)
        invariant forall id :: id in queue <==> id in order[..i] && inDegree[id] == 0
      {
        PrefixGrows(order, i);
        if inDegree[order[i]] == 0 {
          queue := queue + [order[i]];
        }
      }
      assert order[..|order|] == order;
      KahnStart(g, inDegree, queue);
    }

    /** Kahn's algorithm.  None is the thrown "cyclic dependency" error. */
    method TopologicalOrder() returns (result: Option<seq<Id>>)
      requires Valid()
      ensures result.Some? <==> Sortable(View())
      ensures result.Some? ==> IsTopologicalOrder(View(), result.value)
    {
      hide KahnScan, KahnState, Sortable, IsTopologicalOrder, NoDup, Elems;
      ghost var g := View();
      var inDegree, queue := InitialDegrees(g);
      var out: seq<Id> := [];
      while |queue| > 0
        invariant KahnState(g, inDegree, out, queue)
        decreases |g.nodes| - |out|
      {
        KahnShort(g, inDegree, out, queue);
        KahnPop(g, inDegree, out, queue);
        var current := queue[0];
        ghost var done := Elems(out);
        queue, out := queue[1..], out + [current];
        inDegree, queue := ReleaseDependents(current, inDegree, queue, g, done, out);
      }
      assert queue == [];
      KahnFinish(g, inDegree, out);
      assert g.nodes.Keys == tasks.Keys;
      if |out| != |tasks| {
        return None;
      }
      return Some(out);
    }
  }
}
