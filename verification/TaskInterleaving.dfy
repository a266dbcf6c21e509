/** Many marketplace tasks at once: adapters take turns between the lock of a task and its release or refund. */
module TaskInterleaving {
  import opened Collections
  import opened Persistence
  import opened Ledgers
  import opened TaskHandling

  /** What the tasks do to the books, one step at a time; j is a place among the tasks in flight. */
  datatype Act =
    | Start(task: Task, up: bool)
    | Deliver(j: nat, w: Work, up: bool)
    | GiveBack(j: nat, up: bool)
    | Fallback

  /** `open` are the tasks whose funds are locked, `kept` what released tasks left in escrow. */
  datatype World = World(s: Store, open: seq<Task>, kept: int)

  function Amount(task: Task): int {
    Round8(task.budgetEstimateUsd)
  }

  function Remove(tasks: seq<Task>, j: nat): seq<Task>
    requires j < |tasks|
  {
    tasks[..j] + tasks[j + 1..]
  }

  ghost predicate Possible(w: World, a: Act) {
    match a
    case Deliver(j, work, _) =>
      j < |w.open| && work.Delivered? && NonNegativeInput(ReleaseOf(w.open[j], work))
    case GiveBack(j, _) => j < |w.open|
    case _ => true
  }

  /** A release that is refused posts nothing and leaves the task to be refunded. */
  function Step(chart: Chart, w: World, a: Act): World
    requires a.Deliver? ==> a.j < |w.open| && a.w.Delivered?
    requires a.GiveBack? ==> a.j < |w.open|
  {
    match a
    case Start(task, up) =>
      World(After(chart, w.s, LockOp(task), Link(true, up)), if Lockable(task) then w.open + [task] else w.open, w.kept)
    case Deliver(j, work, up) =>
      var i := ReleaseOf(w.open[j], work);
      var s' := After(chart, w.s, Release(i), Link(true, up));
      (match ReleasePlan(i)
       case Post(_) => World(s', Remove(w.open, j), w.kept + Amount(w.open[j]) - Round8(work.revenueUsd))
       case Nothing => World(s', Remove(w.open, j), w.kept + Amount(w.open[j]))
       case Refuse => w.(s := s'))
    case GiveBack(j, up) =>
      World(After(chart, w.s, RefundOp(w.open[j]), Link(true, up)), Remove(w.open, j), w.kept)
    case Fallback => w.(s := Queried(w.s, false))
  }

  function InFlight(tasks: seq<Task>): int {
    if tasks == [] then 0 else InFlight(tasks[..|tasks| - 1]) + Amount(tasks[|tasks| - 1])
  }

  lemma {:induction false} InFlightRemove(tasks: seq<Task>, j: nat)
    requires j < |tasks|
    ensures InFlight(Remove(tasks, j)) == InFlight(tasks) - Amount(tasks[j])
  {
    hide Round8;
    var n := |tasks| - 1;
    if j == n {
      assert Remove(tasks, j) == tasks[..n];
    } else {
      InFlightRemove(tasks[..n], j);
      var rest := Remove(tasks, j);
      assert rest[..n - 1] == Remove(tasks[..n], j) && rest[n - 1] == tasks[n];
    }
  }

  /** Escrow holds the locks in flight and what released tasks left there; only lockable tasks are in flight. */
  ghost predicate Balances(chart: Chart, w: World, base: int) {
    && (forall k :: 0 <= k < |w.open| ==> Lockable(w.open[k]))
    && TotalBalance(chart, w.s, "escrow_pending") == base + InFlight(w.open) + w.kept
  }

  lemma EscrowIsAsset()
    ensures "escrow_pending" in MEMORY_CHART && MEMORY_CHART["escrow_pending"] == Asset
  {
  }

  /** What a lock and a refund move on the escrow account. */
  lemma LockAndRefundMove(task: Task)
    ensures Moved(MEMORY_CHART, LockTx(task).entries, "escrow_pending") == Amount(task)
    ensures Moved(MEMORY_CHART, RefundTx(task).entries, "escrow_pending") == -Amount(task)
  {
    EscrowIsAsset();
    AdapterWallet(task.adapterId, Amounts(0, 0, 0, 0));
    MovedPair(MEMORY_CHART, LockTx(task).entries, "escrow_pending");
    MovedPair(MEMORY_CHART, RefundTx(task).entries, "escrow_pending");
    hide MEMORY_CHART, WalletCodeFor, Round8;
  }

  /** The release of one task as a task with that work alone would post it. */
  function Alone(work: Work, up: bool): Env {
    Env(Accepted, None, work, true, up, true)
  }

  lemma ReleaseMoves(chart: Chart, s: Store, task: Task, work: Work, up: bool)
    requires Agree(chart) && Lockable(task) && work.Delivered? && NonNegativeInput(ReleaseOf(task, work))
    ensures var i, code := ReleaseOf(task, work), "escrow_pending";
      TotalBalance(chart, After(chart, s, Release(i), Link(true, up)), code) ==
      TotalBalance(chart, s, code) - if ReleasePlan(i).Post? then Round8(work.revenueUsd) else 0
  {
    var i, env := ReleaseOf(task, work), Alone(work, up);
    var a := Rounded(i);
    EscrowIsAsset();
    RoundedNonNegative(i);
    AdapterWallet(task.adapterId, a);
    assert Deciding(env) == work;
    hide MEMORY_CHART, ReleasePlan, Lines, Adjusted, Round8, AllKnown, Written, TotalBalance, Moved, Agree;
    ReleaseWrites(chart, s, task, env);
    if ReleasePlan(i).Post? {
      var tx := ReleasePlan(i).tx;
      PostedReleaseIsLines(task, env);
      TaskEntriesKnown(task, env);
      WriteMoves(chart, s, tx, up, "escrow_pending");
      ReleaseMovesRevenue(MEMORY_CHART, ReleaseHead(a), WalletOf(i), a);
    }
  }

  lemma StepBalances(chart: Chart, w: World, a: Act, base: int)
    requires Agree(chart) && Balances(chart, w, base) && Possible(w, a)
    ensures Balances(chart, Step(chart, w, a), base)
  {
    hide MEMORY_CHART, Balance, Agree, Round8, After, Written, ReleasePlan, LockEntries, RefundEntries, InFlight, Moved;
    var w' := Step(chart, w, a);
    match a
    case Start(task, up) =>
      LockWrites(chart, w.s, task, up);
      if Lockable(task) {
        TaskEntriesKnown(task, Alone(Throws, up));
        WriteMoves(chart, w.s, LockTx(task), up, "escrow_pending");
        LockAndRefundMove(task);
        OneMoreInFlight(w.open, task);
      }
    case Deliver(j, work, up) =>
      ReleaseMoves(chart, w.s, w.open[j], work, up);
      InFlightRemove(w.open, j);
    case GiveBack(j, up) =>
      RefundWrites(chart, w.s, w.open[j], up);
      TaskEntriesKnown(w.open[j], Alone(Throws, up));
      WriteMoves(chart, w.s, RefundTx(w.open[j]), up, "escrow_pending");
      LockAndRefundMove(w.open[j]);
      InFlightRemove(w.open, j);
    case Fallback =>
  }

  lemma OneMoreInFlight(tasks: seq<Task>, task: Task)
    ensures InFlight(tasks + [task]) == InFlight(tasks) + Amount(task)
  {
    assert (tasks + [task])[..|tasks|] == tasks;
  }

  ghost function Run(chart: Chart, w: World, acts: seq<Act>): World
    requires PossibleRun(chart, w, acts)
    decreases |acts|
  {
    if acts == [] then w else Run(chart, Step(chart, w, acts[0]), acts[1..])
  }

  ghost predicate PossibleRun(chart: Chart, w: World, acts: seq<Act>)
    decreases |acts|
  {
    acts != [] ==> Possible(w, acts[0]) && PossibleRun(chart, Step(chart, w, acts[0]), acts[1..])
  }

  lemma {:induction false} RunBalances(chart: Chart, w: World, acts: seq<Act>, base: int)
    requires Agree(chart) && Balances(chart, w, base) && PossibleRun(chart, w, acts)
    ensures Balances(chart, Run(chart, w, acts), base)
    decreases |acts|
  {
    hide Balances, Step, Agree;
    if acts != [] {
      StepBalances(chart, w, acts[0], base);
      RunBalances(chart, Step(chart, w, acts[0]), acts[1..], base);
    }
  }

  /** In any interleaving of any number of tasks, with any failures of Postgres: escrow holds, over both stores, the
      locks in flight plus, for each released task, its lock minus its revenue; nothing of a refunded task stays. */
  lemma EscrowHoldsTheTasksInFlight(chart: Chart, s: Store, acts: seq<Act>)
    requires Agree(chart) && PossibleRun(chart, World(s, [], 0), acts)
    ensures var w := Run(chart, World(s, [], 0), acts);
      TotalBalance(chart, w.s, "escrow_pending") ==
      TotalBalance(chart, s, "escrow_pending") + InFlight(w.open) + w.kept
  {
    hide TotalBalance, Agree, Run, PossibleRun;
    RunBalances(chart, World(s, [], 0), acts, TotalBalance(chart, s, "escrow_pending"));
  }

  /** The steps of one accepted task, taken together. */
  function StepsOf(task: Task, env: Env): seq<Act> {
    if !Lockable(task) then [Start(task, env.lockUp)]
    else match Deciding(env)
      case Delivered(_, _, _) =>
        [Start(task, env.lockUp), Deliver(0, Deciding(env), env.releaseUp)]
        + if TrailOf(task, env) == LockRefunded then [GiveBack(0, env.refundUp)] else []
      case _ => [Start(task, env.lockUp), GiveBack(0, env.refundUp)]
  }

  /** Without interruption these steps are what handling the task does. */
  lemma HandlingIsItsSteps(chart: Chart, s: Store, task: Task, env: Env)
    requires env.gate.Accepted?
    requires Deciding(env).Delivered? ==> NonNegativeInput(ReleaseOf(task, Deciding(env)))
    ensures PossibleRun(chart, World(s, [], 0), StepsOf(task, env))
    ensures Run(chart, World(s, [], 0), StepsOf(task, env)).s == Handled(chart, s, task, env)
  {
    hide After, PostingOf, Written, ReleasePlan, Round8, NonNegativeInput;
    var w, acts := World(s, [], 0), StepsOf(task, env);
    LockWrites(chart, s, task, env.lockUp);
    var w1 := Step(chart, w, acts[0]);
    assert [] + [task] == [task];
    if Lockable(task) {
      assert w1.open == [task];
      var w2 := Step(chart, w1, acts[1]);
      if Deciding(env).Delivered? {
        ReleaseWrites(chart, w1.s, task, env);
        assert acts[1..][0] == acts[1];
        if TrailOf(task, env) == LockRefunded {
          assert w2.open == [task];
          assert acts[1..][1..] == [acts[2]] && [acts[2]][1..] == [];
          LastStep(chart, w2, acts[2]);
        } else {
          assert acts[1..][1..] == [];
        }
        LastButOne(chart, w1, acts[1..]);
      } else {
        assert acts[1..] == [acts[1]];
        LastStep(chart, w1, acts[1]);
      }
    } else {
      assert acts[1..] == [];
    }
    LastButOne(chart, w, acts);
  }

  lemma LastStep(chart: Chart, w: World, a: Act)
    requires Possible(w, a)
    ensures PossibleRun(chart, w, [a]) && Run(chart, w, [a]) == Step(chart, w, a)
  {
    hide Step;
    assert [a][1..] == [];
  }

  lemma LastButOne(chart: Chart, w: World, acts: seq<Act>)
    requires acts != [] && Possible(w, acts[0]) && PossibleRun(chart, Step(chart, w, acts[0]), acts[1..])
    ensures PossibleRun(chart, w, acts) && Run(chart, w, acts) == Run(chart, Step(chart, w, acts[0]), acts[1..])
  {
    hide Step;
  }
}
