/** The ledger side of handling one marketplace task: lock, then release or refund. */
module TaskHandling {
  import opened Collections
  import opened Persistence
  import opened Ledgers

  datatype Task = Task(taskId: string, adapterId: string, budgetEstimateUsd: real)

  /** How far a task gets before its funds are locked.  A call to the adapter may throw instead of answering. */
  datatype Gate =
    | Draining(rejectThrows: bool)
    | TriageThrows
    | NotAccepted(rejectThrows: bool)
    | OverBudget(rejectThrows: bool)
    | AcceptThrows
    | AcceptRefused
    | Accepted

  /** How a way of doing the work ends; a delivery that throws counts as Throws. */
  datatype Work = Throws | Fails | Delivered(revenueUsd: real, platformFeeUsd: real, costUsd: real)

  /** `fast` is the deterministic tool path when it is taken, `main` the delegated or standard path; the last three say
      whether Postgres is reachable when the task gets to writing. */
  datatype Env = Env(gate: Gate, fast: Option<Work>, main: Work, lockUp: bool, releaseUp: bool, refundUp: bool)

  function ReleaseOf(task: Task, w: Work): Settlement
    requires w.Delivered?
  {
    SettlementInput(task.taskId, task.adapterId, w.revenueUsd, w.platformFeeUsd, w.costUsd, 0.0, None)
  }

  function LockOp(task: Task): Op {
    Lock(task.taskId, task.adapterId, task.budgetEstimateUsd)
  }

  function RefundOp(task: Task): Op {
    Refund(task.taskId, task.adapterId, task.budgetEstimateUsd)
  }

  /** Posts the release of delivered work; true when that throws. */
  method PostRelease(ledger: Ledger, task: Task, w: Work, up: bool) returns (threw: bool)
    requires w.Delivered?
    modifies ledger.db
    ensures ledger.db.View() ==
      After(ledger.db.chart, old(ledger.db.View()), Release(ReleaseOf(task, w)), Link(true, up))
    ensures threw <==>
      PostingOf(ledger.db.chart, old(ledger.db.View()), Release(ReleaseOf(task, w)), Link(true, up)) == Threw
  {
    var r := ledger.ReleaseFunds(ReleaseOf(task, w), Link(true, up));
    threw := r == Threw;
  }

  /** The body of the try block; true when it throws. */
  method TryTask(ledger: Ledger, task: Task, env: Env) returns (threw: bool)
    requires !env.gate.Draining?
    modifies ledger.db
    ensures (ledger.db.View(), threw) == Tried(ledger.db.chart, old(ledger.db.View()), task, env)
  {
    hide After, PostingOf;
    match env.gate
    case TriageThrows => return true;
    case NotAccepted(rejectThrows) => return rejectThrows;
    case OverBudget(rejectThrows) => return rejectThrows;
    case AcceptThrows => return true;
    case AcceptRefused => return false;
    case Accepted =>
      var lock := ledger.LockFunds(task.taskId, task.adapterId, task.budgetEstimateUsd, Link(true, env.lockUp));
      if lock != Posted {
        return false;
      }
      if env.fast.Some? {
        match env.fast.value
        case Throws => return true;
        case Delivered(_, _, _) =>
          threw := PostRelease(ledger, task, env.fast.value, env.releaseUp);
          return;
        case Fails =>
      }
      match env.main
      case Throws => return true;
      case Delivered(_, _, _) =>
        threw := PostRelease(ledger, task, env.main, env.releaseUp);
        return;
      case Fails =>
        var refund :=
          ledger.RefundFunds(task.taskId, task.adapterId, task.budgetEstimateUsd, Link(true, env.refundUp));
        return false;
  }

  /** The whole task; true when the exception is thrown on to the polling loop. */
  method HandleTask(ledger: Ledger, task: Task, env: Env) returns (rethrows: bool)
    modifies ledger.db
    ensures ledger.db.View() == Handled(ledger.db.chart, old(ledger.db.View()), task, env)
    ensures rethrows <==> Rethrows(task, env)
  {
    ThrowsAlike(ledger.db.chart, ledger.db.View(), task, env);
    hide Tried, Rethrows, After;
    if env.gate.Draining? {
      return env.gate.rejectThrows;
    }
    rethrows := TryTask(ledger, task, env);
    if rethrows {
      var refund :=
        ledger.RefundFunds(task.taskId, task.adapterId, task.budgetEstimateUsd, Link(true, env.refundUp));
    }
  }

  // ----- The same as a function -----

  /** The work that decides: the fast path unless it is not taken or fails. */
  function Deciding(env: Env): Work {
    if env.fast.Some? && env.fast.value != Fails then env.fast.value else env.main
  }

  predicate GateThrows(g: Gate) {
    match g
    case TriageThrows => true
    case NotAccepted(rejectThrows) => rejectThrows
    case OverBudget(rejectThrows) => rejectThrows
    case AcceptThrows => true
    case _ => false
  }

  function Refunded(chart: Chart, s: Store, task: Task, env: Env): Store {
    After(chart, s, RefundOp(task), Link(true, env.refundUp))
  }

  function Tried(chart: Chart, s: Store, task: Task, env: Env): (Store, bool) {
    if !env.gate.Accepted? then (s, GateThrows(env.gate))
    else
      var link := Link(true, env.lockUp);
      var s1 := After(chart, s, LockOp(task), link);
      if PostingOf(chart, s, LockOp(task), link) != Posted then (s1, false)
      else match Deciding(env)
        case Throws => (s1, true)
        case Fails => (Refunded(chart, s1, task, env), false)
        case Delivered(_, _, _) =>
          var release := Release(ReleaseOf(task, Deciding(env)));
          (After(chart, s1, release, Link(true, env.releaseUp)),
           PostingOf(chart, s1, release, Link(true, env.releaseUp)) == Threw)
  }

  function Handled(chart: Chart, s: Store, task: Task, env: Env): Store {
    if env.gate.Draining? then s
    else
      var (s', threw) := Tried(chart, s, task, env);
      if threw then Refunded(chart, s', task, env) else s'
  }

  // ----- What a task leaves in the books -----

  function LockTx(task: Task): Transaction {
    Transaction(task.taskId, Pending, LockEntries(task.adapterId, Round8(task.budgetEstimateUsd)))
  }

  function RefundTx(task: Task): Transaction {
    Transaction(task.taskId, FailedTask, RefundEntries(task.adapterId, Round8(task.budgetEstimateUsd)))
  }

  predicate Lockable(task: Task) {
    Round8(task.budgetEstimateUsd) > 0
  }

  /** Whether the exception reaches the polling loop, which is no matter of the database. */
  predicate Rethrows(task: Task, env: Env) {
    match env.gate
    case Draining(rejectThrows) => rejectThrows
    case Accepted =>
      && Lockable(task)
      && (Deciding(env).Throws? || (Deciding(env).Delivered? && ReleasePlan(ReleaseOf(task, Deciding(env))).Refuse?))
    case _ => GateThrows(env.gate)
  }

  datatype Trail =
    | NoTrail                          // nothing was posted
    | LockReleased(tx: Transaction)
    | LockRefunded
    | LockLeft                         // the release of nothing posted nothing
    | RefundOnly                       // an exception before the lock

  function TransactionsOf(task: Task, t: Trail): seq<Transaction> {
    match t
    case NoTrail => []
    case LockReleased(tx) => [LockTx(task), tx]
    case LockRefunded => [LockTx(task), RefundTx(task)]
    case LockLeft => [LockTx(task)]
    case RefundOnly => [RefundTx(task)]
  }

  function UpsOf(env: Env, t: Trail): seq<bool> {
    match t
    case NoTrail => []
    case LockReleased(_) => [env.lockUp, env.releaseUp]
    case LockRefunded => [env.lockUp, env.refundUp]
    case LockLeft => [env.lockUp]
    case RefundOnly => [env.refundUp]
  }

  /** Which of the trails a task leaves: a matter of the gate, the work and the amounts alone. */
  function TrailOf(task: Task, env: Env): Trail {
    if !Lockable(task) then NoTrail
    else if GateThrows(env.gate) then RefundOnly
    else if !env.gate.Accepted? then NoTrail
    else match Deciding(env)
      case Delivered(_, _, _) =>
        (match ReleasePlan(ReleaseOf(task, Deciding(env)))
         case Post(tx) => LockReleased(tx)
         case Nothing => LockLeft
         case Refuse => LockRefunded)
      case _ => LockRefunded
  }

  /** The work is delivered by the fast path, or by the main one if the fast one is not taken or fails. */
  predicate Delivers(env: Env, revenueUsd: real, platformFeeUsd: real, costUsd: real) {
    || env.fast == Some(Delivered(revenueUsd, platformFeeUsd, costUsd))
    || (env.fast in {None, Some(Fails)} && env.main == Delivered(revenueUsd, platformFeeUsd, costUsd))
  }

  /** Which trail a task leaves, read off the gate, the two ways of doing the work and the rounded amounts. */
  lemma TrailIff(task: Task, env: Env, revenueUsd: real, platformFeeUsd: real, costUsd: real)
    requires revenueUsd >= 0.0 && platformFeeUsd >= 0.0 && costUsd >= 0.0
    ensures var t, delivers := TrailOf(task, env), Delivers(env, revenueUsd, platformFeeUsd, costUsd);
      var revenue, costs := Round8(revenueUsd), Round8(platformFeeUsd) + Round8(costUsd);
      && (t == NoTrail <==>
            || Round8(task.budgetEstimateUsd) <= 0
            || env.gate.Draining? || env.gate == AcceptRefused
            || env.gate == NotAccepted(false) || env.gate == OverBudget(false))
      && (t == RefundOnly <==>
            && Round8(task.budgetEstimateUsd) > 0
            && env.gate in {TriageThrows, AcceptThrows, NotAccepted(true), OverBudget(true)})
      && (t.LockReleased? || t == LockRefunded || t == LockLeft <==>
            Round8(task.budgetEstimateUsd) > 0 && env.gate == Accepted)
      && (t.LockReleased? || t == LockRefunded || t == LockLeft ==>
            && (delivers ==> (t.LockReleased? <==> revenue > 0 && revenue >= costs))
            && (delivers ==> (t == LockLeft <==> revenue == 0 && costs == 0))
            && (env.fast == Some(Throws) || (env.fast in {None, Some(Fails)} && env.main in {Throws, Fails}) ==>
                  t == LockRefunded))
  {
    if env.gate.Accepted? && Lockable(task) && Delivers(env, revenueUsd, platformFeeUsd, costUsd) {
      NothingOwed();
      DeliveredIsReleasedIff(task, env);
    }
    hide Round8, ReleasePlan;
  }

  /** When the polling loop sees an exception: from the gate, from the way of doing the work that decides, or from the
      release of work that costs more than it brings. */
  lemma RethrowsIff(task: Task, env: Env, revenueUsd: real, platformFeeUsd: real, costUsd: real)
    requires revenueUsd >= 0.0 && platformFeeUsd >= 0.0 && costUsd >= 0.0
    requires forall r, f, c :: Delivers(env, r, f, c) ==> Delivers(env, revenueUsd, platformFeeUsd, costUsd)
    ensures Rethrows(task, env) <==>
      || env.gate in {Draining(true), TriageThrows, AcceptThrows, NotAccepted(true), OverBudget(true)}
      || (&& env.gate == Accepted && Round8(task.budgetEstimateUsd) > 0
          && (|| env.fast == Some(Throws)
              || (env.fast in {None, Some(Fails)} && env.main == Throws)
              || (Delivers(env, revenueUsd, platformFeeUsd, costUsd) &&
                    Round8(revenueUsd) < Round8(platformFeeUsd) + Round8(costUsd))))
  {
    var w := Deciding(env);
    if w.Delivered? {
      assert Delivers(env, w.revenueUsd, w.platformFeeUsd, w.costUsd);
      TrailIff(task, env, revenueUsd, platformFeeUsd, costUsd);
      if env.gate.Accepted? && Lockable(task) {
        NothingOwed();
        DeliveredIsReleasedIff(task, env);
      }
    }
    hide Round8, ReleasePlan;
  }

  lemma NothingOwed()
    ensures Round8(0.0) == 0
  {
  }

  /** Transactions written one after the other. */
  function WrittenAll(chart: Chart, s: Store, txs: seq<Transaction>, ups: seq<bool>): Store
    requires |txs| == |ups|
    decreases |txs|
  {
    if txs == [] then s else WrittenAll(chart, Written(chart, s, txs[0], ups[0]), txs[1..], ups[1..])
  }

  /** What a task posts fits the in-memory store, so none of its writes throws. */
  lemma TaskEntriesKnown(task: Task, env: Env)
    ensures AllKnown(MEMORY_CHART, LockTx(task).entries) && AllKnown(MEMORY_CHART, RefundTx(task).entries)
    ensures TrailOf(task, env).LockReleased? ==> AllKnown(MEMORY_CHART, TrailOf(task, env).tx.entries)
  {
    FixedAccountsKnown();
    hide MEMORY_CHART, ReleasePlan;
    if TrailOf(task, env).LockReleased? {
      PlansKnown([], Release(ReleaseOf(task, Deciding(env))));
    }
  }

  lemma ThrowsAlike(chart: Chart, s: Store, task: Task, env: Env)
    ensures env.gate.Draining? || (Tried(chart, s, task, env).1 <==> Rethrows(task, env))
  {
    TaskEntriesKnown(task, env);
    hide MEMORY_CHART, ReleasePlan, AllKnown, PostgresTakes, LockEntries, Round8;
  }

  lemma WriteTwo(chart: Chart, s: Store, x: Transaction, y: Transaction, u: bool, v: bool)
    ensures WrittenAll(chart, s, [], []) == s
    ensures WrittenAll(chart, s, [x], [u]) == Written(chart, s, x, u)
    ensures WrittenAll(chart, s, [x, y], [u, v]) == Written(chart, Written(chart, s, x, u), y, v)
  {
    hide Written;
    var s1 := Written(chart, s, x, u);
    assert [x][1..] == [] && [u][1..] == [] && [x, y][1..] == [y] && [u, v][1..] == [v];
    assert [y][1..] == [] && [v][1..] == [];
    assert WrittenAll(chart, s1, [y], [v]) == Written(chart, s1, y, v);
  }

  lemma LockWrites(chart: Chart, s: Store, task: Task, up: bool)
    ensures After(chart, s, LockOp(task), Link(true, up)) ==
      if Lockable(task) then Written(chart, s, LockTx(task), up) else s
    ensures PostingOf(chart, s, LockOp(task), Link(true, up)) == if Lockable(task) then Posted else Skipped
  {
    FixedAccountsKnown();
    hide MEMORY_CHART, WalletCodeFor, PostgresTakes, Written;
  }

  lemma RefundWrites(chart: Chart, s: Store, task: Task, up: bool)
    ensures After(chart, s, RefundOp(task), Link(true, up)) ==
      if Lockable(task) then Written(chart, s, RefundTx(task), up) else s
  {
    hide Written;
  }

  /** Handling a task posts a lock and a release, a lock and a refund, or one of the degenerate trails; never a release
      and a refund.  Failures of Postgres decide which store gets them, not whether they are posted. */
  lemma TaskLeavesTrail(chart: Chart, s: Store, task: Task, env: Env)
    ensures var t := TrailOf(task, env);
      Handled(chart, s, task, env) == WrittenAll(chart, s, TransactionsOf(task, t), UpsOf(env, t))
  {
    if env.gate.Accepted? && Lockable(task) {
      LockedTaskLeavesTrail(chart, s, task, env);
    } else {
      LockWrites(chart, s, task, env.lockUp);
      RefundWrites(chart, s, task, env.refundUp);
      WriteTwo(chart, s, RefundTx(task), RefundTx(task), env.refundUp, env.refundUp);
    }
    hide After, PostingOf, Written, WrittenAll, ReleasePlan, LockTx, RefundTx, Lockable, ReleaseOf, LockOp, RefundOp;
  }

  lemma LockedTaskLeavesTrail(chart: Chart, s: Store, task: Task, env: Env)
    requires env.gate.Accepted? && Lockable(task)
    ensures var t := TrailOf(task, env);
      Handled(chart, s, task, env) == WrittenAll(chart, s, TransactionsOf(task, t), UpsOf(env, t))
  {
    var s1, t := Written(chart, s, LockTx(task), env.lockUp), TrailOf(task, env);
    LockWrites(chart, s, task, env.lockUp);
    RefundWrites(chart, s1, task, env.refundUp);
    WriteTwo(chart, s, LockTx(task), RefundTx(task), env.lockUp, env.refundUp);
    if Deciding(env).Delivered? {
      ReleaseWrites(chart, s1, task, env);
      if t.LockReleased? {
        WriteTwo(chart, s, LockTx(task), t.tx, env.lockUp, env.releaseUp);
      }
    }
    hide After, PostingOf, Written, WrittenAll, ReleasePlan, LockTx, RefundTx, Lockable, ReleaseOf, LockOp, RefundOp;
  }

  lemma ReleaseWrites(chart: Chart, s: Store, task: Task, env: Env)
    requires env.gate.Accepted? && Lockable(task) && Deciding(env).Delivered?
    ensures var op, link, t := Release(ReleaseOf(task, Deciding(env))), Link(true, env.releaseUp), TrailOf(task, env);
      && (PostingOf(chart, s, op, link) == Threw <==> t.LockRefunded?)
      && After(chart, s, op, link) == if t.LockReleased? then Written(chart, s, t.tx, env.releaseUp) else s
  {
    TaskEntriesKnown(task, env);
    hide MEMORY_CHART, AllKnown, PostgresTakes, Written, ReleasePlan;
  }

  /** Each transaction of a task is in exactly one store, whole: from some point on in memory. */
  lemma {:induction false} WrittenInOrder(chart: Chart, s: Store, txs: seq<Transaction>, ups: seq<bool>)
    returns (k: nat)
    requires |txs| == |ups| && forall i :: 0 <= i < |txs| ==> AllKnown(MEMORY_CHART, txs[i].entries)
    ensures k <= |txs|
    ensures var s' := WrittenAll(chart, s, txs, ups);
      && s'.postgres == s.postgres + txs[..k]
      && s'.memory == s.memory + txs[k..]
      && (s'.mock <==> s.mock || k < |txs|)
      && (s.mock ==> k == 0)
    decreases |txs|
  {
    hide MEMORY_CHART, AllKnown, Written;
    k := 0;
    if txs != [] {
      var x, rest, s1 := txs[0], txs[1..], Written(chart, s, txs[0], ups[0]);
      assert forall i :: 0 <= i < |rest| ==> rest[i] == txs[i + 1];
      var j := WrittenInOrder(chart, s1, rest, ups[1..]);
      WrittenOnce(chart, s, x, ups[0]);
      hide WrittenAll;
      if !s1.mock {
        k := j + 1;
      }
      assert txs[..j + 1] == [x] + rest[..j] && txs[j + 1..] == rest[j..] && txs == [x] + rest;
      Regroup(s.postgres, x, rest[..j]);
      Regroup(s.memory, x, rest[j..]);
    }
  }

  lemma WrittenOnce(chart: Chart, s: Store, tx: Transaction, up: bool)
    requires AllKnown(MEMORY_CHART, tx.entries)
    ensures var s' := Written(chart, s, tx, up);
      if s'.mock then s' == Store(true, s.postgres, s.memory + [tx])
      else !s.mock && s' == s.(postgres := s.postgres + [tx])
  {
  }

  lemma Regroup(a: seq<Transaction>, x: Transaction, b: seq<Transaction>)
    ensures a + [x] + b == a + ([x] + b)
  {
  }

  /** For every task: what it adds to Postgres and what it adds in memory are together the transactions of its trail. */
  lemma TrailIsSplitOverStores(chart: Chart, s: Store, task: Task, env: Env) returns (k: nat)
    ensures var s', txs := Handled(chart, s, task, env), TransactionsOf(task, TrailOf(task, env));
      && k <= |txs|
      && s'.postgres == s.postgres + txs[..k]
      && s'.memory == s.memory + txs[k..]
      && (s'.mock <==> s.mock || k < |txs|)
      && (s.mock ==> k == 0)
  {
    hide MEMORY_CHART, Handled, TrailOf, WrittenAll, AllKnown, LockTx, RefundTx;
    TaskLeavesTrail(chart, s, task, env);
    TaskEntriesKnown(task, env);
    k := WrittenInOrder(chart, s, TransactionsOf(task, TrailOf(task, env)), UpsOf(env, TrailOf(task, env)));
  }

  /** A delivered task is released exactly when its rounded revenue covers its rounded costs and there is revenue. */
  lemma DeliveredIsReleasedIff(task: Task, env: Env)
    requires env.gate.Accepted? && Lockable(task)
    requires Deciding(env).Delivered? && NonNegativeInput(ReleaseOf(task, Deciding(env)))
    ensures var a, t := Rounded(ReleaseOf(task, Deciding(env))), TrailOf(task, env);
      && (t.LockReleased? <==> a.revenue > 0 && a.revenue >= Costs(a))
      && (t.LockLeft? <==> a.revenue == 0 && Costs(a) == 0)
      && (t.LockRefunded? <==> a.revenue < Costs(a))
  {
    var i := ReleaseOf(task, Deciding(env));
    var a := Rounded(i);
    RoundedNonNegative(i);
    HeadsAreHeads(a);
    AdapterWallet(task.adapterId, a);
    EntriesBalanceIff(ReleaseHead(a), WalletOf(i), a);
    NothingToRelease(a, WalletOf(i));
    AdjustedKeepsAccounts(map[], Lines(ReleaseHead(a), WalletOf(i), a), WalletOf(i));
    hide Adjusted, Lines, Round8, Balanced, CostOn, WalletCodeFor, ReleaseHead;
  }

  // ----- Balances over both stores -----

  /** Both charts mean the same by an account they share. */
  ghost predicate Agree(chart: Chart) {
    forall c :: c in chart && c in MEMORY_CHART ==> chart[c] == MEMORY_CHART[c]
  }

  /** What an account holds in the two stores together. */
  function TotalBalance(chart: Chart, s: Store, code: string): int {
    Balance(chart, s.postgres, code) + Balance(MEMORY_CHART, s.memory, code)
  }

  lemma {:induction false} MovedAlike(chart: Chart, entries: seq<Entry>, code: string)
    requires Agree(chart) && AllKnown(chart, entries) && AllKnown(MEMORY_CHART, entries)
    ensures Moved(chart, entries, code) == Moved(MEMORY_CHART, entries, code)
  {
    hide MEMORY_CHART;
    if entries != [] {
      assert entries[0].accountCode in chart;
      assert forall i :: 0 <= i < |entries[1..]| ==> entries[1..][i] == entries[i + 1];
      MovedAlike(chart, entries[1..], code);
    }
  }

  lemma WriteMoves(chart: Chart, s: Store, tx: Transaction, up: bool, code: string)
    requires Agree(chart) && AllKnown(MEMORY_CHART, tx.entries)
    ensures TotalBalance(chart, Written(chart, s, tx, up), code) ==
      TotalBalance(chart, s, code) + Moved(MEMORY_CHART, tx.entries, code)
  {
    hide MEMORY_CHART, Moved, Balance, Agree;
    if PostgresTakes(chart, s, tx, up) {
      MovedAlike(chart, tx.entries, code);
      BalanceStep(chart, s.postgres, tx, code);
    } else {
      BalanceStep(MEMORY_CHART, s.memory, tx, code);
    }
  }

  /** A refunded task leaves every balance over both stores where it was; and in the store that answers too, unless
      Postgres was lost on the way. */
  lemma RefundedTaskRestoresBalances(chart: Chart, s: Store, task: Task, env: Env, code: string)
    requires TrailOf(task, env) == LockRefunded
    ensures var s' := Handled(chart, s, task, env);
      && (Agree(chart) ==> TotalBalance(chart, s', code) == TotalBalance(chart, s, code))
      && (s'.mock == s.mock ==>
            Balance(ActiveChart(chart, s'), Active(s'), code) == Balance(ActiveChart(chart, s), Active(s), code))
  {
    hide Balance, Moved, Handled, TrailOf, LockEntries, RefundEntries, MEMORY_CHART, AllKnown, AllAcceptable;
    var x, y, amount := LockTx(task), RefundTx(task), Round8(task.budgetEstimateUsd);
    TaskEntriesKnown(task, env);
    TaskLeavesTrail(chart, s, task, env);
    WriteTwo(chart, s, x, y, env.lockUp, env.refundUp);
    RefundUndoesLock(MEMORY_CHART, task.adapterId, amount, code);
    if Agree(chart) {
      WriteMoves(chart, s, x, env.lockUp, code);
      WriteMoves(chart, Written(chart, s, x, env.lockUp), y, env.refundUp, code);
    }
    BothMove(ActiveChart(chart, s), Active(s), x, y, code);
    RefundUndoesLock(ActiveChart(chart, s), task.adapterId, amount, code);
  }

  lemma BothMove(chart: Chart, txs: seq<Transaction>, x: Transaction, y: Transaction, code: string)
    ensures Balance(chart, txs + [x] + [y], code) ==
      Balance(chart, txs, code) + Moved(chart, x.entries, code) + Moved(chart, y.entries, code)
  {
    BalanceStep(chart, txs, x, code);
    BalanceStep(chart, txs + [x], y, code);
  }

  lemma {:induction false} MovedConcat(chart: Chart, x: seq<Entry>, y: seq<Entry>, code: string)
    ensures Moved(chart, x + y, code) == Moved(chart, x, code) + Moved(chart, y, code)
  {
    if x == [] {
      assert x + y == y;
    } else {
      assert (x + y)[0] == x[0] && (x + y)[1..] == x[1..] + y;
      MovedConcat(chart, x[1..], y, code);
    }
  }

  lemma OtherCode(chart: Chart, other: string, amount: int, code: string)
    requires other != code
    ensures Moved(chart, DebitIf(other, amount), code) == 0
  {
    if amount > 0 {
      assert DebitIf(other, amount)[1..] == [];
    }
  }

  /** A release takes the receipt's revenue out of escrow and nothing else. */
  lemma ReleaseMovesRevenue(chart: Chart, head: seq<Entry>, wallet: string, a: Amounts)
    requires "escrow_pending" in chart && chart["escrow_pending"] == Asset && wallet != "escrow_pending"
    requires NonNegative(a) && head == ReleaseHead(a)
    ensures Moved(chart, Lines(head, wallet, a), "escrow_pending") == -a.revenue
  {
    hide Moved, DebitIf, Net;
    var c := "escrow_pending";
    var n, f, e, g := DebitIf(wallet, Net(a)), DebitIf("platform_fee", a.fee), DebitIf("execution_cost", a.execution),
      DebitIf("gas_cost", a.gas);
    OtherCode(chart, wallet, Net(a), c);
    OtherCode(chart, "platform_fee", a.fee, c);
    OtherCode(chart, "execution_cost", a.execution, c);
    OtherCode(chart, "gas_cost", a.gas, c);
    MovedConcat(chart, head + n + f + e, g, c);
    MovedConcat(chart, head + n + f, e, c);
    MovedConcat(chart, head + n, f, c);
    MovedConcat(chart, head, n, c);
    HeadMoves(chart, a);
  }

  lemma HeadMoves(chart: Chart, a: Amounts)
    requires "escrow_pending" in chart && chart["escrow_pending"] == Asset && NonNegative(a)
    ensures Moved(chart, ReleaseHead(a), "escrow_pending") == -a.revenue
  {
    if a.revenue > 0 {
      assert ReleaseHead(a)[1..] == [];
    }
  }

  /** A released task changes the escrow account, over both stores, by what was locked minus the receipt's revenue: it
      is cleared exactly when the two round to the same amount. */
  lemma ReleasedTaskClearsEscrow(chart: Chart, s: Store, task: Task, env: Env)
    requires TrailOf(task, env).LockReleased? && NonNegativeInput(ReleaseOf(task, Deciding(env)))
    requires Agree(chart)
    ensures TotalBalance(chart, Handled(chart, s, task, env), "escrow_pending") ==
      TotalBalance(chart, s, "escrow_pending") + Round8(task.budgetEstimateUsd) - Round8(Deciding(env).revenueUsd)
  {
    var i, code, x, y := ReleaseOf(task, Deciding(env)), "escrow_pending", LockTx(task), TrailOf(task, env).tx;
    var a, wallet := Rounded(i), WalletOf(i);
    RoundedNonNegative(i);
    AdapterWallet(task.adapterId, a);
    assert code in MEMORY_CHART && MEMORY_CHART[code] == Asset;
    hide MEMORY_CHART, Balance, Handled, Lines, Adjusted, Round8, AllKnown, Agree, Written, WrittenAll, TotalBalance;
    PostedReleaseIsLines(task, env);
    ReleaseMovesRevenue(MEMORY_CHART, ReleaseHead(a), wallet, a);
    TaskEntriesKnown(task, env);
    TaskLeavesTrail(chart, s, task, env);
    WriteTwo(chart, s, x, y, env.lockUp, env.releaseUp);
    WriteMoves(chart, s, x, env.lockUp, code);
    WriteMoves(chart, Written(chart, s, x, env.lockUp), y, env.releaseUp, code);
    MovedPair(MEMORY_CHART, x.entries, code);
  }

  /** The wallets of the adapters are not cost accounts, so a release that posts needed no adjustment. */
  lemma PostedReleaseIsLines(task: Task, env: Env)
    requires TrailOf(task, env).LockReleased? && NonNegativeInput(ReleaseOf(task, Deciding(env)))
    ensures var i := ReleaseOf(task, Deciding(env));
      TrailOf(task, env).tx.entries == Lines(ReleaseHead(Rounded(i)), WalletOf(i), Rounded(i))
  {
    var i := ReleaseOf(task, Deciding(env));
    var a, wallet := Rounded(i), WalletOf(i);
    RoundedNonNegative(i);
    HeadsAreHeads(a);
    AdapterWallet(task.adapterId, a);
    EntriesBalanceIff(ReleaseHead(a), wallet, a);
    if a.revenue >= Costs(a) {
      CoveredNeedsNoAdjustment(ReleaseHead(a), wallet, a);
    }
    hide Lines, Adjusted, Round8, Balanced, WalletCodeFor, CostOn;
  }
}
