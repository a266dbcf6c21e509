/** What each ledger operation moves, account by account, and what the balances add up to over a run. */
module Postings {
  import opened Collections
  import opened Persistence
  import opened Ledgers
  import opened TaskHandling

  /** The accounts with a fixed meaning have their types. */
  ghost predicate FixedAccounts(chart: Chart) {
    && (forall c :: c in {"platform_fee", "execution_cost", "gas_cost"} ==> c in chart && chart[c] == Expense)
    && "revenue" in chart && chart["revenue"] == Revenue
    && "escrow_pending" in chart && chart["escrow_pending"] == Asset
  }

  /** A wallet is an asset and none of the accounts with a fixed meaning. */
  ghost predicate IsWallet(chart: Chart, wallet: string) {
    && wallet in chart && chart[wallet] == Asset
    && wallet !in {"platform_fee", "execution_cost", "gas_cost", "revenue", "escrow_pending"}
  }

  lemma ChartsAreFixed()
    ensures FixedAccounts(MEMORY_CHART) && FixedAccounts(MIGRATED_CHART) && Agree(MIGRATED_CHART)
  {
  }

  /** The wallet of an adapter carries its name; all other adapters share one. */
  lemma AdapterWalletIs(adapterId: string)
    ensures WalletCodeFor(adapterId) ==
      "wallet_" + if adapterId in {"mock", "railway", "okx", "clustly"} then adapterId else "internal"
    ensures IsWallet(MEMORY_CHART, WalletCodeFor(adapterId)) && IsWallet(MIGRATED_CHART, WalletCodeFor(adapterId))
  {
    assert "wallet_mock" == "wallet_" + "mock" && "wallet_railway" == "wallet_" + "railway";
    assert "wallet_okx" == "wallet_" + "okx" && "wallet_clustly" == "wallet_" + "clustly";
    assert "wallet_internal" == "wallet_" + "internal";
    AdapterWallet(adapterId, Amounts(1, 1, 1, 1));
  }

  // ----- One transaction -----

  lemma DebitIfMoves(chart: Chart, other: string, amount: int, code: string)
    requires other in chart && DebitNormal(chart[other])
    ensures Moved(chart, DebitIf(other, amount), code) == if other == code && amount > 0 then amount else 0
  {
    if amount > 0 {
      assert DebitIf(other, amount)[1..] == [];
    }
  }

  lemma CreditMoves(chart: Chart, other: string, amount: int, code: string)
    requires other in chart
    ensures Moved(chart, [Entry(other, 0, amount)], code) ==
      if other != code then 0 else if DebitNormal(chart[other]) then -amount else amount
  {
    assert [Entry(other, 0, amount)][1..] == [];
  }

  /** The debit side of a settlement or release that its revenue covers. */
  function Spread(i: Settlement, code: string): int {
    if code == "platform_fee" then Round8(i.platformFeeUsd)
    else if code == "execution_cost" then Round8(i.executionCostUsd)
    else if code == "gas_cost" then Round8(i.gasCostUsd)
    else if code == WalletOf(i) then
      Round8(i.revenueUsd) - Round8(i.platformFeeUsd) - Round8(i.executionCostUsd) - Round8(i.gasCostUsd)
    else 0
  }

  ghost predicate Covered(i: Settlement) {
    Round8(i.revenueUsd) >= Round8(i.platformFeeUsd) + Round8(i.executionCostUsd) + Round8(i.gasCostUsd)
  }

  lemma LinesMove(chart: Chart, head: seq<Entry>, i: Settlement, code: string)
    requires FixedAccounts(chart) && IsWallet(chart, WalletOf(i)) && NonNegativeInput(i) && Covered(i)
    ensures Moved(chart, Lines(head, WalletOf(i), Rounded(i)), code) == Moved(chart, head, code) + Spread(i, code)
  {
    hide Moved, DebitIf, Net, Round8, NonNegativeInput;
    var wallet, a := WalletOf(i), Rounded(i);
    RoundedNonNegative(i);
    NetIsExact(a);
    var n, f, e, g := DebitIf(wallet, Net(a)), DebitIf("platform_fee", a.fee), DebitIf("execution_cost", a.execution),
      DebitIf("gas_cost", a.gas);
    DebitIfMoves(chart, wallet, Net(a), code);
    DebitIfMoves(chart, "platform_fee", a.fee, code);
    DebitIfMoves(chart, "execution_cost", a.execution, code);
    DebitIfMoves(chart, "gas_cost", a.gas, code);
    MovedConcat(chart, head + n + f + e, g, code);
    MovedConcat(chart, head + n + f, e, code);
    MovedConcat(chart, head + n, f, code);
    MovedConcat(chart, head, n, code);
  }

  /** A settlement puts the revenue on the revenue account, each cost on its own account, and what is left on the
      wallet; no other account moves. */
  lemma SettlementMoves(chart: Chart, i: Settlement, code: string)
    requires FixedAccounts(chart) && IsWallet(chart, WalletOf(i)) && NonNegativeInput(i) && Covered(i)
    ensures Moved(chart, SettlementEntries(i), code) ==
      if code == "revenue" then Round8(i.revenueUsd)
      else if code == "platform_fee" then Round8(i.platformFeeUsd)
      else if code == "execution_cost" then Round8(i.executionCostUsd)
      else if code == "gas_cost" then Round8(i.gasCostUsd)
      else if code == WalletOf(i) then
        Round8(i.revenueUsd) - Round8(i.platformFeeUsd) - Round8(i.executionCostUsd) - Round8(i.gasCostUsd)
      else 0
  {
    hide Moved, Lines, Adjusted, Round8, NonNegativeInput;
    var head := SettlementHead(Rounded(i));
    RoundedNonNegative(i);
    HeadsAreHeads(Rounded(i));
    CoveredNeedsNoAdjustment(head, WalletOf(i), Rounded(i));
    LinesMove(chart, head, i, code);
    CreditMoves(chart, "revenue", Round8(i.revenueUsd), code);
  }

  /** A release takes the revenue out of escrow and spreads it in the same way. */
  lemma ReleaseMoves(chart: Chart, i: Settlement, code: string)
    requires FixedAccounts(chart) && IsWallet(chart, WalletOf(i)) && NonNegativeInput(i) && Covered(i)
    ensures Moved(chart, ReleaseEntries(i), code) ==
      if code == "escrow_pending" then -Round8(i.revenueUsd)
      else if code == "platform_fee" then Round8(i.platformFeeUsd)
      else if code == "execution_cost" then Round8(i.executionCostUsd)
      else if code == "gas_cost" then Round8(i.gasCostUsd)
      else if code == WalletOf(i) then
        Round8(i.revenueUsd) - Round8(i.platformFeeUsd) - Round8(i.executionCostUsd) - Round8(i.gasCostUsd)
      else 0
  {
    hide Lines, Adjusted, Round8, NonNegativeInput;
    var head := ReleaseHead(Rounded(i));
    RoundedNonNegative(i);
    HeadsAreHeads(Rounded(i));
    CoveredNeedsNoAdjustment(head, WalletOf(i), Rounded(i));
    LinesMove(chart, head, i, code);
    CreditMoves(chart, "escrow_pending", Round8(i.revenueUsd), code);
  }

  /** A lock moves its amount from the adapter's wallet into escrow, a refund moves it back, and a deposit puts it on
      the wallet as revenue; no other account moves. */
  lemma TransfersMove(chart: Chart, adapterId: string, wallet: string, amount: int, code: string)
    requires FixedAccounts(chart) && IsWallet(chart, WalletCodeFor(adapterId)) && IsWallet(chart, wallet)
    ensures Moved(chart, LockEntries(adapterId, amount), code) ==
      if code == "escrow_pending" then amount else if code == WalletCodeFor(adapterId) then -amount else 0
    ensures Moved(chart, RefundEntries(adapterId, amount), code) ==
      if code == "escrow_pending" then -amount else if code == WalletCodeFor(adapterId) then amount else 0
    ensures Moved(chart, DepositEntries(wallet, amount), code) ==
      if code == wallet || code == "revenue" then amount else 0
  {
    hide Moved, WalletCodeFor;
    MovedPair(chart, LockEntries(adapterId, amount), code);
    MovedPair(chart, RefundEntries(adapterId, amount), code);
    MovedPair(chart, DepositEntries(wallet, amount), code);
  }

  // ----- One task -----

  /** What handling a task adds to the balance of an account, for every outcome: the locked amount leaves the wallet for
      escrow and comes back on a refund; a release takes the revenue out of escrow and puts fee and cost on their
      accounts and the rest on the wallet. */
  lemma HandledTaskMoves(chart: Chart, s: Store, task: Task, env: Env, w: Work, code: string)
    requires Agree(chart) && w.Delivered? && w.revenueUsd >= 0.0 && w.platformFeeUsd >= 0.0 && w.costUsd >= 0.0
    requires TrailOf(task, env).LockReleased? ==> Delivers(env, w.revenueUsd, w.platformFeeUsd, w.costUsd)
    ensures var t, wallet := TrailOf(task, env), WalletCodeFor(task.adapterId);
      var locked := if t.LockReleased? || t.LockLeft? then Round8(task.budgetEstimateUsd)
                    else if t.RefundOnly? then -Round8(task.budgetEstimateUsd) else 0;
      var revenue, fee, cost := if t.LockReleased? then Round8(w.revenueUsd) else 0,
        if t.LockReleased? then Round8(w.platformFeeUsd) else 0, if t.LockReleased? then Round8(w.costUsd) else 0;
      TotalBalance(chart, Handled(chart, s, task, env), code) == TotalBalance(chart, s, code) +
        if code == "escrow_pending" then locked - revenue
        else if code == wallet then revenue - fee - cost - locked
        else if code == "platform_fee" then fee
        else if code == "execution_cost" then cost
        else 0
  {
    hide Handled, Written, WrittenAll, TotalBalance, Agree, AllKnown, MEMORY_CHART, TrailOf, LockTx, RefundTx, Round8,
      WalletCodeFor, Delivers;
    var t := TrailOf(task, env);
    TaskLeavesTrail(chart, s, task, env);
    TaskEntriesKnown(task, env);
    LockAndRefundMove(task, code);
    match t
    case NoTrail => WriteTwo(chart, s, LockTx(task), LockTx(task), true, true);
    case LockReleased(tx) =>
      WriteTwo(chart, s, LockTx(task), tx, env.lockUp, env.releaseUp);
      WriteMoves(chart, s, LockTx(task), env.lockUp, code);
      WriteMoves(chart, Written(chart, s, LockTx(task), env.lockUp), tx, env.releaseUp, code);
      ReleasedMove(task, env, w, code);
    case LockRefunded =>
      WriteTwo(chart, s, LockTx(task), RefundTx(task), env.lockUp, env.refundUp);
      WriteMoves(chart, s, LockTx(task), env.lockUp, code);
      WriteMoves(chart, Written(chart, s, LockTx(task), env.lockUp), RefundTx(task), env.refundUp, code);
    case LockLeft =>
      WriteTwo(chart, s, LockTx(task), LockTx(task), env.lockUp, true);
      WriteMoves(chart, s, LockTx(task), env.lockUp, code);
    case RefundOnly =>
      WriteTwo(chart, s, RefundTx(task), RefundTx(task), env.refundUp, true);
      WriteMoves(chart, s, RefundTx(task), env.refundUp, code);
  }

  lemma LockAndRefundMove(task: Task, code: string)
    ensures var amount := Round8(task.budgetEstimateUsd);
      && Moved(MEMORY_CHART, LockTx(task).entries, code) ==
         (if code == "escrow_pending" then amount else if code == WalletCodeFor(task.adapterId) then -amount else 0)
      && Moved(MEMORY_CHART, RefundTx(task).entries, code) ==
         (if code == "escrow_pending" then -amount else if code == WalletCodeFor(task.adapterId) then amount else 0)
  {
    hide MEMORY_CHART, Moved, LockEntries, RefundEntries, WalletCodeFor, Round8;
    ChartsAreFixed();
    AdapterWalletIs(task.adapterId);
    TransfersMove(MEMORY_CHART, task.adapterId, WalletCodeFor(task.adapterId), Round8(task.budgetEstimateUsd), code);
  }

  lemma ReleasedMove(task: Task, env: Env, w: Work, code: string)
    requires w.Delivered? && w.revenueUsd >= 0.0 && w.platformFeeUsd >= 0.0 && w.costUsd >= 0.0
    requires TrailOf(task, env).LockReleased? && Delivers(env, w.revenueUsd, w.platformFeeUsd, w.costUsd)
    ensures Moved(MEMORY_CHART, TrailOf(task, env).tx.entries, code) ==
      if code == "escrow_pending" then -Round8(w.revenueUsd)
      else if code == WalletCodeFor(task.adapterId) then
        Round8(w.revenueUsd) - Round8(w.platformFeeUsd) - Round8(w.costUsd)
      else if code == "platform_fee" then Round8(w.platformFeeUsd)
      else if code == "execution_cost" then Round8(w.costUsd)
      else 0
  {
    hide MEMORY_CHART, Moved, ReleaseEntries, WalletCodeFor, Round8, Balanced, FixedAccounts;
    var i := ReleaseOf(task, w);
    assert Deciding(env) == w;
    ChartsAreFixed();
    AdapterWalletIs(task.adapterId);
    NothingOwed();
    assert TrailOf(task, env).tx.entries == ReleaseEntries(i) && Balanced(ReleaseEntries(i));
    ReleaseIsCovered(i);
    ReleaseMoves(MEMORY_CHART, i, code);
  }

  lemma ReleaseIsCovered(i: Settlement)
    requires NonNegativeInput(i) && IsWallet(MEMORY_CHART, WalletOf(i)) && Balanced(ReleaseEntries(i))
    ensures Covered(i)
  {
    hide MEMORY_CHART, Adjusted, Lines, Balanced, WalletOf, Round8;
    PostedIsCovered(ReleaseHead(Rounded(i)), i);
  }

  // ----- Whole runs -----

  /** The wallets named are wallets of the in-memory store, and no amount of a settlement or release is negative. */
  ghost predicate Ordinary(op: Op) {
    match op
    case Settle(i) => NonNegativeInput(i) && IsWallet(MEMORY_CHART, WalletOf(i))
    case Release(i) => NonNegativeInput(i) && IsWallet(MEMORY_CHART, WalletOf(i))
    case Deposit(_, wallet, _) => IsWallet(MEMORY_CHART, wallet)
    case _ => true
  }

  /** What an operation that posts adds to the balance of an account. */
  function Effect(op: Op, code: string): int {
    match op
    case Settle(i) => if code == "revenue" then Round8(i.revenueUsd) else Spread(i, code)
    case Release(i) => if code == "escrow_pending" then -Round8(i.revenueUsd) else Spread(i, code)
    case Lock(_, adapterId, amountUsd) =>
      if code == "escrow_pending" then Round8(amountUsd)
      else if code == WalletCodeFor(adapterId) then -Round8(amountUsd)
      else 0
    case Refund(_, adapterId, amountUsd) =>
      if code == "escrow_pending" then -Round8(amountUsd)
      else if code == WalletCodeFor(adapterId) then Round8(amountUsd)
      else 0
    case Deposit(_, wallet, amountUsd) => if code == wallet || code == "revenue" then Round8(amountUsd) else 0
    case Outage => 0
  }

  lemma PlanMoves(txs: seq<Transaction>, op: Op, code: string)
    requires Ordinary(op) && PlanOf(txs, op).Post?
    ensures AllKnown(MEMORY_CHART, PlanOf(txs, op).tx.entries)
    ensures Moved(MEMORY_CHART, PlanOf(txs, op).tx.entries, code) == Effect(op, code)
  {
    ChartsAreFixed();
    assert WalletNamed(op) in MEMORY_CHART by { FixedAccountsKnown(); }
    PlansKnown(txs, op);
    hide MEMORY_CHART, Moved, SettlementEntries, ReleaseEntries, LockEntries, RefundEntries, DepositEntries, Round8,
      Balanced, AllKnown, TaskKnown, FixedAccounts, IsWallet, NonNegativeInput, WalletCodeFor, WalletOf;
    match op
    case Settle(i) =>
      PostedIsCovered(SettlementHead(Rounded(i)), i);
      SettlementMoves(MEMORY_CHART, i, code);
    case Release(i) =>
      PostedIsCovered(ReleaseHead(Rounded(i)), i);
      ReleaseMoves(MEMORY_CHART, i, code);
    case Lock(_, adapterId, amountUsd) =>
      AdapterWalletIs(adapterId);
      TransfersMove(MEMORY_CHART, adapterId, WalletCodeFor(adapterId), Round8(amountUsd), code);
    case Refund(_, adapterId, amountUsd) =>
      AdapterWalletIs(adapterId);
      TransfersMove(MEMORY_CHART, adapterId, WalletCodeFor(adapterId), Round8(amountUsd), code);
    case Deposit(_, wallet, amountUsd) =>
      AdapterWalletIs("");
      TransfersMove(MEMORY_CHART, "", wallet, Round8(amountUsd), code);
  }

  /** On a wallet only a covered settlement or release balances. */
  lemma PostedIsCovered(head: seq<Entry>, i: Settlement)
    requires NonNegativeInput(i) && IsWallet(MEMORY_CHART, WalletOf(i))
    requires head in {SettlementHead(Rounded(i)), ReleaseHead(Rounded(i))}
    requires Balanced(Adjusted(Lines(head, WalletOf(i), Rounded(i)), WalletOf(i)))
    ensures Covered(i)
  {
    hide MEMORY_CHART, Round8, Adjusted, Lines, Balanced, WalletOf;
    RoundedNonNegative(i);
    HeadsAreHeads(Rounded(i));
    EntriesBalanceIff(head, WalletOf(i), Rounded(i));
  }

  lemma OperationMoves(chart: Chart, s: Store, op: Op, link: Link, code: string)
    requires Agree(chart) && Ordinary(op)
    ensures TotalBalance(chart, After(chart, s, op, link), code) ==
      TotalBalance(chart, s, code) + if PostingOf(chart, s, op, link) == Posted then Effect(op, code) else 0
  {
    hide MEMORY_CHART, Agree, Ordinary, Balance, PlanOf, Written, PostgresTakes, AllKnown, Effect, Moved;
    var s1 := Asked(s, op, link);
    assert TotalBalance(chart, s1, code) == TotalBalance(chart, s, code);
    var plan := PlanOf(Active(s1), op);
    if plan.Post? {
      PlanMoves(Active(s1), op, code);
      WriteMoves(chart, s1, plan.tx, link.write, code);
    }
  }

  /** What the operations that posted add up to. */
  function Effects(chart: Chart, s: Store, ops: seq<Op>, links: nat -> Link, code: string): int {
    if ops == [] then 0
    else
      var n := |ops| - 1;
      Effects(chart, s, ops[..n], links, code)
      + if PostingOf(chart, Books(chart, s, ops[..n], links), ops[n], links(n)) == Posted then Effect(ops[n], code)
        else 0
  }

  /** Over any run, whatever Postgres does: the balance of every account, over both stores, grows by exactly the amounts
      of the operations that were posted, each booked where it belongs. */
  lemma {:induction false} BalancesAddUp(chart: Chart, s: Store, ops: seq<Op>, links: nat -> Link, code: string)
    requires Agree(chart) && forall op :: op in ops ==> Ordinary(op)
    ensures TotalBalance(chart, Books(chart, s, ops, links), code) ==
      TotalBalance(chart, s, code) + Effects(chart, s, ops, links, code)
  {
    if ops != [] {
      hide Agree, Ordinary, TotalBalance, After, PostingOf, Effect;
      var n := |ops| - 1;
      BalancesAddUp(chart, s, ops[..n], links, code);
      OperationMoves(chart, Books(chart, s, ops[..n], links), ops[n], links(n), code);
    }
  }

  // ----- When an operation posts, and what it leaves on record -----

  /** Locks, refunds and deposits are posted exactly for amounts that round to something positive, a deposit only once;
      nothing Postgres does makes one throw on a wallet the in-memory store knows. */
  lemma TransferPostsIff(
      chart: Chart, s: Store, id: string, adapterId: string, wallet: string, amountUsd: real, link: Link)
    requires wallet in MEMORY_CHART
    ensures PostingOf(chart, s, Lock(id, adapterId, amountUsd), link) ==
      if Round8(amountUsd) > 0 then Posted else Skipped
    ensures PostingOf(chart, s, Refund(id, adapterId, amountUsd), link) ==
      if Round8(amountUsd) > 0 then Posted else Skipped
    ensures PostingOf(chart, s, Deposit(id, wallet, amountUsd), link) ==
      if Round8(amountUsd) > 0 && !TaskKnown(Active(Queried(s, link.query)), id) then Posted else Skipped
  {
    FixedAccountsKnown();
    hide MEMORY_CHART, Round8, WalletCodeFor, PostgresTakes, TaskKnown;
  }

  /** The id under which an operation is recorded. */
  function IdOf(op: Op): string {
    match op
    case Settle(i) => i.taskId
    case Release(i) => i.taskId
    case Lock(taskId, _, _) => taskId
    case Refund(taskId, _, _) => taskId
    case Deposit(txHash, _, _) => txHash
    case Outage => ""
  }

  /** What posts is recorded last, under its id and with its state; a settlement or deposit is then not repeated while
      the same store answers. */
  lemma PostedIsRecorded(chart: Chart, s: Store, op: Op, link: Link, later: Link)
    requires PostingOf(chart, s, op, link) == Posted
    ensures var s' := After(chart, s, op, link);
      var txs := Active(s');
      && txs != [] && txs[|txs| - 1].taskId == IdOf(op)
      && txs[|txs| - 1].kind == (if op.Lock? then Pending else if op.Refund? then FailedTask else Settled)
      && ((op.Settle? || op.Deposit?) && (s'.mock || later.query) ==>
            PostingOf(chart, s', op, later) == Skipped && After(chart, s', op, later) == s')
  {
    hide *;
    var plan := PostedHasPlan(chart, s, op, link);
    var s1, s' := Asked(s, op, link), After(chart, s, op, link);
    WrittenLast(chart, s1, plan, link.write);
    LastIsKnown(Active(s'));
    if (op.Settle? || op.Deposit?) && (s'.mock || later.query) {
      KnownIsSkipped(chart, s', op, later);
    }
  }

  lemma PostedHasPlan(chart: Chart, s: Store, op: Op, link: Link) returns (tx: Transaction)
    requires PostingOf(chart, s, op, link) == Posted
    ensures After(chart, s, op, link) == Written(chart, Asked(s, op, link), tx, link.write)
    ensures !WriteThrows(chart, Asked(s, op, link), tx, link.write)
    ensures tx.taskId == IdOf(op)
    ensures tx.kind == if op.Lock? then Pending else if op.Refund? then FailedTask else Settled
  {
    hide MEMORY_CHART, Balanced, SettlementEntries, ReleaseEntries, LockEntries, RefundEntries, DepositEntries, Round8,
      Written, WriteThrows, TaskKnown, Asked;
    tx := PlanOf(Active(Asked(s, op, link)), op).tx;
  }

  lemma WrittenLast(chart: Chart, s: Store, tx: Transaction, up: bool)
    ensures var txs := Active(Written(chart, s, tx, up));
      txs != [] && txs[|txs| - 1].taskId == tx.taskId && txs[|txs| - 1].kind == tx.kind
  {
    hide MEMORY_CHART, KnownPrefix, AllAcceptable;
  }

  lemma LastIsKnown(txs: seq<Transaction>)
    ensures txs != [] ==> TaskKnown(txs, txs[|txs| - 1].taskId)
  {
  }

  lemma KnownIsSkipped(chart: Chart, s: Store, op: Op, link: Link)
    requires (op.Settle? || op.Deposit?) && (s.mock || link.query) && TaskKnown(Active(s), IdOf(op))
    ensures PostingOf(chart, s, op, link) == Skipped && After(chart, s, op, link) == s
  {
    hide MEMORY_CHART, SettlementEntries, Balanced, Round8, TaskKnown;
  }

  // ----- Which store -----

  /** The wallets named are wallets in Postgres too. */
  ghost predicate KnownToPostgres(chart: Chart, op: Op) {
    match op
    case Settle(i) => IsWallet(chart, WalletOf(i))
    case Release(i) => IsWallet(chart, WalletOf(i))
    case Lock(_, adapterId, _) => IsWallet(chart, WalletCodeFor(adapterId))
    case Refund(_, adapterId, _) => IsWallet(chart, WalletCodeFor(adapterId))
    case Deposit(_, wallet, _) => IsWallet(chart, wallet)
    case Outage => true
  }

  lemma DebitIfAcceptable(chart: Chart, code: string, amount: int)
    requires code in chart
    ensures AllAcceptable(chart, DebitIf(code, amount))
  {
  }

  lemma LinesAcceptable(chart: Chart, head: seq<Entry>, wallet: string, a: Amounts)
    requires FixedAccounts(chart) && wallet in chart
    ensures AllAcceptable(chart, Lines(head, wallet, a)) <==> AllAcceptable(chart, head)
  {
    hide DebitIf, Net, Acceptable;
    var n, f, e, g := DebitIf(wallet, Net(a)), DebitIf("platform_fee", a.fee), DebitIf("execution_cost", a.execution),
      DebitIf("gas_cost", a.gas);
    DebitIfAcceptable(chart, wallet, Net(a));
    DebitIfAcceptable(chart, "platform_fee", a.fee);
    DebitIfAcceptable(chart, "execution_cost", a.execution);
    DebitIfAcceptable(chart, "gas_cost", a.gas);
    var lines := Lines(head, wallet, a);
    assert forall k :: 0 <= k < |head| ==> lines[k] == head[k];
    assert lines == head + (n + f + e + g);
  }

  /** Postgres accepts every plan but one: a settlement without revenue, whose credit line is empty on both sides. */
  lemma AcceptedIff(chart: Chart, txs: seq<Transaction>, op: Op)
    requires FixedAccounts(chart) && Ordinary(op) && KnownToPostgres(chart, op) && PlanOf(txs, op).Post?
    ensures AllAcceptable(chart, PlanOf(txs, op).tx.entries) <==> (op.Settle? ==> Round8(op.i.revenueUsd) > 0)
  {
    hide MEMORY_CHART, SettlementEntries, ReleaseEntries, Balanced, TaskKnown, Round8, WalletOf, WalletCodeFor;
    match op
    case Settle(i) => SettlementAccepted(chart, i);
    case Release(i) => ReleaseAccepted(chart, i);
    case _ =>
  }

  lemma SettlementAccepted(chart: Chart, i: Settlement)
    requires FixedAccounts(chart) && IsWallet(chart, WalletOf(i)) && Ordinary(Settle(i))
    requires Balanced(SettlementEntries(i))
    ensures AllAcceptable(chart, SettlementEntries(i)) <==> Round8(i.revenueUsd) > 0
  {
    hide MEMORY_CHART, Adjusted, Lines, Balanced, Round8, WalletOf;
    var a := Rounded(i);
    RoundedNonNegative(i);
    HeadsAreHeads(a);
    PostedIsCovered(SettlementHead(a), i);
    CoveredNeedsNoAdjustment(SettlementHead(a), WalletOf(i), a);
    LinesAcceptable(chart, SettlementHead(a), WalletOf(i), a);
    assert SettlementHead(a)[0] == Entry("revenue", 0, a.revenue);
  }

  lemma ReleaseAccepted(chart: Chart, i: Settlement)
    requires FixedAccounts(chart) && IsWallet(chart, WalletOf(i)) && Ordinary(Release(i))
    requires Balanced(ReleaseEntries(i))
    ensures AllAcceptable(chart, ReleaseEntries(i))
  {
    hide MEMORY_CHART, Adjusted, Lines, Balanced, Round8, WalletOf;
    var a := Rounded(i);
    RoundedNonNegative(i);
    HeadsAreHeads(a);
    ReleaseIsCovered(i);
    CoveredNeedsNoAdjustment(ReleaseHead(a), WalletOf(i), a);
    LinesAcceptable(chart, ReleaseHead(a), WalletOf(i), a);
  }

  /** Where an operation is written: in Postgres exactly when it is in use and reachable throughout, a settlement
      without revenue excepted, which moves the ledger into memory for good; otherwise in memory. */
  lemma WrittenToPostgresIff(chart: Chart, s: Store, op: Op, link: Link)
    requires FixedAccounts(chart) && Ordinary(op) && KnownToPostgres(chart, op)
    requires PostingOf(chart, s, op, link) == Posted
    ensures var s', asks := After(chart, s, op, link), op.Settle? || op.Deposit?;
      if !s.mock && (asks ==> link.query) && link.write && (op.Settle? ==> Round8(op.i.revenueUsd) > 0)
      then !s'.mock && |s'.postgres| == |s.postgres| + 1 && s'.memory == s.memory
      else s'.mock && |s'.memory| == |s.memory| + 1 && s'.postgres == s.postgres
  {
    hide MEMORY_CHART, PlanOf, Ordinary, KnownToPostgres, FixedAccounts, AllAcceptable, AllKnown, Round8;
    OutagePostsNothing(chart, s, link);
    AcceptedIff(chart, Active(Asked(s, op, link)), op);
  }

  lemma OutagePostsNothing(chart: Chart, s: Store, link: Link)
    ensures PostingOf(chart, s, Outage, link) == Skipped
  {
  }

  /** As long as Postgres is in use, nothing is in memory. */
  lemma {:induction false} MemoryStartsEmpty(chart: Chart, configured: bool, ops: seq<Op>, links: nat -> Link)
    ensures var s := Books(chart, Store(!configured, [], []), ops, links); !s.mock ==> s.memory == []
  {
    if ops != [] {
      hide PlanOf, KnownPrefix, MEMORY_CHART;
      MemoryStartsEmpty(chart, configured, ops[..|ops| - 1], links);
    }
  }

  /** The balance that is answered is that over both stores until the ledger moves into memory; from then on exactly
      what Postgres holds is missing from it. */
  lemma BalanceAnswered(chart: Chart, configured: bool, ops: seq<Op>, links: nat -> Link, code: string)
    ensures var s := Books(chart, Store(!configured, [], []), ops, links);
      Balance(ActiveChart(chart, s), Active(s), code) ==
      TotalBalance(chart, s, code) - if s.mock then Balance(chart, s.postgres, code) else 0
  {
    hide Books, MEMORY_CHART;
    MemoryStartsEmpty(chart, configured, ops, links);
  }
}
