/** The double-entry ledger.  Posted amounts are whole units of 1e-8 USD. */
module Ledgers {
  import opened Collections
  import opened Rounding
  import opened Persistence

  // ----- Rounding -----

  const UNITS_PER_USD := 100000000.0

  function Usd(units: int): real {
    units as real / UNITS_PER_USD
  }

  /** round8, in units. */
  function Round8(n: real): int {
    Nearest((n + EPSILON) * UNITS_PER_USD)
  }

  lemma RoundClose(n: real)
    ensures EPSILON - 0.5 / UNITS_PER_USD < Usd(Round8(n)) - n <= EPSILON + 0.5 / UNITS_PER_USD
  {
  }

  lemma RoundUnits(k: int)
    ensures Round8(Usd(k)) == k
  {
  }

  lemma RoundNonNegative(n: real)
    requires n >= 0.0
    ensures Round8(n) >= 0
  {
  }

  // ----- Entries -----

  function Debits(entries: seq<Entry>): int {
    if entries == [] then 0 else entries[0].debit + Debits(entries[1..])
  }

  function Credits(entries: seq<Entry>): int {
    if entries == [] then 0 else entries[0].credit + Credits(entries[1..])
  }

  predicate Balanced(entries: seq<Entry>) {
    Debits(entries) == Credits(entries)
  }

  function DebitIf(code: string, amount: int): seq<Entry> {
    if amount > 0 then [Entry(code, amount, 0)] else []
  }

  /** The rounded amounts of a settlement. */
  datatype Amounts = Amounts(revenue: int, fee: int, execution: int, gas: int)

  function Costs(a: Amounts): int {
    a.fee + a.execution + a.gas
  }

  function Net(a: Amounts): int {
    Round8(Usd(a.revenue) - Usd(a.fee) - Usd(a.execution) - Usd(a.gas))
  }

  /** `head` is the credit side: always present for a settlement, absent from the release of nothing. */
  function Lines(head: seq<Entry>, wallet: string, a: Amounts): seq<Entry> {
    head + DebitIf(wallet, Net(a)) + DebitIf("platform_fee", a.fee)
         + DebitIf("execution_cost", a.execution) + DebitIf("gas_cost", a.gas)
  }

  /** The first entry that debits the wallet. */
  function FindWallet(entries: seq<Entry>, wallet: string): (r: Option<nat>)
    ensures r.Some? ==> r.value < |entries| && entries[r.value].accountCode == wallet && entries[r.value].debit > 0
  {
    if entries == [] then None
    else if entries[0].accountCode == wallet && entries[0].debit > 0 then Some(0)
    else match FindWallet(entries[1..], wallet)
      case None => None
      case Some(k) => Some(k + 1)
  }

  /** The residual adjustment. */
  function Adjusted(entries: seq<Entry>, wallet: string): seq<Entry> {
    var diff := Debits(entries) - Credits(entries);
    if diff == 0 then entries
    else match FindWallet(entries, wallet)
      case Some(k) => entries[k := entries[k].(debit := Round8(Usd(entries[k].debit) - Usd(diff)))]
      case None =>
        if diff < 0 && entries != []
        then entries[0 := entries[0].(credit := Round8(Usd(entries[0].credit) + Usd(diff)))]
        else entries
  }

  lemma AdjustedIs(entries: seq<Entry>, wallet: string)
    ensures var diff, k := Debits(entries) - Credits(entries), FindWallet(entries, wallet);
      Adjusted(entries, wallet) ==
      if diff == 0 then entries
      else if k.Some?
      then entries[k.value := entries[k.value].(debit := Round8(Usd(entries[k.value].debit) - Usd(diff)))]
      else if diff < 0 && entries != []
      then entries[0 := entries[0].(credit := Round8(Usd(entries[0].credit) + Usd(diff)))]
      else entries
  {
    hide Debits, Credits, Round8, Usd, FindWallet;
  }

  // ----- Posting -----

  /** Posted, nothing to do, or an exception. */
  datatype Posting = Posted | Skipped | Threw

  datatype Settlement = SettlementInput(
    taskId: string,
    adapterId: string,
    revenueUsd: real,
    platformFeeUsd: real,
    executionCostUsd: real,
    gasCostUsd: real,
    walletAccountCode: Option<string>)

  function WalletCodeFor(adapterId: string): string {
    if adapterId == "mock" then "wallet_mock"
    else if adapterId == "railway" then "wallet_railway"
    else if adapterId == "okx" then "wallet_okx"
    else if adapterId == "clustly" then "wallet_clustly"
    else "wallet_internal"
  }

  function WalletOf(i: Settlement): string {
    if i.walletAccountCode.Some? then i.walletAccountCode.value else WalletCodeFor(i.adapterId)
  }

  function Rounded(i: Settlement): Amounts {
    Amounts(Round8(i.revenueUsd), Round8(i.platformFeeUsd), Round8(i.executionCostUsd), Round8(i.gasCostUsd))
  }

  function SettlementHead(a: Amounts): seq<Entry> {
    [Entry("revenue", 0, a.revenue)]
  }

  function ReleaseHead(a: Amounts): seq<Entry> {
    if a.revenue > 0 then [Entry("escrow_pending", 0, a.revenue)] else []
  }

  function SettlementEntries(i: Settlement): seq<Entry> {
    Adjusted(Lines(SettlementHead(Rounded(i)), WalletOf(i), Rounded(i)), WalletOf(i))
  }

  function ReleaseEntries(i: Settlement): seq<Entry> {
    Adjusted(Lines(ReleaseHead(Rounded(i)), WalletOf(i), Rounded(i)), WalletOf(i))
  }

  function LockEntries(adapterId: string, amount: int): seq<Entry> {
    [Entry("escrow_pending", amount, 0), Entry(WalletCodeFor(adapterId), 0, amount)]
  }

  function RefundEntries(adapterId: string, amount: int): seq<Entry> {
    [Entry("escrow_pending", 0, amount), Entry(WalletCodeFor(adapterId), amount, 0)]
  }

  function DepositEntries(wallet: string, amount: int): seq<Entry> {
    [Entry(wallet, amount, 0), Entry("revenue", 0, amount)]
  }

  /** The operations that write.  An outage is any other query, or an idle connection, that fails. */
  datatype Op =
    | Settle(i: Settlement)
    | Release(i: Settlement)
    | Lock(taskId: string, adapterId: string, amountUsd: real)
    | Refund(taskId: string, adapterId: string, amountUsd: real)
    | Deposit(txHash: string, wallet: string, amountUsd: real)
    | Outage

  /** Whether Postgres is reachable when the operation looks the task up, and when it writes. */
  datatype Link = Link(query: bool, write: bool)

  /** What an operation wants to post, given whether its task is on record: entries, nothing, or an exception. */
  datatype Plan = Post(tx: Transaction) | Nothing | Refuse

  function ReleasePlan(i: Settlement): Plan {
    if !Balanced(ReleaseEntries(i)) then Refuse
    else if ReleaseEntries(i) == [] then Nothing
    else Post(Transaction(i.taskId, Settled, ReleaseEntries(i)))
  }

  function PlanOf(txs: seq<Transaction>, op: Op): Plan {
    match op
    case Settle(i) =>
      if TaskKnown(txs, i.taskId) then Nothing
      else if Balanced(SettlementEntries(i)) then Post(Transaction(i.taskId, Settled, SettlementEntries(i)))
      else Refuse
    case Release(i) => ReleasePlan(i)
    case Lock(taskId, adapterId, amountUsd) =>
      if Round8(amountUsd) <= 0 then Nothing
      else Post(Transaction(taskId, Pending, LockEntries(adapterId, Round8(amountUsd))))
    case Refund(taskId, adapterId, amountUsd) =>
      if Round8(amountUsd) <= 0 then Nothing
      else Post(Transaction(taskId, FailedTask, RefundEntries(adapterId, Round8(amountUsd))))
    case Deposit(txHash, wallet, amountUsd) =>
      if TaskKnown(txs, txHash) || Round8(amountUsd) <= 0 then Nothing
      else Post(Transaction(txHash, Settled, DepositEntries(wallet, Round8(amountUsd))))
    case Outage => Nothing
  }

  /** The store when the operation has looked its task up. */
  function Asked(s: Store, op: Op, link: Link): Store {
    match op
    case Settle(_) => Queried(s, link.query)
    case Deposit(_, _, _) => Queried(s, link.query)
    case Outage => Queried(s, false)
    case _ => s
  }

  function After(chart: Chart, s: Store, op: Op, link: Link): Store {
    var s1 := Asked(s, op, link);
    match PlanOf(Active(s1), op)
    case Post(tx) => Written(chart, s1, tx, link.write)
    case _ => s1
  }

  function PostingOf(chart: Chart, s: Store, op: Op, link: Link): Posting {
    var s1 := Asked(s, op, link);
    match PlanOf(Active(s1), op)
    case Post(tx) => if WriteThrows(chart, s1, tx, link.write) then Threw else Posted
    case Nothing => Skipped
    case Refuse => Threw
  }

  class Ledger {
    const db: Database

    constructor (db: Database)
      ensures this.db == db
    {
      this.db := db;
    }

    method TotalDebit(entries: seq<Entry>) returns (sum: int)
      ensures sum == Debits(entries)
    {
      sum := 0;
      for i := 0 to |entries|
        invariant sum + Debits(entries[i..]) == Debits(entries)
      {
        sum := sum + entries[i].debit;
      }
    }

    method TotalCredit(entries: seq<Entry>) returns (sum: int)
      ensures sum == Credits(entries)
    {
      sum := 0;
      for i := 0 to |entries|
        invariant sum + Credits(entries[i..]) == Credits(entries)
      {
        sum := sum + entries[i].credit;
      }
    }

    /** Pushes the debit entries behind `head` and moves a residual onto the wallet. */
    method BuildEntries(head: seq<Entry>, wallet: string, a: Amounts) returns (entries: seq<Entry>)
      ensures entries == Adjusted(Lines(head, wallet, a), wallet)
    {
      hide Debits, Credits, Round8, Usd, FindWallet, Net, Adjusted;
      entries := head;
      var computedNet := Net(a);
      if computedNet > 0 {
        entries := entries + [Entry(wallet, computedNet, 0)];
      }
      assert entries == head + DebitIf(wallet, Net(a));
      if a.fee > 0 {
        entries := entries + [Entry("platform_fee", a.fee, 0)];
      }
      assert entries == head + DebitIf(wallet, Net(a)) + DebitIf("platform_fee", a.fee);
      if a.execution > 0 {
        entries := entries + [Entry("execution_cost", a.execution, 0)];
      }
      if a.gas > 0 {
        entries := entries + [Entry("gas_cost", a.gas, 0)];
      }
      assert entries == Lines(head, wallet, a);
      AdjustedIs(entries, wallet);
      var totalDebit := TotalDebit(entries);
      var totalCredit := TotalCredit(entries);
      var diff := totalDebit - totalCredit;
      if diff != 0 {
        var target := FindWallet(entries, wallet);
        if target.Some? {
          var k := target.value;
          entries := entries[k := entries[k].(debit := Round8(Usd(entries[k].debit) - Usd(diff)))];
        } else if diff < 0 && entries != [] {
          entries := entries[0 := entries[0].(credit := Round8(Usd(entries[0].credit) + Usd(diff)))];
        }
      }
    }

    /** Hands a transaction to the database. */
    method Write(tx: Transaction, up: bool) returns (r: Posting)
      modifies db
      ensures db.View() == Written(db.chart, old(db.View()), tx, up)
      ensures r == if WriteThrows(db.chart, old(db.View()), tx, up) then Threw else Posted
    {
      var threw := db.WithTransaction(tx, up);
      r := if threw then Threw else Posted;
    }

    method RecordSettlement(input: Settlement, link: Link) returns (r: Posting)
      modifies db
      ensures db.View() == After(db.chart, old(db.View()), Settle(input), link)
      ensures r == PostingOf(db.chart, old(db.View()), Settle(input), link)
    {
      hide Adjusted, Lines, Debits, Credits, Round8, Written, WriteThrows, TaskKnown;
      var existing := db.TaskRecorded(input.taskId, link.query);
      if existing {
        return Skipped;
      }
      var a := Rounded(input);
      var entries := BuildEntries([Entry("revenue", 0, a.revenue)], WalletOf(input), a);
      var finalDebit := TotalDebit(entries);
      var finalCredit := TotalCredit(entries);
      if finalDebit - finalCredit != 0 {
        return Threw;
      }
      r := Write(Transaction(input.taskId, Settled, entries), link.write);
    }

    method ReleaseFunds(input: Settlement, link: Link) returns (r: Posting)
      modifies db
      ensures db.View() == After(db.chart, old(db.View()), Release(input), link)
      ensures r == PostingOf(db.chart, old(db.View()), Release(input), link)
    {
      hide Adjusted, Lines, Debits, Credits, Round8, Written, WriteThrows;
      var a := Rounded(input);
      var head := [];
      if a.revenue > 0 {
        head := head + [Entry("escrow_pending", 0, a.revenue)];
      }
      var entries := BuildEntries(head, WalletOf(input), a);
      assert head == ReleaseHead(a) && entries == ReleaseEntries(input);
      var finalDebit := TotalDebit(entries);
      var finalCredit := TotalCredit(entries);
      if finalDebit - finalCredit != 0 {
        return Threw;
      }
      if |entries| == 0 {
        return Skipped;
      }
      r := Write(Transaction(input.taskId, Settled, entries), link.write);
    }

    method LockFunds(taskId: string, adapterId: string, amountUsd: real, link: Link) returns (r: Posting)
      modifies db
      ensures db.View() == After(db.chart, old(db.View()), Lock(taskId, adapterId, amountUsd), link)
      ensures r == PostingOf(db.chart, old(db.View()), Lock(taskId, adapterId, amountUsd), link)
    {
      hide Written, WriteThrows;
      var amount := Round8(amountUsd);
      if amount <= 0 {
        return Skipped;
      }
      r := Write(Transaction(taskId, Pending, LockEntries(adapterId, amount)), link.write);
    }

    method RefundFunds(taskId: string, adapterId: string, amountUsd: real, link: Link) returns (r: Posting)
      modifies db
      ensures db.View() == After(db.chart, old(db.View()), Refund(taskId, adapterId, amountUsd), link)
      ensures r == PostingOf(db.chart, old(db.View()), Refund(taskId, adapterId, amountUsd), link)
    {
      hide Written, WriteThrows;
      var amount := Round8(amountUsd);
      if amount <= 0 {
        return Skipped;
      }
      r := Write(Transaction(taskId, FailedTask, RefundEntries(adapterId, amount)), link.write);
    }

    method RecordPaymentDeposit(txHash: string, wallet: Option<string>, amountUsd: real, link: Link)
      returns (r: Posting)
      modifies db
      ensures var op := Deposit(txHash, if wallet.Some? then wallet.value else "wallet_solana", amountUsd);
        db.View() == After(db.chart, old(db.View()), op, link) && r == PostingOf(db.chart, old(db.View()), op, link)
    {
      hide Written, WriteThrows, TaskKnown;
      var existing := db.TaskRecorded(txHash, link.query);
      if existing {
        return Skipped;
      }
      var amount := Round8(amountUsd);
      if amount <= 0 {
        return Skipped;
      }
      var walletCode := if wallet.Some? then wallet.value else "wallet_solana";
      r := Write(Transaction(txHash, Settled, DepositEntries(walletCode, amount)), link.write);
    }

    /** The balance in the store that answers. */
    method GetBalance(accountCode: string, up: bool) returns (balance: int)
      modifies db
      ensures db.View() == Queried(old(db.View()), up)
      ensures balance == Balance(ActiveChart(db.chart, db.View()), Active(db.View()), accountCode)
    {
      hide EntryWeight, MEMORY_CHART;
      if !up {
        db.mock := true;
      }
      var rows, chart := if db.mock then db.memory else db.postgres, if db.mock then MEMORY_CHART else db.chart;
      balance := 0;
      for i := 0 to |rows|
        invariant balance == Balance(chart, rows[..i], accountCode)
      {
        assert rows[..i + 1][..i] == rows[..i];
        var entries := rows[i].entries;
        for j := 0 to |entries|
          invariant balance + Moved(chart, entries[j..], accountCode) ==
            Balance(chart, rows[..i], accountCode) + Moved(chart, entries, accountCode)
        {
          balance := balance + EntryWeight(chart, entries[j], accountCode);
        }
      }
      assert rows[..|rows|] == rows;
    }

    /** Exact on Postgres.  The in-memory store does not know the query and answers it with no rows. */
    method VerifyIntegrity(up: bool) returns (balanced: bool, totalDebit: int, totalCredit: int)
      modifies db
      ensures db.View() == Queried(old(db.View()), up)
      ensures db.mock ==> balanced && totalDebit == 0 && totalCredit == 0
      ensures !db.mock ==> totalDebit == AllDebits(db.postgres) && totalCredit == AllCredits(db.postgres)
      ensures !db.mock ==> (balanced <==> AllBalanced(db.postgres))
    {
      if !up {
        db.mock := true;
      }
      var rows := if db.mock then [] else db.postgres;
      balanced, totalDebit, totalCredit := true, 0, 0;
      for i := 0 to |rows|
        invariant db.View() == Queried(old(db.View()), up)
        invariant balanced <==> AllBalanced(rows[..i])
        invariant totalDebit == AllDebits(rows[..i]) && totalCredit == AllCredits(rows[..i])
      {
        assert rows[..i + 1][..i] == rows[..i] && rows[..i + 1][i] == rows[i];
        var d := TotalDebit(rows[i].entries);
        var c := TotalCredit(rows[i].entries);
        totalDebit, totalCredit := totalDebit + d, totalCredit + c;
        if d != c {
          balanced := false;
        }
      }
      assert rows[..|rows|] == rows;
    }
  }

  // ----- Balances -----

  predicate AllBalanced(txs: seq<Transaction>) {
    forall k :: 0 <= k < |txs| ==> Balanced(txs[k].entries)
  }

  function AllDebits(txs: seq<Transaction>): int {
    if txs == [] then 0 else AllDebits(txs[..|txs| - 1]) + Debits(txs[|txs| - 1].entries)
  }

  function AllCredits(txs: seq<Transaction>): int {
    if txs == [] then 0 else AllCredits(txs[..|txs| - 1]) + Credits(txs[|txs| - 1].entries)
  }

  predicate DebitNormal(t: AccountType) {
    t == Asset || t == Expense
  }

  /** What an entry adds to the balance of an account. */
  function EntryWeight(chart: Chart, e: Entry, code: string): int {
    if e.accountCode != code || code !in chart then 0
    else if DebitNormal(chart[code]) then e.debit - e.credit
    else e.credit - e.debit
  }

  function Moved(chart: Chart, entries: seq<Entry>, code: string): int {
    if entries == [] then 0 else EntryWeight(chart, entries[0], code) + Moved(chart, entries[1..], code)
  }

  function Balance(chart: Chart, txs: seq<Transaction>, code: string): int {
    if txs == [] then 0
    else Balance(chart, txs[..|txs| - 1], code) + Moved(chart, txs[|txs| - 1].entries, code)
  }

  // ----- A settlement is exact -----

  ghost predicate NonNegative(a: Amounts) {
    a.revenue >= 0 && a.fee >= 0 && a.execution >= 0 && a.gas >= 0
  }

  /** What the cost line on the wallet's account carries, when the wallet is named like a cost account. */
  function CostOn(wallet: string, a: Amounts): int {
    if wallet == "platform_fee" then a.fee
    else if wallet == "execution_cost" then a.execution
    else if wallet == "gas_cost" then a.gas
    else 0
  }

  lemma NetIsExact(a: Amounts)
    ensures Net(a) == a.revenue - Costs(a)
  {
    RoundUnits(a.revenue - Costs(a));
    assert Usd(a.revenue) - Usd(a.fee) - Usd(a.execution) - Usd(a.gas) == Usd(a.revenue - Costs(a));
  }

  lemma {:induction false} DebitsConcat(x: seq<Entry>, y: seq<Entry>)
    ensures Debits(x + y) == Debits(x) + Debits(y)
    ensures Credits(x + y) == Credits(x) + Credits(y)
  {
    if x == [] {
      assert x + y == y;
    } else {
      assert (x + y)[0] == x[0] && (x + y)[1..] == x[1..] + y;
      DebitsConcat(x[1..], y);
    }
  }

  lemma DebitIfSums(code: string, amount: int)
    ensures Debits(DebitIf(code, amount)) == (if amount > 0 then amount else 0) && Credits(DebitIf(code, amount)) == 0
  {
    if amount > 0 {
      assert DebitIf(code, amount)[1..] == [];
    }
  }

  lemma LineSums(head: seq<Entry>, wallet: string, a: Amounts)
    requires NonNegative(a)
    ensures Credits(Lines(head, wallet, a)) == Credits(head)
    ensures Debits(Lines(head, wallet, a)) == Debits(head) + (if Net(a) > 0 then Net(a) else 0) + Costs(a)
  {
    hide Debits, Credits, DebitIf, Net;
    var n, f, e, g := DebitIf(wallet, Net(a)), DebitIf("platform_fee", a.fee), DebitIf("execution_cost", a.execution),
      DebitIf("gas_cost", a.gas);
    DebitIfSums(wallet, Net(a));
    DebitIfSums("platform_fee", a.fee);
    DebitIfSums("execution_cost", a.execution);
    DebitIfSums("gas_cost", a.gas);
    DebitsConcat(head + n + f + e, g);
    DebitsConcat(head + n + f, e);
    DebitsConcat(head + n, f);
    DebitsConcat(head, n);
  }

  /** A credit head that carries the whole revenue. */
  ghost predicate IsHead(head: seq<Entry>, a: Amounts) {
    && Debits(head) == 0 && Credits(head) == a.revenue
    && forall i :: 0 <= i < |head| ==> head[i].debit == 0
  }

  lemma HeadsAreHeads(a: Amounts)
    requires NonNegative(a)
    ensures IsHead(SettlementHead(a), a) && IsHead(ReleaseHead(a), a)
  {
    assert SettlementHead(a)[1..] == [];
  }

  /** When the revenue covers the costs the lines balance as they stand: the adjustment has nothing to do. */
  lemma CoveredNeedsNoAdjustment(head: seq<Entry>, wallet: string, a: Amounts)
    requires NonNegative(a) && IsHead(head, a) && a.revenue >= Costs(a)
    ensures Balanced(Lines(head, wallet, a)) && Adjusted(Lines(head, wallet, a), wallet) == Lines(head, wallet, a)
  {
    LineSums(head, wallet, a);
    NetIsExact(a);
    hide Lines, Debits, Credits;
  }

  /** The lines never carry less debit than credit, so the credit side is never what gets adjusted. */
  lemma CreditStays(head: seq<Entry>, wallet: string, a: Amounts)
    requires NonNegative(a) && IsHead(head, a)
    ensures Debits(Lines(head, wallet, a)) >= Credits(Lines(head, wallet, a))
    ensures forall i :: 0 <= i < |Adjusted(Lines(head, wallet, a), wallet)| ==>
      Adjusted(Lines(head, wallet, a), wallet)[i].credit == Lines(head, wallet, a)[i].credit
  {
    LineSums(head, wallet, a);
    NetIsExact(a);
    hide Debits, Credits, Lines, FindWallet, Round8;
  }

  lemma {:induction false} FindConcat(x: seq<Entry>, y: seq<Entry>, wallet: string)
    ensures FindWallet(x + y, wallet) ==
      if FindWallet(x, wallet).Some? then FindWallet(x, wallet)
      else match FindWallet(y, wallet) case None => None case Some(k) => Some(k + |x|)
  {
    if x == [] {
      assert x + y == y;
    } else {
      assert (x + y)[0] == x[0] && (x + y)[1..] == x[1..] + y;
      FindConcat(x[1..], y, wallet);
    }
  }

  lemma {:induction false} NotInHead(head: seq<Entry>, wallet: string)
    requires forall i :: 0 <= i < |head| ==> head[i].debit == 0
    ensures FindWallet(head, wallet) == None
  {
    if head != [] {
      NotInHead(head[1..], wallet);
    }
  }

  lemma FindDebitIf(code: string, amount: int, wallet: string)
    ensures FindWallet(DebitIf(code, amount), wallet) == if code == wallet && amount > 0 then Some(0) else None
  {
    if amount > 0 {
      assert DebitIf(code, amount)[1..] == [];
    }
  }

  /** With no net line, the only line the adjustment can touch is a cost line on the wallet's account. */
  lemma FindInLines(head: seq<Entry>, wallet: string, a: Amounts)
    requires NonNegative(a) && IsHead(head, a) && Net(a) <= 0
    ensures var k, lines := FindWallet(Lines(head, wallet, a), wallet), Lines(head, wallet, a);
      (k.Some? <==> CostOn(wallet, a) > 0) && (k.Some? ==> lines[k.value] == Entry(wallet, CostOn(wallet, a), 0))
  {
    hide FindWallet, Net, Debits, Credits;
    var n, f, e, g := DebitIf(wallet, Net(a)), DebitIf("platform_fee", a.fee), DebitIf("execution_cost", a.execution),
      DebitIf("gas_cost", a.gas);
    NotInHead(head, wallet);
    FindDebitIf(wallet, Net(a), wallet);
    FindDebitIf("platform_fee", a.fee, wallet);
    FindDebitIf("execution_cost", a.execution, wallet);
    FindDebitIf("gas_cost", a.gas, wallet);
    FindConcat(head + n + f + e, g, wallet);
    FindConcat(head + n + f, e, wallet);
    FindConcat(head + n, f, wallet);
    FindConcat(head, n, wallet);
  }

  lemma {:induction false} DebitsUpdate(entries: seq<Entry>, k: nat, e: Entry)
    requires k < |entries|
    ensures Debits(entries[k := e]) == Debits(entries) - entries[k].debit + e.debit
    ensures Credits(entries[k := e]) == Credits(entries) - entries[k].credit + e.credit
  {
    if k == 0 {
      assert entries[0 := e][1..] == entries[1..];
    } else {
      assert entries[k := e][1..] == entries[1..][k - 1 := e];
      DebitsUpdate(entries[1..], k - 1, e);
    }
  }

  /** When the costs exceed the revenue, only a cost line on the wallet's account can absorb the shortfall. */
  lemma ShortfallNeedsCostLine(head: seq<Entry>, wallet: string, a: Amounts)
    requires NonNegative(a) && IsHead(head, a) && a.revenue < Costs(a)
    ensures var lines, entries, short :=
      Lines(head, wallet, a), Adjusted(Lines(head, wallet, a), wallet), Costs(a) - a.revenue;
      if CostOn(wallet, a) > 0 then
        && Balanced(entries)
        && FindWallet(lines, wallet).Some?
        && entries == lines[FindWallet(lines, wallet).value := Entry(wallet, CostOn(wallet, a) - short, 0)]
      else entries == lines && !Balanced(entries)
  {
    var lines, short := Lines(head, wallet, a), Costs(a) - a.revenue;
    LineSums(head, wallet, a);
    NetIsExact(a);
    FindInLines(head, wallet, a);
    hide Debits, Credits, Lines, FindWallet, Round8;
    var k := FindWallet(lines, wallet);
    if k.Some? {
      RoundUnits(CostOn(wallet, a) - short);
      assert Usd(lines[k.value].debit) - Usd(short) == Usd(CostOn(wallet, a) - short);
      DebitsUpdate(lines, k.value, Entry(wallet, CostOn(wallet, a) - short, 0));
    }
  }

  // ----- What gets posted -----

  /** The rounded revenue covers the rounded costs, or a cost line on the wallet's own account takes the shortfall. */
  predicate Settles(a: Amounts, wallet: string) {
    a.revenue >= Costs(a) || CostOn(wallet, a) > 0
  }

  /** The final check passes exactly then. */
  lemma EntriesBalanceIff(head: seq<Entry>, wallet: string, a: Amounts)
    requires NonNegative(a) && IsHead(head, a)
    ensures Balanced(Adjusted(Lines(head, wallet, a), wallet)) <==> Settles(a, wallet)
  {
    if a.revenue >= Costs(a) {
      CoveredNeedsNoAdjustment(head, wallet, a);
    } else {
      ShortfallNeedsCostLine(head, wallet, a);
    }
    hide Lines, Adjusted, Debits, Credits;
  }

  /** The in-memory store has the wallet's account, if there is a net to put on it. */
  predicate WalletFound(a: Amounts, wallet: string) {
    a.revenue <= Costs(a) || wallet in MEMORY_CHART
  }

  lemma FixedAccountsKnown()
    ensures {"revenue", "escrow_pending", "wallet_internal"} <= MEMORY_CHART.Keys
    ensures {"platform_fee", "execution_cost", "gas_cost"} <= MEMORY_CHART.Keys
    ensures forall adapterId :: WalletCodeFor(adapterId) in MEMORY_CHART
  {
  }

  lemma AdjustedKeepsAccounts(chart: Chart, entries: seq<Entry>, wallet: string)
    ensures |Adjusted(entries, wallet)| == |entries|
    ensures forall i :: 0 <= i < |entries| ==> Adjusted(entries, wallet)[i].accountCode == entries[i].accountCode
  {
    hide Debits, Credits, FindWallet, Round8;
  }

  lemma LinesKnownIff(head: seq<Entry>, wallet: string, a: Amounts)
    requires AllKnown(MEMORY_CHART, head)
    ensures AllKnown(MEMORY_CHART, Adjusted(Lines(head, wallet, a), wallet)) <==> WalletFound(a, wallet)
  {
    AdjustedKeepsAccounts(MEMORY_CHART, Lines(head, wallet, a), wallet);
    FixedAccountsKnown();
    NetIsExact(a);
    hide MEMORY_CHART, Adjusted, Net;
    var lines := Lines(head, wallet, a);
    if Net(a) > 0 {
      assert lines[|head|].accountCode == wallet;
    }
    assert forall i :: 0 <= i < |lines| ==>
      lines[i].accountCode in MEMORY_CHART || (Net(a) > 0 && lines[i].accountCode == wallet);
  }

  ghost predicate NonNegativeInput(i: Settlement) {
    i.revenueUsd >= 0.0 && i.platformFeeUsd >= 0.0 && i.executionCostUsd >= 0.0 && i.gasCostUsd >= 0.0
  }

  lemma RoundedNonNegative(i: Settlement)
    requires NonNegativeInput(i)
    ensures NonNegative(Rounded(i))
  {
    RoundNonNegative(i.revenueUsd);
    RoundNonNegative(i.platformFeeUsd);
    RoundNonNegative(i.executionCostUsd);
    RoundNonNegative(i.gasCostUsd);
  }

  /** Exactly when a settlement is posted, whatever the database does: for a task not on record in the store that
      answers, when the revenue covers the costs; only an account that neither store knows can still stop it. */
  lemma SettlementPostsIff(chart: Chart, s: Store, i: Settlement, link: Link)
    requires NonNegativeInput(i)
    ensures PostingOf(chart, s, Settle(i), link) ==
      var s1, a, tx := Queried(s, link.query), Rounded(i), Transaction(i.taskId, Settled, SettlementEntries(i));
      if TaskKnown(Active(s1), i.taskId) then Skipped
      else if Settles(a, WalletOf(i)) &&
        (WalletFound(a, WalletOf(i)) || PostgresTakes(chart, s1, tx, link.write)) then Posted
      else Threw
  {
    var a := Rounded(i);
    RoundedNonNegative(i);
    HeadsAreHeads(a);
    EntriesBalanceIff(SettlementHead(a), WalletOf(i), a);
    FixedAccountsKnown();
    hide MEMORY_CHART;
    LinesKnownIff(SettlementHead(a), WalletOf(i), a);
    hide Adjusted, Lines, Round8, Debits, Credits;
  }

  /** The same for a release; the release of nothing at no cost is skipped. */
  lemma ReleasePostsIff(chart: Chart, s: Store, i: Settlement, link: Link)
    requires NonNegativeInput(i)
    ensures PostingOf(chart, s, Release(i), link) ==
      var a, tx := Rounded(i), Transaction(i.taskId, Settled, ReleaseEntries(i));
      if a.revenue == 0 && Costs(a) == 0 then Skipped
      else if Settles(a, WalletOf(i)) &&
        (WalletFound(a, WalletOf(i)) || PostgresTakes(chart, s, tx, link.write)) then Posted
      else Threw
  {
    var a := Rounded(i);
    RoundedNonNegative(i);
    HeadsAreHeads(a);
    EntriesBalanceIff(ReleaseHead(a), WalletOf(i), a);
    FixedAccountsKnown();
    hide MEMORY_CHART;
    LinesKnownIff(ReleaseHead(a), WalletOf(i), a);
    AdjustedKeepsAccounts(chart, Lines(ReleaseHead(a), WalletOf(i), a), WalletOf(i));
    NothingToRelease(a, WalletOf(i));
    hide Adjusted, Lines, Round8, Debits, Credits;
  }

  lemma NothingToRelease(a: Amounts, wallet: string)
    requires NonNegative(a)
    ensures Lines(ReleaseHead(a), wallet, a) == [] <==> a.revenue == 0 && Costs(a) == 0
  {
    NetIsExact(a);
    hide Net;
  }

  /** On the wallets of the adapters: posted exactly when the rounded revenue covers the rounded costs, and otherwise an
      exception, with any database and any failure of it. */
  lemma AdapterSettlementPostsIff(chart: Chart, s: Store, i: Settlement, link: Link)
    requires NonNegativeInput(i) && i.walletAccountCode.None?
    requires !TaskKnown(Active(Queried(s, link.query)), i.taskId)
    ensures PostingOf(chart, s, Settle(i), link) == if Rounded(i).revenue >= Costs(Rounded(i)) then Posted else Threw
  {
    SettlementPostsIff(chart, s, i, link);
    AdapterWallet(i.adapterId, Rounded(i));
    FixedAccountsKnown();
    hide MEMORY_CHART, CostOn, Round8, WalletCodeFor, PostingOf, PostgresTakes;
  }

  /** The wallets of the adapters are neither cost accounts nor the escrow account. */
  lemma AdapterWallet(adapterId: string, a: Amounts)
    ensures CostOn(WalletCodeFor(adapterId), a) == 0
    ensures WalletCodeFor(adapterId) != "escrow_pending" && WalletCodeFor(adapterId) != "revenue"
  {
    var w := WalletCodeFor(adapterId);
    assert w[0] == 'w' && "platform_fee"[0] == 'p' && "execution_cost"[0] == 'e' && "gas_cost"[0] == 'g';
    assert "escrow_pending"[0] == 'e' && "revenue"[0] == 'r';
  }

  /** The posted net is within two units and twice the epsilon of the unrounded net. */
  lemma NetCloseToExact(i: Settlement)
    ensures var exact := i.revenueUsd - i.platformFeeUsd - i.executionCostUsd - i.gasCostUsd;
      -2.0 / UNITS_PER_USD - 2.0 * EPSILON < Usd(Net(Rounded(i))) - exact < 2.0 / UNITS_PER_USD - 2.0 * EPSILON
  {
    var a := Rounded(i);
    RoundClose(i.revenueUsd);
    RoundClose(i.platformFeeUsd);
    RoundClose(i.executionCostUsd);
    RoundClose(i.gasCostUsd);
    NetIsExact(a);
    hide Round8;
    assert Usd(Net(a)) == Usd(a.revenue) - Usd(a.fee) - Usd(a.execution) - Usd(a.gas);
  }

  /** The lower bound is the best there is, so two units flat are too few: inputs come as close to it as one likes. */
  lemma NetBoundIsTight(d: real) returns (i: Settlement)
    requires 0.0 < d <= 1.0 / UNITS_PER_USD
    ensures NonNegativeInput(i) && Rounded(i).revenue >= Costs(Rounded(i))
    ensures var exact := i.revenueUsd - i.platformFeeUsd - i.executionCostUsd - i.gasCostUsd;
      Usd(Net(Rounded(i))) - exact == -2.0 / UNITS_PER_USD - 2.0 * EPSILON + d
  {
    var half := 0.5 / UNITS_PER_USD - EPSILON;
    i := SettlementInput("", "", 3.5 / UNITS_PER_USD - EPSILON - d, half, half, half, None);
    assert Round8(half) == 1;
    assert Round8(i.revenueUsd) == 3;
    NetIsExact(Rounded(i));
    hide Round8;
  }

  // ----- Whole runs -----

  /** The store after some operations; `links` says for each how far Postgres is reachable. */
  function Books(chart: Chart, s: Store, ops: seq<Op>, links: nat -> Link): Store {
    if ops == [] then s
    else
      var n := |ops| - 1;
      After(chart, Books(chart, s, ops[..n], links), ops[n], links(n))
  }

  ghost predicate PostgresSound(chart: Chart, s: Store) {
    AllBalanced(s.postgres) && forall k :: 0 <= k < |s.postgres| ==> AllAcceptable(chart, s.postgres[k].entries)
  }

  ghost predicate EntriesKnown(chart: Chart, txs: seq<Transaction>) {
    forall k :: 0 <= k < |txs| ==> AllKnown(chart, txs[k].entries)
  }

  lemma PlansBalance(txs: seq<Transaction>, op: Op)
    ensures PlanOf(txs, op).Post? ==> Balanced(PlanOf(txs, op).tx.entries)
  {
    match op
    case Settle(i) =>
    case Release(i) =>
    case Lock(t, a, x) => PairBalances(LockEntries(a, Round8(x)));
    case Refund(t, a, x) => PairBalances(RefundEntries(a, Round8(x)));
    case Deposit(h, w, x) => PairBalances(DepositEntries(w, Round8(x)));
    case Outage =>
  }

  lemma PairBalances(e: seq<Entry>)
    requires |e| == 2
    ensures Debits(e) == e[0].debit + e[1].debit && Credits(e) == e[0].credit + e[1].credit
  {
    DebitsConcat([e[0]], [e[1]]);
    assert e == [e[0]] + [e[1]];
    assert Debits([e[0]][1..]) == 0 && Debits([e[1]][1..]) == 0;
    assert Credits([e[0]][1..]) == 0 && Credits([e[1]][1..]) == 0;
  }

  /** The account an operation can be given from outside. */
  function WalletNamed(op: Op): string {
    match op
    case Settle(i) => WalletOf(i)
    case Release(i) => WalletOf(i)
    case Deposit(_, wallet, _) => wallet
    case _ => "wallet_internal"
  }

  lemma PlansKnown(txs: seq<Transaction>, op: Op)
    requires WalletNamed(op) in MEMORY_CHART
    ensures PlanOf(txs, op).Post? ==> AllKnown(MEMORY_CHART, PlanOf(txs, op).tx.entries)
  {
    FixedAccountsKnown();
    hide MEMORY_CHART, Adjusted, Lines, Balanced;
    match op
    case Settle(i) => LinesKnownIff(SettlementHead(Rounded(i)), WalletOf(i), Rounded(i));
    case Release(i) => LinesKnownIff(ReleaseHead(Rounded(i)), WalletOf(i), Rounded(i));
    case _ =>
  }

  /** One operation: Postgres keeps only balanced transactions it accepts, the in-memory store only entries on its own
      accounts; and these balance too if the wallet that is named is one of them. */
  lemma OperationKeepsBooks(chart: Chart, s: Store, op: Op, link: Link)
    requires PostgresSound(chart, s) && EntriesKnown(MEMORY_CHART, s.memory)
    ensures var s' := After(chart, s, op, link);
      && PostgresSound(chart, s') && EntriesKnown(MEMORY_CHART, s'.memory)
      && (AllBalanced(s.memory) && WalletNamed(op) in MEMORY_CHART ==> AllBalanced(s'.memory))
  {
    var s1 := Asked(s, op, link);
    PlansBalance(Active(s1), op);
    hide MEMORY_CHART, PlanOf, AllAcceptable, Balanced, AllKnown, WalletNamed;
    if WalletNamed(op) in MEMORY_CHART {
      PlansKnown(Active(s1), op);
    }
  }

  lemma {:induction false} BooksStaySound(chart: Chart, s: Store, ops: seq<Op>, links: nat -> Link)
    requires PostgresSound(chart, s) && EntriesKnown(MEMORY_CHART, s.memory)
    ensures var s' := Books(chart, s, ops, links);
      && PostgresSound(chart, s') && EntriesKnown(MEMORY_CHART, s'.memory)
      && (AllBalanced(s.memory) && (forall op :: op in ops ==> WalletNamed(op) in MEMORY_CHART) ==>
        AllBalanced(s'.memory))
  {
    if ops != [] {
      hide After, MEMORY_CHART, PostgresSound, EntriesKnown, AllBalanced, WalletNamed;
      var n := |ops| - 1;
      BooksStaySound(chart, s, ops[..n], links);
      OperationKeepsBooks(chart, Books(chart, s, ops[..n], links), ops[n], links(n));
    }
  }

  lemma {:induction false} BalancedTotals(txs: seq<Transaction>)
    requires AllBalanced(txs)
    ensures AllDebits(txs) == AllCredits(txs)
  {
    if txs != [] {
      BalancedTotals(txs[..|txs| - 1]);
    }
  }

  /** A balance with the sign of its debit side. */
  function Signed(chart: Chart, code: string, v: int): int {
    if code in chart && !DebitNormal(chart[code]) then -v else v
  }

  /** Balances of debit-normal accounts minus balances of credit-normal ones. */
  function Equation(chart: Chart, txs: seq<Transaction>, codes: seq<string>): int {
    if codes == [] then 0
    else Signed(chart, codes[0], Balance(chart, txs, codes[0])) + Equation(chart, txs, codes[1..])
  }

  function EquationOf(chart: Chart, entries: seq<Entry>, codes: seq<string>): int {
    if codes == [] then 0
    else Signed(chart, codes[0], Moved(chart, entries, codes[0])) + EquationOf(chart, entries, codes[1..])
  }

  lemma {:induction false} EquationStep(chart: Chart, txs: seq<Transaction>, tx: Transaction, codes: seq<string>)
    ensures Equation(chart, txs + [tx], codes) == Equation(chart, txs, codes) + EquationOf(chart, tx.entries, codes)
  {
    if codes != [] {
      assert (txs + [tx])[..|txs|] == txs;
      EquationStep(chart, txs, tx, codes[1..]);
    }
  }

  lemma {:induction false} EquationEntry(chart: Chart, e: Entry, rest: seq<Entry>, codes: seq<string>)
    requires NoDup(codes) && e.accountCode in chart
    ensures EquationOf(chart, [e] + rest, codes) ==
      EquationOf(chart, rest, codes) + if e.accountCode in codes then e.debit - e.credit else 0
  {
    if codes != [] {
      assert ([e] + rest)[1..] == rest;
      assert forall c :: c in codes <==> c == codes[0] || c in codes[1..];
      EquationEntry(chart, e, rest, codes[1..]);
    }
  }

  lemma {:induction false} EquationEmpty(chart: Chart, codes: seq<string>)
    ensures EquationOf(chart, [], codes) == 0 && Equation(chart, [], codes) == 0
  {
    if codes != [] {
      EquationEmpty(chart, codes[1..]);
    }
  }

  lemma {:induction false} EquationEntries(chart: Chart, entries: seq<Entry>, codes: seq<string>)
    requires NoDup(codes) && (forall c :: c in chart ==> c in codes) && AllKnown(chart, entries)
    ensures EquationOf(chart, entries, codes) == Debits(entries) - Credits(entries)
  {
    if entries == [] {
      EquationEmpty(chart, codes);
    } else {
      assert entries == [entries[0]] + entries[1..];
      assert forall i :: 0 <= i < |entries[1..]| ==> entries[1..][i] == entries[i + 1];
      EquationEntries(chart, entries[1..], codes);
      EquationEntry(chart, entries[0], entries[1..], codes);
    }
  }

  /** The accounting equation is off by exactly what the trial balance is off. */
  lemma {:induction false} EquationIsTrialBalance(chart: Chart, txs: seq<Transaction>, codes: seq<string>)
    requires NoDup(codes) && (forall c :: c in chart ==> c in codes) && EntriesKnown(chart, txs)
    ensures Equation(chart, txs, codes) == AllDebits(txs) - AllCredits(txs)
  {
    if txs == [] {
      EquationEmpty(chart, codes);
    } else {
      var front, last := txs[..|txs| - 1], txs[|txs| - 1];
      assert txs == front + [last];
      EquationIsTrialBalance(chart, front, codes);
      EquationStep(chart, front, last, codes);
      EquationEntries(chart, last.entries, codes);
    }
  }

  /** After any operations, whatever Postgres did: its books balance, transaction by transaction, with one-sided entries
      on known accounts; its trial balance is zero, and so is assets plus expenses minus liabilities, equity and
      revenue.
      The books in memory keep the same equation whenever all wallets named are accounts of that store. */
  lemma BooksBalance(chart: Chart, configured: bool, ops: seq<Op>, links: nat -> Link, codes: seq<string>)
    requires NoDup(codes) && forall c :: c in chart || c in MEMORY_CHART ==> c in codes
    ensures var s := Books(chart, Store(!configured, [], []), ops, links);
      && PostgresSound(chart, s)
      && AllDebits(s.postgres) == AllCredits(s.postgres)
      && Equation(chart, s.postgres, codes) == 0
      && Equation(MEMORY_CHART, s.memory, codes) == AllDebits(s.memory) - AllCredits(s.memory)
      && ((forall op :: op in ops ==> WalletNamed(op) in MEMORY_CHART) ==>
            && AllBalanced(s.memory)
            && AllDebits(s.memory) == AllCredits(s.memory)
            && Equation(MEMORY_CHART, s.memory, codes) == 0)
  {
    hide Books, MEMORY_CHART, Equation, WalletNamed, Balanced;
    BooksStaySound(chart, Store(!configured, [], []), ops, links);
    var s := Books(chart, Store(!configured, [], []), ops, links);
    assert EntriesKnown(chart, s.postgres);
    BalancedTotals(s.postgres);
    EquationIsTrialBalance(chart, s.postgres, codes);
    EquationIsTrialBalance(MEMORY_CHART, s.memory, codes);
    if AllBalanced(s.memory) {
      BalancedTotals(s.memory);
    }
  }

  // ----- What the fallback costs -----

  ghost predicate NonNegativeOp(op: Op) {
    match op
    case Settle(i) => NonNegativeInput(i)
    case Release(i) => NonNegativeInput(i)
    case _ => true
  }

  /** A settlement or release with a net for a wallet that the in-memory store, which has to write it, does not know. */
  predicate Tears(chart: Chart, s: Store, op: Op, link: Link) {
    var s1 := Asked(s, op, link);
    var plan := PlanOf(Active(s1), op);
    && (op.Settle? || op.Release?)
    && plan.Post?
    && !PostgresTakes(chart, s1, plan.tx, link.write)
    && !WalletFound(Rounded(op.i), WalletOf(op.i))
  }

  /** The entries before an unknown wallet are the credit side alone. */
  lemma PrefixIsHead(head: seq<Entry>, wallet: string, a: Amounts)
    requires NonNegative(a) && IsHead(head, a) && AllKnown(MEMORY_CHART, head) && !WalletFound(a, wallet)
    ensures KnownPrefix(MEMORY_CHART, Adjusted(Lines(head, wallet, a), wallet)) == head
    ensures !Balanced(head)
  {
    CoveredNeedsNoAdjustment(head, wallet, a);
    NetIsExact(a);
    hide MEMORY_CHART, Adjusted, Net, Debits, Credits;
    var lines := Lines(head, wallet, a);
    assert lines[|head|] == Entry(wallet, Net(a), 0);
    assert forall i :: 0 <= i < |head| ==> lines[i] == head[i];
    var prefix := KnownPrefix(MEMORY_CHART, lines);
    assert forall i :: 0 <= i < |prefix| ==> prefix[i] == lines[i];
    assert prefix == head;
  }

  lemma WrittenBalancesIff(txs: seq<Transaction>, op: Op)
    requires PlanOf(txs, op).Post? && NonNegativeOp(op)
    ensures Balanced(KnownPrefix(MEMORY_CHART, PlanOf(txs, op).tx.entries)) <==>
      !((op.Settle? || op.Release?) && !WalletFound(Rounded(op.i), WalletOf(op.i)))
  {
    FixedAccountsKnown();
    PlansBalance(txs, op);
    hide MEMORY_CHART, Adjusted, Lines, KnownPrefix, Debits, Credits, Round8;
    match op
    case Settle(i) =>
      var a, head, wallet := Rounded(i), SettlementHead(Rounded(i)), WalletOf(i);
      RoundedNonNegative(i);
      HeadsAreHeads(a);
      LinesKnownIff(head, wallet, a);
      if !WalletFound(a, wallet) {
        PrefixIsHead(head, wallet, a);
      }
    case Release(i) =>
      var a, head, wallet := Rounded(i), ReleaseHead(Rounded(i)), WalletOf(i);
      RoundedNonNegative(i);
      HeadsAreHeads(a);
      LinesKnownIff(head, wallet, a);
      if !WalletFound(a, wallet) {
        PrefixIsHead(head, wallet, a);
      }
    case Deposit(_, wallet, _) =>
      if wallet in MEMORY_CHART {
        PlansKnown(txs, op);
      } else {
        NothingBalances();
        UnknownFirst(MEMORY_CHART, PlanOf(txs, op).tx.entries);
      }
    case _ =>
      PlansKnown(txs, op);
  }

  lemma NothingBalances()
    ensures Balanced([])
  {
  }

  lemma UnknownFirst(chart: Chart, entries: seq<Entry>)
    requires entries != [] && entries[0].accountCode !in chart
    ensures KnownPrefix(chart, entries) == []
  {
  }

  /** Exactly which operations leave a transaction in memory that does not balance. */
  lemma OperationUnbalancesIff(chart: Chart, s: Store, op: Op, link: Link)
    requires AllBalanced(s.memory) && NonNegativeOp(op)
    ensures AllBalanced(After(chart, s, op, link).memory) <==> !Tears(chart, s, op, link)
  {
    var s1 := Asked(s, op, link);
    var plan := PlanOf(Active(s1), op);
    assert s1.memory == s.memory;
    hide PlanOf, MEMORY_CHART, KnownPrefix, Balanced, AllBalanced, WalletFound, PostgresTakes;
    if plan.Post? && !PostgresTakes(chart, s1, plan.tx, link.write) {
      WrittenBalancesIff(Active(s1), op);
      OneMore(s.memory, plan.tx.(entries := KnownPrefix(MEMORY_CHART, plan.tx.entries)));
    }
  }

  lemma OneMore(txs: seq<Transaction>, tx: Transaction)
    ensures AllBalanced(txs + [tx]) <==> AllBalanced(txs) && Balanced(tx.entries)
  {
    hide Balanced;
    assert (txs + [tx])[|txs|] == tx && forall k :: 0 <= k < |txs| ==> (txs + [tx])[k] == txs[k];
  }

  /** In memory, exactly the settlements with a net for an unknown wallet. */
  lemma SettlementTearsIff(chart: Chart, s: Store, i: Settlement, link: Link)
    requires NonNegativeInput(i) && s.mock && !TaskKnown(s.memory, i.taskId)
    ensures Tears(chart, s, Settle(i), link) <==>
      Rounded(i).revenue > Costs(Rounded(i)) && WalletOf(i) !in MEMORY_CHART
  {
    var a := Rounded(i);
    RoundedNonNegative(i);
    HeadsAreHeads(a);
    EntriesBalanceIff(SettlementHead(a), WalletOf(i), a);
    hide MEMORY_CHART, TaskKnown, Adjusted, Lines, Round8, Debits, Credits;
  }

  /** One of them: a dollar for a wallet that is not among the accounts. */
  lemma ATornSettlement(chart: Chart, link: Link)
    ensures var i := SettlementInput("t", "okx", 1.0, 0.0, 0.0, 0.0, Some("wallet_base"));
      Tears(chart, Store(true, [], []), Settle(i), link)
  {
    var i := SettlementInput("t", "okx", 1.0, 0.0, 0.0, 0.0, Some("wallet_base"));
    assert Round8(1.0) == 100000000 && Round8(0.0) == 0;
    assert "wallet_base" !in MEMORY_CHART;
    hide MEMORY_CHART, Round8;
    SettlementTearsIff(chart, Store(true, [], []), i, link);
  }

  /** Such a settlement throws with the revenue booked and nothing against it; as its task is now on record, no repeat
      completes it. */
  lemma TornSettlementStays(chart: Chart, s: Store, i: Settlement, link: Link, later: Link)
    requires NonNegativeInput(i) && Tears(chart, s, Settle(i), link)
    ensures var s' := After(chart, s, Settle(i), link);
      && PostingOf(chart, s, Settle(i), link) == Threw
      && s'.mock
      && s'.memory == s.memory + [Transaction(i.taskId, Settled, [Entry("revenue", 0, Round8(i.revenueUsd))])]
      && After(chart, s', Settle(i), later) == s'
      && PostingOf(chart, s', Settle(i), later) == Skipped
  {
    var a := Rounded(i);
    RoundedNonNegative(i);
    HeadsAreHeads(a);
    FixedAccountsKnown();
    SettlementPostsIff(chart, s, i, link);
    PrefixIsHead(SettlementHead(a), WalletOf(i), a);
    hide MEMORY_CHART, KnownPrefix, Adjusted, Lines, Round8, Debits, Credits, WalletFound, Settles, PostgresTakes;
    var s' := After(chart, s, Settle(i), link);
    assert s'.memory[|s.memory|].taskId == i.taskId;
    assert TaskKnown(Active(s'), i.taskId);
  }

  /** "Idempotent on the task" holds as long as the store that answers has the task on record: exactly when it does not,
      a settled task is settled a second time. */
  lemma SettledAgainIff(chart: Chart, s: Store, i: Settlement, link: Link)
    requires NonNegativeInput(i) && i.walletAccountCode.None? && Rounded(i).revenue >= Costs(Rounded(i))
    requires TaskKnown(s.postgres, i.taskId)
    ensures PostingOf(chart, s, Settle(i), link) == Posted <==>
      (s.mock || !link.query) && !TaskKnown(s.memory, i.taskId)
  {
    if !TaskKnown(Active(Queried(s, link.query)), i.taskId) {
      AdapterSettlementPostsIff(chart, s, i, link);
    }
    hide TaskKnown, Round8, Adjusted, Lines;
  }

  /** The default wallet of a deposit is not among the migrated accounts: the first such deposit moves the ledger into
      memory for good, where it is posted. */
  lemma DepositLeavesPostgres(s: Store, txHash: string, amountUsd: real, link: Link)
    requires !s.mock && link.query && !TaskKnown(s.postgres, txHash) && Round8(amountUsd) > 0
    ensures var op := Deposit(txHash, "wallet_solana", amountUsd);
      var tx := Transaction(txHash, Settled, DepositEntries("wallet_solana", Round8(amountUsd)));
      && After(MIGRATED_CHART, s, op, link) == Store(true, s.postgres, s.memory + [tx])
      && PostingOf(MIGRATED_CHART, s, op, link) == Posted
  {
    var op := Deposit(txHash, "wallet_solana", amountUsd);
    var entries := DepositEntries("wallet_solana", Round8(amountUsd));
    assert !AllAcceptable(MIGRATED_CHART, entries) by {
      assert entries[0].accountCode == "wallet_solana";
      assert "wallet_solana" !in MIGRATED_CHART;
    }
    assert "wallet_solana" in MEMORY_CHART;
    hide MIGRATED_CHART;
    PlansKnown(s.postgres, op);
    hide MEMORY_CHART, TaskKnown;
  }

  lemma BalanceStep(chart: Chart, txs: seq<Transaction>, tx: Transaction, code: string)
    ensures Balance(chart, txs + [tx], code) == Balance(chart, txs, code) + Moved(chart, tx.entries, code)
  {
    assert (txs + [tx])[..|txs|] == txs;
  }

  /** A refund moves back exactly what the lock of the same amount moved. */
  lemma RefundUndoesLock(chart: Chart, adapterId: string, amount: int, code: string)
    ensures
      Moved(chart, LockEntries(adapterId, amount), code) + Moved(chart, RefundEntries(adapterId, amount), code) == 0
  {
    MovedPair(chart, LockEntries(adapterId, amount), code);
    MovedPair(chart, RefundEntries(adapterId, amount), code);
  }

  lemma MovedPair(chart: Chart, e: seq<Entry>, code: string)
    requires |e| == 2
    ensures Moved(chart, e, code) == EntryWeight(chart, e[0], code) + EntryWeight(chart, e[1], code)
  {
    assert e[1..] == [e[1]];
    assert Moved(chart, [e[1]][1..], code) == 0;
  }
}
