/** The database behind the ledger: Postgres, and the in-memory store that takes over at its first failure. */
module Persistence {

  datatype AccountType = Asset | Liability | Equity | Revenue | Expense

  type Chart = map<string, AccountType>

  datatype Entry = Entry(accountCode: string, debit: int, credit: int)

  datatype Kind = Pending | Settled | FailedTask

  datatype Transaction = Transaction(taskId: string, kind: Kind, entries: seq<Entry>)

  /** The accounts of the in-memory store. */
  const MEMORY_CHART: Chart := map[
    "wallet_mock" := Asset, "wallet_railway" := Asset, "wallet_okx" := Asset, "wallet_clustly" := Asset,
    "wallet_internal" := Asset, "wallet_solana" := Asset, "escrow_pending" := Asset,
    "platform_fee" := Expense, "execution_cost" := Expense, "gas_cost" := Expense,
    "revenue" := Revenue, "equity" := Equity]

  /** The accounts the migrations create in Postgres. */
  const MIGRATED_CHART: Chart := map[
    "wallet_mock" := Asset, "wallet_railway" := Asset, "wallet_okx" := Asset, "wallet_clustly" := Asset,
    "wallet_internal" := Asset, "escrow_pending" := Asset,
    "platform_fee" := Expense, "execution_cost" := Expense, "gas_cost" := Expense,
    "revenue" := Revenue, "equity" := Equity]

  /** `mock` says that the in-memory store is in use; nothing ever resets it. */
  datatype Store = Store(mock: bool, postgres: seq<Transaction>, memory: seq<Transaction>)

  function Active(s: Store): seq<Transaction> {
    if s.mock then s.memory else s.postgres
  }

  function ActiveChart(chart: Chart, s: Store): Chart {
    if s.mock then MEMORY_CHART else chart
  }

  predicate TaskKnown(txs: seq<Transaction>, taskId: string) {
    exists k :: 0 <= k < |txs| && txs[k].taskId == taskId
  }

  /** Postgres accepts an entry on a known account with exactly one positive side. */
  predicate Acceptable(chart: Chart, e: Entry) {
    e.accountCode in chart && ((e.debit > 0 && e.credit == 0) || (e.debit == 0 && e.credit > 0))
  }

  predicate AllAcceptable(chart: Chart, entries: seq<Entry>) {
    forall i :: 0 <= i < |entries| ==> Acceptable(chart, entries[i])
  }

  predicate AllKnown(chart: Chart, entries: seq<Entry>) {
    forall i :: 0 <= i < |entries| ==> entries[i].accountCode in chart
  }

  /** The entries before the first one on an unknown account. */
  function KnownPrefix(chart: Chart, entries: seq<Entry>): (r: seq<Entry>)
    ensures r <= entries && AllKnown(chart, r)
    ensures AllKnown(chart, entries) ==> r == entries
    ensures !AllKnown(chart, entries) ==> |r| < |entries| && entries[|r|].accountCode !in chart
  {
    if entries == [] || entries[0].accountCode !in chart then []
    else
      var r := [entries[0]] + KnownPrefix(chart, entries[1..]);
      assert forall i :: 0 < i < |entries| ==> entries[i] == entries[1..][i - 1];
      r
  }

  /** Postgres commits a transaction when it is reachable and accepts every entry. */
  predicate PostgresTakes(chart: Chart, s: Store, tx: Transaction, up: bool) {
    !s.mock && up && AllAcceptable(chart, tx.entries)
  }

  /** A failed query makes the in-memory store answer, now and from now on. */
  function Queried(s: Store, up: bool): Store {
    if up then s else s.(mock := true)
  }

  /** A transaction that Postgres does not take is run again in memory, where it stops at the first unknown account and
      nothing is rolled back. */
  function Written(chart: Chart, s: Store, tx: Transaction, up: bool): Store {
    if PostgresTakes(chart, s, tx, up) then s.(postgres := s.postgres + [tx])
    else Store(true, s.postgres, s.memory + [tx.(entries := KnownPrefix(MEMORY_CHART, tx.entries))])
  }

  predicate WriteThrows(chart: Chart, s: Store, tx: Transaction, up: bool) {
    !PostgresTakes(chart, s, tx, up) && !AllKnown(MEMORY_CHART, tx.entries)
  }

  class Database {
    const chart: Chart
    var mock: bool
    var postgres: seq<Transaction>
    var memory: seq<Transaction>

    /** Without a usable URL the in-memory store is in use from the start. */
    constructor (chart: Chart, configured: bool)
      ensures this.chart == chart && View() == Store(!configured, [], [])
    {
      this.chart := chart;
      mock, postgres, memory := !configured, [], [];
    }

    function View(): Store
      reads this
    {
      Store(mock, postgres, memory)
    }

    /** Looks a task up in the store that answers. */
    method TaskRecorded(taskId: string, up: bool) returns (found: bool)
      modifies this
      ensures View() == Queried(old(View()), up)
      ensures found <==> TaskKnown(Active(View()), taskId)
    {
      if !up {
        mock := true;
      }
      var rows := if mock then memory else postgres;
      found := false;
      for k := 0 to |rows|
        invariant found <==> exists j :: 0 <= j < k && rows[j].taskId == taskId
      {
        if rows[k].taskId == taskId {
          found := true;
        }
      }
    }

    /** withTransaction around the insertion of a transaction and its entries. */
    method WithTransaction(tx: Transaction, up: bool) returns (threw: bool)
      modifies this
      ensures View() == Written(chart, old(View()), tx, up)
      ensures threw <==> WriteThrows(chart, old(View()), tx, up)
    {
      if !mock {
        var committed := TryPostgres(tx, up);
        if committed {
          return false;
        }
        mock := true;
      }
      threw := InsertInMemory(tx);
    }

    /** Everything or nothing. */
    method TryPostgres(tx: Transaction, up: bool) returns (committed: bool)
      modifies this`postgres
      ensures committed <==> up && AllAcceptable(chart, tx.entries)
      ensures postgres == if committed then old(postgres) + [tx] else old(postgres)
    {
      if !up {
        return false;
      }
      for i := 0 to |tx.entries|
        invariant forall j :: 0 <= j < i ==> Acceptable(chart, tx.entries[j])
      {
        if !Acceptable(chart, tx.entries[i]) {
          return false;
        }
      }
      postgres := postgres + [tx];
      committed := true;
    }

    /** Row by row, the transaction first. */
    method InsertInMemory(tx: Transaction) returns (threw: bool)
      modifies this`memory
      ensures memory == old(memory) + [tx.(entries := KnownPrefix(MEMORY_CHART, tx.entries))]
      ensures threw <==> !AllKnown(MEMORY_CHART, tx.entries)
    {
      hide MEMORY_CHART, KnownPrefix;
      ghost var prefix := KnownPrefix(MEMORY_CHART, tx.entries);
      memory := memory + [tx.(entries := [])];
      for i := 0 to |tx.entries|
        invariant i <= |prefix|
        invariant memory == old(memory) + [tx.(entries := tx.entries[..i])]
      {
        assert i < |prefix| ==> prefix[i] == tx.entries[i];
        if tx.entries[i].accountCode !in MEMORY_CHART {
          assert prefix == tx.entries[..i];
          return true;
        }
        var row := memory[|memory| - 1];
        memory := memory[|memory| - 1 := row.(entries := row.entries + [tx.entries[i]])];
        assert tx.entries[..i + 1] == tx.entries[..i] + [tx.entries[i]];
      }
      assert tx.entries[..|tx.entries|] == tx.entries;
      threw := false;
    }
  }
}
