/** The escrow system: records, the task index, the reconciliation queue and the telemetry totals. */
module Escrow {
  import opened Collections

  type TaskId = string
  type EscrowId = string

  datatype Status = Locked | Released | Refunded | Failed

  datatype Record = Record(escrowId: EscrowId, taskId: TaskId, amount: real, from: string, to: string, status: Status)

  datatype Totals = Totals(locked: real, released: real, refunded: real)

  /** `order` is the insertion order of the store. */
  datatype State = State(
    store: map<EscrowId, Record>,
    order: seq<EscrowId>,
    byTask: map<TaskId, EscrowId>,
    queue: set<TaskId>,
    totals: Totals)

  const EMPTY := State(map[], [], map[], {}, Totals(0.0, 0.0, 0.0))

  function SetStatus(s: State, id: EscrowId, status: Status): State
    requires id in s.store
  {
    s.(store := s.store[id := s.store[id].(status := status)])
  }

  /** The escrow id a successful lock returns, or None. */
  function LockResult(s: State, task: TaskId, amount: real, freshId: EscrowId): Option<EscrowId> {
    if task in s.byTask then
      if s.byTask[task] in s.store && s.store[s.byTask[task]].status == Locked then Some(s.byTask[task]) else None
    else if amount <= 0.0 then None
    else Some(freshId)
  }

  function AfterLock(s: State, task: TaskId, amount: real, from: string, to: string, freshId: EscrowId): State {
    if task in s.byTask || amount <= 0.0 then s
    else
      State(s.store[freshId := Record(freshId, task, amount, from, to, Locked)],
            s.order + [freshId],
            s.byTask[task := freshId],
            s.queue,
            s.totals.(locked := s.totals.locked + amount))
  }

  /** The record the task index agrees with. */
  predicate Found(s: State, task: TaskId, id: EscrowId) {
    task in s.byTask && s.byTask[task] == id && id in s.store
  }

  /** `works` says whether some attempt of the retry loop went through. */
  function AfterRelease(s: State, task: TaskId, id: EscrowId, works: bool): State {
    if Found(s, task, id) && s.store[id].status == Locked && works then
      SetStatus(s, id, Released).(
        queue := s.queue - {task},
        totals := s.totals.(released := s.totals.released + s.store[id].amount))
    else s
  }

  predicate ReleaseResult(s: State, task: TaskId, id: EscrowId, works: bool) {
    Found(s, task, id) && (s.store[id].status == Released || (s.store[id].status == Locked && works))
  }

  function AfterRefund(s: State, task: TaskId, id: EscrowId, works: bool): State {
    if Found(s, task, id) && s.store[id].status == Locked then
      if works then
        SetStatus(s, id, Refunded).(
          queue := s.queue - {task},
          totals := s.totals.(refunded := s.totals.refunded + s.store[id].amount))
      else
        SetStatus(s, id, Failed).(queue := s.queue + {task})
    else s
  }

  predicate RefundResult(s: State, task: TaskId, id: EscrowId, works: bool) {
    Found(s, task, id) && (s.store[id].status == Refunded || (s.store[id].status == Locked && works))
  }

  /** Attempt i of the retry loop throws or not; the first that does not decides. */
  predicate SomeAttemptWorks(throws: nat -> bool, maxRetries: nat) {
    exists i :: 0 <= i < maxRetries && !throws(i)
  }

  class EscrowRecord {
    const escrowId: EscrowId
    const taskId: TaskId
    const amount: real
    const from: string
    const to: string
    var status: Status

    constructor (escrowId: EscrowId, taskId: TaskId, amount: real, from: string, to: string)
      ensures View() == Record(escrowId, taskId, amount, from, to, Locked)
    {
      this.escrowId, this.taskId, this.amount, this.from, this.to := escrowId, taskId, amount, from, to;
      status := Locked;
    }

    function View(): Record
      reads this
    {
      Record(escrowId, taskId, amount, from, to, status)
    }
  }

  class EscrowSystem {
    const maxRetries: nat
    var store: map<EscrowId, EscrowRecord>
    var order: seq<EscrowId>
    var taskIdToEscrowId: map<TaskId, EscrowId>
    var reconciliationQueue: set<TaskId>
    var totals: Totals

    constructor (maxRetries: nat)
      ensures this.maxRetries == maxRetries && Valid() && View() == EMPTY
    {
      this.maxRetries := maxRetries;
      store, order, taskIdToEscrowId, reconciliationQueue, totals := map[], [], map[], {}, Totals(0.0, 0.0, 0.0);
    }

    /** Each record is stored under its own id, and the task index only names stored records. */
    ghost predicate Valid()
      reads this
    {
      && (forall id :: id in store ==> store[id].escrowId == id)
      && forall t :: t in taskIdToEscrowId ==> taskIdToEscrowId[t] in store
    }

    ghost function View(): State
      reads this, store.Values
    {
      State(map id | id in store :: store[id].View(), order, taskIdToEscrowId, reconciliationQueue, totals)
    }

    twostate lemma OneRecordAdded(new record: EscrowRecord)
      requires record.escrowId !in old(store) && store == old(store)[record.escrowId := record]
      requires forall id :: id in old(store) ==> old(store[id].View()) == store[id].View()
      ensures View() ==
        State(old(View()).store[record.escrowId := record.View()], order, taskIdToEscrowId, reconciliationQueue, totals)
    {
    }

    lemma ViewParts()
      requires Valid()
      ensures View().byTask == taskIdToEscrowId && View().order == order
      ensures View().queue == reconciliationQueue && View().totals == totals
      ensures View().store.Keys == store.Keys
      ensures forall t :: t in taskIdToEscrowId ==>
        View().store[taskIdToEscrowId[t]] == store[taskIdToEscrowId[t]].View()
    {
    }

    method LockFunds(taskId: TaskId, amount: real, from: string, to: string, freshId: EscrowId)
      returns (escrowId: Option<EscrowId>)
      requires Valid() && freshId !in store
      modifies this
      ensures Valid()
      ensures View() == AfterLock(old(View()), taskId, amount, from, to, freshId)
      ensures escrowId == LockResult(old(View()), taskId, amount, freshId)
      ensures forall r :: r in store.Values ==> r in old(store.Values) || fresh(r)
    {
      hide EscrowSystem.View;
      ViewParts();
      if taskId in taskIdToEscrowId {
        var record := store[taskIdToEscrowId[taskId]];
        if record.status == Locked {
          return Some(record.escrowId);
        }
        return None;
      }
      if amount <= 0.0 {
        return None;
      }
      var record := new EscrowRecord(freshId, taskId, amount, from, to);
      store := store[freshId := record];
      order := order + [freshId];
      taskIdToEscrowId := taskIdToEscrowId[taskId := freshId];
      totals := totals.(locked := totals.locked + amount);
      OneRecordAdded(record);
      return Some(freshId);
    }

    method GetRecord(taskId: TaskId, escrowId: EscrowId) returns (record: EscrowRecord?)
      requires Valid()
      ensures record != null <==> Found(View(), taskId, escrowId)
      ensures record != null ==> escrowId in store && record == store[escrowId]
    {
      if taskId in taskIdToEscrowId && taskIdToEscrowId[taskId] == escrowId {
        return store[escrowId];
      }
      return null;
    }

    /** The retry loop around an operation whose attempt i throws when throws(i). */
    method ExecuteWithRetry(throws: nat -> bool) returns (works: bool)
      ensures works <==> SomeAttemptWorks(throws, maxRetries)
    {
      var attempts := 0;
      while attempts < maxRetries
        invariant attempts <= maxRetries
        invariant forall i :: 0 <= i < attempts ==> throws(i)
      {
        attempts := attempts + 1;
        if !throws(attempts - 1) {
          return true;
        }
      }
      return false;
    }

    /** Writing one record's status changes the value of the store at one id. */
    twostate lemma OneRecordChanged(id: EscrowId)
      requires old(Valid()) && store == old(store) && order == old(order)
      requires taskIdToEscrowId == old(taskIdToEscrowId)
      requires id in store && store[id].View() == old(store[id].View()).(status := store[id].status)
      requires forall r :: r in store.Values && r != store[id] ==> r.View() == old(r.View())
      ensures Valid()
      ensures View() == SetStatus(old(View()), id, store[id].status).(queue := reconciliationQueue, totals := totals)
    {
      forall j | j in store && j != id ensures store[j].View() == old(store[j].View()) {
        assert store[j] in store.Values && store[j] != store[id];
      }
    }

    method ReleaseFunds(taskId: TaskId, escrowId: EscrowId, throws: nat -> bool) returns (success: bool)
      requires Valid()
      modifies this, store.Values
      ensures Valid() && store == old(store)
      ensures View() == AfterRelease(old(View()), taskId, escrowId, SomeAttemptWorks(throws, maxRetries))
      ensures success == ReleaseResult(old(View()), taskId, escrowId, SomeAttemptWorks(throws, maxRetries))
    {
      hide SomeAttemptWorks;
      var record := GetRecord(taskId, escrowId);
      if record == null {
        return false;
      }
      if record.status == Released {
        return true;
      }
      if record.status != Locked {
        return false;
      }
      success := ExecuteWithRetry(throws);
      if success {
        record.status := Released;
        reconciliationQueue := reconciliationQueue - {taskId};
        totals := totals.(released := totals.released + record.amount);
        OneRecordChanged(escrowId);
      }
    }

    method RefundFunds(taskId: TaskId, escrowId: EscrowId, throws: nat -> bool) returns (success: bool)
      requires Valid()
      modifies this, store.Values
      ensures Valid() && store == old(store)
      ensures View() == AfterRefund(old(View()), taskId, escrowId, SomeAttemptWorks(throws, maxRetries))
      ensures success == RefundResult(old(View()), taskId, escrowId, SomeAttemptWorks(throws, maxRetries))
    {
      hide SomeAttemptWorks;
      var record := GetRecord(taskId, escrowId);
      if record == null {
        return false;
      }
      if record.status == Refunded {
        return true;
      }
      if record.status != Locked {
        return false;
      }
      success := ExecuteWithRetry(throws);
      if success {
        record.status := Refunded;
        reconciliationQueue := reconciliationQueue - {taskId};
        totals := totals.(refunded := totals.refunded + record.amount);
      }
      if !success {
        record.status := Failed;
        reconciliationQueue := reconciliationQueue + {taskId};
      }
      OneRecordChanged(escrowId);
    }

    method GetStuckTransactions() returns (stuck: set<TaskId>)
      ensures stuck == View().queue
    {
      stuck := reconciliationQueue;
    }
  }

  // ----- Whole runs -----

  datatype Call =
    | Lock(taskId: TaskId, amount: real, from: string, to: string, freshId: EscrowId)
    | Release(taskId: TaskId, escrowId: EscrowId, works: bool)
    | Refund(taskId: TaskId, escrowId: EscrowId, works: bool)

  function After(s: State, c: Call): State {
    match c
    case Lock(t, amount, from, to, freshId) => AfterLock(s, t, amount, from, to, freshId)
    case Release(t, id, works) => AfterRelease(s, t, id, works)
    case Refund(t, id, works) => AfterRefund(s, t, id, works)
  }

  /** Random ids do not collide. */
  ghost predicate UsesFreshId(s: State, c: Call) {
    c.Lock? ==> c.freshId !in s.store
  }

  function Run(s: State, calls: seq<Call>): State
    decreases |calls|
  {
    if calls == [] then s else Run(After(s, calls[0]), calls[1..])
  }

  ghost predicate FreshRun(s: State, calls: seq<Call>)
    decreases |calls|
  {
    calls != [] ==> UsesFreshId(s, calls[0]) && FreshRun(After(s, calls[0]), calls[1..])
  }

  /** One record per task, both maps agreeing. */
  ghost predicate Indexed(s: State) {
    && NoDup(s.order) && (forall id :: id in s.order <==> id in s.store)
    && (forall id :: id in s.store ==> s.store[id].escrowId == id && s.store[id].amount > 0.0)
    && (forall id :: id in s.store ==> s.store[id].taskId in s.byTask && s.byTask[s.store[id].taskId] == id)
    && (forall t :: t in s.byTask ==> s.byTask[t] in s.store && s.store[s.byTask[t]].taskId == t)
  }

  function Weight(r: Record): real {
    if r.status == Locked || r.status == Failed then r.amount else 0.0
  }

  /** The sum of a weight over the records, in insertion order. */
  function Total(store: map<EscrowId, Record>, order: seq<EscrowId>, weight: Record -> real): real {
    if order == [] then 0.0
    else
      var id := order[|order| - 1];
      Total(store, order[..|order| - 1], weight) + if id in store then weight(store[id]) else 0.0
  }

  /** Money that has neither been paid out nor given back. */
  function Outstanding(s: State): real {
    Total(s.store, s.order, Weight)
  }

  ghost predicate Conserved(s: State) {
    s.totals.locked == s.totals.released + s.totals.refunded + Outstanding(s)
  }

  /** The stuck queue lists exactly the tasks whose refund failed. */
  ghost predicate QueueExact(s: State) {
    forall t :: t in s.queue <==> t in s.byTask && s.byTask[t] in s.store && s.store[s.byTask[t]].status == Failed
  }

  ghost predicate Inv(s: State) {
    Indexed(s) && Conserved(s) && QueueExact(s)
  }

  lemma {:induction false} TotalSame(store: map<EscrowId, Record>, store': map<EscrowId, Record>, order: seq<EscrowId>,
                                     weight: Record -> real)
    requires forall id :: id in order ==> id in store && id in store' && store'[id] == store[id]
    ensures Total(store', order, weight) == Total(store, order, weight)
  {
    if order != [] {
      TotalSame(store, store', order[..|order| - 1], weight);
    }
  }

  lemma {:induction false} TotalUpdate(store: map<EscrowId, Record>, order: seq<EscrowId>, id: EscrowId, r: Record,
                                       weight: Record -> real)
    requires NoDup(order) && id in order && forall j :: j in order ==> j in store
    ensures Total(store[id := r], order, weight) == Total(store, order, weight) - weight(store[id]) + weight(r)
  {
    var front, last := order[..|order| - 1], order[|order| - 1];
    if last == id {
      assert id !in front;
      TotalSame(store, store[id := r], front, weight);
    } else {
      TotalUpdate(store, front, id, r, weight);
    }
  }

  /** What a new record adds to a total. */
  lemma TotalOfLock(s: State, c: Call, weight: Record -> real)
    requires Indexed(s) && c.Lock? && UsesFreshId(s, c) && c.taskId !in s.byTask && c.amount > 0.0
    ensures var s' := After(s, c);
      Total(s'.store, s'.order, weight) == Total(s.store, s.order, weight) + weight(s'.store[c.freshId])
  {
    var s' := After(s, c);
    assert s'.order[..|s'.order| - 1] == s.order;
    TotalSame(s.store, s'.store, s.order, weight);
  }

  lemma LockKeeps(s: State, c: Call)
    requires Inv(s) && c.Lock? && UsesFreshId(s, c)
    ensures Inv(After(s, c))
  {
    if c.taskId !in s.byTask && c.amount > 0.0 {
      LockKeepsIndexed(s, c);
      LockKeepsConserved(s, c);
      LockKeepsQueue(s, c);
    }
  }

  lemma LockKeepsConserved(s: State, c: Call)
    requires Indexed(s) && Conserved(s) && c.Lock? && UsesFreshId(s, c) && c.taskId !in s.byTask && c.amount > 0.0
    ensures Conserved(After(s, c))
  {
    hide Indexed, Total, NoDup;
    TotalOfLock(s, c, Weight);
  }

  lemma LockKeepsQueue(s: State, c: Call)
    requires Indexed(s) && QueueExact(s) && c.Lock? && UsesFreshId(s, c) && c.taskId !in s.byTask && c.amount > 0.0
    ensures QueueExact(After(s, c))
  {
    hide NoDup;
  }

  lemma LockKeepsIndexed(s: State, c: Call)
    requires Indexed(s) && c.Lock? && UsesFreshId(s, c) && c.taskId !in s.byTask && c.amount > 0.0
    ensures Indexed(After(s, c))
  {
    NoDupAppend(s.order, c.freshId);
  }

  lemma SettleKeeps(s: State, c: Call)
    requires Inv(s) && !c.Lock?
    ensures Inv(After(s, c))
  {
    SettleKeepsIndexed(s, c);
    SettleKeepsConserved(s, c);
    SettleKeepsQueue(s, c);
  }

  lemma SettleKeepsIndexed(s: State, c: Call)
    requires Indexed(s) && !c.Lock?
    ensures Indexed(After(s, c))
  {
    hide NoDup;
  }

  lemma SettleKeepsConserved(s: State, c: Call)
    requires Indexed(s) && Conserved(s) && !c.Lock?
    ensures Conserved(After(s, c))
  {
    var s' := After(s, c);
    hide Total, NoDup;
    if s' != s {
      TotalUpdate(s.store, s.order, c.escrowId, s'.store[c.escrowId], Weight);
    }
  }

  lemma SettleKeepsQueue(s: State, c: Call)
    requires Indexed(s) && QueueExact(s) && !c.Lock?
    ensures QueueExact(After(s, c))
  {
    hide NoDup;
  }

  /** Nothing but the status ever changes, and that only out of LOCKED. */
  ghost predicate Later(s: State, s': State) {
    forall id :: id in s.store ==>
      && id in s'.store
      && s'.store[id] == s.store[id].(status := s'.store[id].status)
      && (s.store[id].status != Locked ==> s'.store[id] == s.store[id])
  }

  lemma CallIsLater(s: State, c: Call)
    requires UsesFreshId(s, c)
    ensures Later(s, After(s, c))
  {
  }

  /** The answer of a call is the truth about the record: a lock names the open escrow of the task, a release or refund
      that reports success has left it released or refunded, also when it already was. */
  lemma AnswersAreTrue(s: State, task: TaskId, amount: real, from: string, to: string, id: EscrowId, works: bool)
    requires Inv(s)
    ensures var s', r := AfterLock(s, task, amount, from, to, id), LockResult(s, task, amount, id);
      id !in s.store ==>
        forall j :: r == Some(j) <==>
          task in s'.byTask && s'.byTask[task] == j && j in s'.store && s'.store[j].status == Locked
    ensures ReleaseResult(s, task, id, works) <==>
      var s' := AfterRelease(s, task, id, works);
      task in s'.byTask && s'.byTask[task] == id && s'.store[id].status == Released
    ensures RefundResult(s, task, id, works) <==>
      var s' := AfterRefund(s, task, id, works);
      task in s'.byTask && s'.byTask[task] == id && s'.store[id].status == Refunded
  {
    hide Conserved, QueueExact, NoDup;
  }

  /** An open escrow is released exactly if some attempt goes through; a refund that fails leaves it failed. */
  lemma OpenEscrowSettles(s: State, task: TaskId, id: EscrowId, works: bool)
    requires Inv(s) && task in s.byTask && s.byTask[task] == id && s.store[id].status == Locked
    ensures id in s.store
    ensures AfterRelease(s, task, id, works).store[id].status == if works then Released else Locked
    ensures AfterRefund(s, task, id, works).store[id].status == if works then Refunded else Failed
  {
    hide Conserved, QueueExact, NoDup;
  }

  lemma {:induction false} RunKeeps(s: State, calls: seq<Call>)
    requires Inv(s) && FreshRun(s, calls)
    ensures Inv(Run(s, calls)) && Later(s, Run(s, calls))
    decreases |calls|
  {
    if calls != [] {
      hide Inv, After;
      if calls[0].Lock? {
        LockKeeps(s, calls[0]);
      } else {
        SettleKeeps(s, calls[0]);
      }
      CallIsLater(s, calls[0]);
      RunKeeps(After(s, calls[0]), calls[1..]);
    }
  }

  /** After any calls on a new system, with any retry outcomes: money is conserved, the stuck queue lists exactly the
      tasks whose refund failed, and there is one record per task. */
  lemma EscrowConserves(calls: seq<Call>)
    requires FreshRun(EMPTY, calls)
    ensures var s := Run(EMPTY, calls);
      && s.totals.locked == s.totals.released + s.totals.refunded + Outstanding(s)
      && (forall t :: t in s.queue <==>
            t in s.byTask && s.byTask[t] in s.store && s.store[s.byTask[t]].status == Failed)
      && (forall i, j :: i in s.store && j in s.store && s.store[i].taskId == s.store[j].taskId ==> i == j)
  {
    assert Inv(EMPTY);
    RunKeeps(EMPTY, calls);
    hide Run, Total, NoDup;
  }

  /** A record leaves LOCKED at most once: whatever it is after some calls, once settled it stays, word for word. */
  lemma SettledForGood(before: seq<Call>, after: seq<Call>, id: EscrowId)
    requires FreshRun(EMPTY, before) && FreshRun(Run(EMPTY, before), after)
    requires id in Run(EMPTY, before).store && Run(EMPTY, before).store[id].status != Locked
    ensures var s := Run(Run(EMPTY, before), after);
      id in s.store && s.store[id] == Run(EMPTY, before).store[id]
  {
    RunKeeps(EMPTY, before);
    RunKeeps(Run(EMPTY, before), after);
  }
}
