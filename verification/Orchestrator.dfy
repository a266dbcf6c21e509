/** One escrow-backed execution between two agents, and the wallet of the agent that pays. */
module Orchestration {
  import opened Collections
  import opened Escrow

  datatype Decision = Accepted | Rejected | RolledBack

  /** How the tool execution ended: the timeout won the race, it threw, or it returned. */
  datatype Execution = TimedOut | Crashed | Returned(success: bool, decision: Decision, hasOutput: bool)

  datatype Evaluation = Passed | NotPassed | EvaluationThrew

  datatype Request = Request(taskId: TaskId, costUsd: real, clientAgentId: string, providerAgentId: string,
    signed: bool)

  /** What the collaborators answer during one execution. */
  datatype Env = Env(
    signatureValid: bool,
    execution: Execution,
    hasEvalPack: bool,
    evaluation: Evaluation,
    releaseThrows: nat -> bool,
    refundThrows: nat -> bool,
    freshId: EscrowId)

  datatype EscrowStatus = ReportsReleased | ReportsRefunded | ReportsFailed

  /** `ran` says whether the tool was started. */
  datatype Result = Result(success: bool, escrowStatus: EscrowStatus, costUsd: real, ran: bool)

  class A2AAgentOrchestrator {
    const escrow: EscrowSystem
    const evalPack: bool

    constructor (escrow: EscrowSystem, evalPack: bool)
      ensures this.escrow == escrow && this.evalPack == evalPack
    {
      this.escrow, this.evalPack := escrow, evalPack;
    }

    method RefundSafely(taskId: TaskId, escrowId: EscrowId, throws: nat -> bool) returns (status: EscrowStatus)
      requires escrow.Valid()
      modifies escrow, escrow.store.Values
      ensures escrow.Valid() && escrow.store == old(escrow.store)
      ensures var works := SomeAttemptWorks(throws, escrow.maxRetries);
        && escrow.View() == AfterRefund(old(escrow.View()), taskId, escrowId, works)
        && status == if RefundResult(old(escrow.View()), taskId, escrowId, works) then ReportsRefunded
          else ReportsFailed
    {
      var ok := escrow.RefundFunds(taskId, escrowId, throws);
      status := if ok then ReportsRefunded else ReportsFailed;
    }

    method ExecuteTask(request: Request, env: Env) returns (r: Result)
      requires escrow.Valid() && env.freshId !in escrow.store && env.hasEvalPack == evalPack
      modifies escrow, escrow.store.Values
      ensures escrow.Valid()
      ensures (escrow.View(), r) == Outcome(old(escrow.View()), escrow.maxRetries, request, env)
    {
      hide EscrowSystem.View, SomeAttemptWorks, AfterLock, AfterRelease, AfterRefund, LockResult, ReleaseResult,
        RefundResult;
      if request.signed {
        if !env.signatureValid {
          return Result(false, ReportsFailed, request.costUsd, false);
        }
      }
      var lock :=
        escrow.LockFunds(request.taskId, request.costUsd, request.clientAgentId, request.providerAgentId, env.freshId);
      if lock.None? {
        return Result(false, ReportsFailed, request.costUsd, false);
      }
      var escrowId := lock.value;
      match env.execution
      case TimedOut | Crashed =>
        var status := RefundSafely(request.taskId, escrowId, env.refundThrows);
        return Result(false, status, request.costUsd, true);
      case Returned(success, decision, hasOutput) =>
        if success && decision == Accepted {
          var evalPassed := true;
          if evalPack && hasOutput {
            match env.evaluation
            case Passed =>
            case NotPassed => evalPassed := false;
            case EvaluationThrew => evalPassed := false;
          }
          if !evalPassed {
            var status := RefundSafely(request.taskId, escrowId, env.refundThrows);
            return Result(false, status, request.costUsd, true);
          }
          var release := escrow.ReleaseFunds(request.taskId, escrowId, env.releaseThrows);
          if release {
            return Result(true, ReportsReleased, request.costUsd, true);
          }
          var status := RefundSafely(request.taskId, escrowId, env.refundThrows);
          return Result(false, status, request.costUsd, true);
        }
        var status := RefundSafely(request.taskId, escrowId, env.refundThrows);
        return Result(false, status, request.costUsd, true);
    }
  }

  /** The output deserves payment. */
  predicate Deserves(env: Env) {
    && env.execution.Returned? && env.execution.success && env.execution.decision == Accepted
    && (env.hasEvalPack && env.execution.hasOutput ==> env.evaluation == Passed)
  }

  function Refunding(s: State, maxRetries: nat, request: Request, id: EscrowId, env: Env): (State, Result) {
    var works := SomeAttemptWorks(env.refundThrows, maxRetries);
    (AfterRefund(s, request.taskId, id, works),
     Result(false, if RefundResult(s, request.taskId, id, works) then ReportsRefunded else ReportsFailed,
            request.costUsd, true))
  }

  /** What executeTask does to the escrow and what it reports. */
  function Outcome(s: State, maxRetries: nat, request: Request, env: Env): (State, Result)
  {
    var refused := Result(false, ReportsFailed, request.costUsd, false);
    if request.signed && !env.signatureValid then (s, refused)
    else
      var lock := LockResult(s, request.taskId, request.costUsd, env.freshId);
      var s1 :=
        AfterLock(s, request.taskId, request.costUsd, request.clientAgentId, request.providerAgentId, env.freshId);
      if lock.None? then (s1, refused)
      else if Deserves(env) then
        var works := SomeAttemptWorks(env.releaseThrows, maxRetries);
        var s2 := AfterRelease(s1, request.taskId, lock.value, works);
        if ReleaseResult(s1, request.taskId, lock.value, works)
        then (s2, Result(true, ReportsReleased, request.costUsd, true))
        else Refunding(s2, maxRetries, request, lock.value, env)
      else Refunding(s1, maxRetries, request, lock.value, env)
  }

  // ----- What is opened is closed -----

  ghost predicate NoneLocked(s: State) {
    forall id :: id in s.store ==> s.store[id].status != Locked
  }

  /** Between two executions of a sequential run. */
  ghost predicate Settled(s: State) {
    Inv(s) && NoneLocked(s)
  }

  /** The record a request opened, and how it ended. */
  ghost predicate ClosedAs(s: State, request: Request, id: EscrowId, status: Status) {
    Found(s, request.taskId, id) &&
    s.store[id] == Record(id, request.taskId, request.costUsd, request.clientAgentId, request.providerAgentId, status)
  }

  /** The request is one that opens an escrow. */
  predicate Opens(s: State, request: Request, env: Env) {
    && !(request.signed && !env.signatureValid)
    && request.taskId !in s.byTask
    && request.costUsd > 0.0
  }

  /** On every path: nothing stays locked, a request that opens an escrow closes it, and the report is the truth about
      the record. A request that opens none, in particular a replay, runs nothing and changes nothing. */
  lemma ExecutionCloses(s: State, maxRetries: nat, request: Request, env: Env)
    requires Settled(s) && env.freshId !in s.store
    ensures var (s', r) := Outcome(s, maxRetries, request, env);
      && Settled(s') && Later(s, s')
      && (r.success <==> r.escrowStatus == ReportsReleased)
      && (!Opens(s, request, env) ==> s' == s && !r.ran && r.escrowStatus == ReportsFailed)
      && (Opens(s, request, env) ==>
            && r.ran
            && s'.store.Keys == s.store.Keys + {env.freshId}
            && (r.escrowStatus == ReportsReleased <==> ClosedAs(s', request, env.freshId, Released))
            && (r.escrowStatus == ReportsRefunded <==> ClosedAs(s', request, env.freshId, Refunded))
            && (r.escrowStatus == ReportsFailed <==> ClosedAs(s', request, env.freshId, Failed)))
  {
    hide Inv, Outcome, Later, NoneLocked, OnlyLocked, AfterLock;
    if Opens(s, request, env) {
      var s1 :=
        AfterLock(s, request.taskId, request.costUsd, request.clientAgentId, request.providerAgentId, env.freshId);
      Opened(s, request, env);
      OpenThenSettled(s1, maxRetries, request, env);
      assert Outcome(s, maxRetries, request, env) == Settling(s1, maxRetries, request, env) by {
        UnfoldOutcome(s, maxRetries, request, env);
      }
      LaterTransitive(s, s1, Settling(s1, maxRetries, request, env).0);
    } else {
      NotOpened(s, maxRetries, request, env);
    }
  }

  /** The part of an execution after its lock. */
  function Settling(s: State, maxRetries: nat, request: Request, env: Env): (State, Result) {
    if Deserves(env) then
      var works := SomeAttemptWorks(env.releaseThrows, maxRetries);
      var s' := AfterRelease(s, request.taskId, env.freshId, works);
      if ReleaseResult(s, request.taskId, env.freshId, works)
      then (s', Result(true, ReportsReleased, request.costUsd, true))
      else Refunding(s', maxRetries, request, env.freshId, env)
    else Refunding(s, maxRetries, request, env.freshId, env)
  }

  lemma UnfoldOutcome(s: State, maxRetries: nat, request: Request, env: Env)
    requires Inv(s) && Opens(s, request, env)
    ensures Outcome(s, maxRetries, request, env) ==
      Settling(
        AfterLock(s, request.taskId, request.costUsd, request.clientAgentId, request.providerAgentId, env.freshId),
        maxRetries, request, env)
  {
    hide AfterLock, AfterRelease, AfterRefund;
  }

  lemma NotOpened(s: State, maxRetries: nat, request: Request, env: Env)
    requires Settled(s) && !Opens(s, request, env)
    ensures Outcome(s, maxRetries, request, env) == (s, Result(false, ReportsFailed, request.costUsd, false))
    ensures Later(s, s)
  {
  }

  /** Outside a sequential run: a task id seen before runs the tool again exactly while its escrow is still locked. */
  lemma ReplayRunsIffLocked(s: State, maxRetries: nat, request: Request, env: Env)
    requires Inv(s) && request.taskId in s.byTask
    ensures Outcome(s, maxRetries, request, env).1.ran <==>
      !(request.signed && !env.signatureValid) && s.store[s.byTask[request.taskId]].status == Locked
  {
    hide AfterLock, AfterRelease, AfterRefund, Conserved, QueueExact;
  }

  /** `id` is the one record that is still locked. */
  ghost predicate OnlyLocked(s: State, id: EscrowId) {
    forall j :: j in s.store ==> (s.store[j].status == Locked <==> j == id)
  }

  lemma Opened(s: State, request: Request, env: Env)
    requires Settled(s) && env.freshId !in s.store && Opens(s, request, env)
    ensures var s1 :=
      AfterLock(s, request.taskId, request.costUsd, request.clientAgentId, request.providerAgentId, env.freshId);
      Inv(s1) && OnlyLocked(s1, env.freshId) && ClosedAs(s1, request, env.freshId, Locked) && Later(s, s1)
      && s1.store.Keys == s.store.Keys + {env.freshId}
  {
    hide Inv;
    var c := Lock(request.taskId, request.costUsd, request.clientAgentId, request.providerAgentId, env.freshId);
    LockKeeps(s, c);
    CallIsLater(s, c);
  }

  /** Only the record under `id` may have changed. */
  ghost predicate OthersKept(s: State, s': State, id: EscrowId) {
    && s'.store.Keys == s.store.Keys && s'.byTask == s.byTask
    && forall j :: j in s.store && j != id ==> s'.store[j] == s.store[j]
  }

  lemma ReleaseCloses(s: State, request: Request, id: EscrowId)
    requires Inv(s) && ClosedAs(s, request, id, Locked)
    ensures var s' := AfterRelease(s, request.taskId, id, true);
      Inv(s') && Later(s, s') && OthersKept(s, s', id) && ClosedAs(s', request, id, Released)
  {
    hide Inv;
    SettleKeeps(s, Release(request.taskId, id, true));
    CallIsLater(s, Release(request.taskId, id, true));
  }

  lemma RefundCloses(s: State, request: Request, id: EscrowId, works: bool)
    requires Inv(s) && ClosedAs(s, request, id, Locked)
    ensures var s' := AfterRefund(s, request.taskId, id, works);
      && Inv(s') && Later(s, s') && OthersKept(s, s', id)
      && ClosedAs(s', request, id, if works then Refunded else Failed)
  {
    hide Inv;
    SettleKeeps(s, Refund(request.taskId, id, works));
    CallIsLater(s, Refund(request.taskId, id, works));
  }

  function StatusFor(r: EscrowStatus): Status {
    match r
    case ReportsReleased => Released
    case ReportsRefunded => Refunded
    case ReportsFailed => Failed
  }

  /** Whatever else is in flight: settling closes the one record and reports the truth about it. */
  lemma SettlingCloses(s: State, maxRetries: nat, request: Request, env: Env)
    requires Inv(s) && ClosedAs(s, request, env.freshId, Locked)
    ensures var (s', r) := Settling(s, maxRetries, request, env);
      && Inv(s') && Later(s, s') && OthersKept(s, s', env.freshId)
      && r.ran && (r.success <==> r.escrowStatus == ReportsReleased) && r.costUsd == request.costUsd
      && ClosedAs(s', request, env.freshId, StatusFor(r.escrowStatus))
  {
    hide Inv, SomeAttemptWorks, Later, OthersKept;
    ReleaseCloses(s, request, env.freshId);
    RefundCloses(s, request, env.freshId, SomeAttemptWorks(env.refundThrows, maxRetries));
  }

  lemma OpenThenSettled(s: State, maxRetries: nat, request: Request, env: Env)
    requires Inv(s) && OnlyLocked(s, env.freshId) && ClosedAs(s, request, env.freshId, Locked)
    ensures var (s', r) := Settling(s, maxRetries, request, env);
      && Settled(s') && Later(s, s') && s'.store.Keys == s.store.Keys
      && r.ran && (r.success <==> r.escrowStatus == ReportsReleased)
      && ClosedAs(s', request, env.freshId, StatusFor(r.escrowStatus))
  {
    hide Inv, Settling, Later;
    SettlingCloses(s, maxRetries, request, env);
  }

  lemma LaterTransitive(s: State, s1: State, s2: State)
    requires Later(s, s1) && Later(s1, s2)
    ensures Later(s, s2)
  {
  }

  // ----- Exactly what is paid, refunded or stuck -----

  /** The tool succeeded with an accepted decision, and its output passed the evaluation if one was due. */
  predicate Approved(env: Env) {
    || env.execution == Returned(true, Accepted, false)
    || (env.execution == Returned(true, Accepted, true) && (env.hasEvalPack ==> env.evaluation == Passed))
  }

  function If(b: bool, amount: real): real {
    if b then amount else 0.0
  }

  /** What settling does to an open record, by what the tool, the evaluation and the attempts answer. */
  lemma SettlingPays(s: State, maxRetries: nat, request: Request, env: Env)
    requires ClosedAs(s, request, env.freshId, Locked)
    ensures var (s', r) := Settling(s, maxRetries, request, env);
      var paid := Approved(env) && exists i :: 0 <= i < maxRetries && !env.releaseThrows(i);
      var refunded := !paid && exists i :: 0 <= i < maxRetries && !env.refundThrows(i);
      && r == Result(paid, if paid then ReportsReleased else if refunded then ReportsRefunded else ReportsFailed,
                     request.costUsd, true)
      && s'.totals == Totals(s.totals.locked, s.totals.released + If(paid, request.costUsd),
                             s.totals.refunded + If(refunded, request.costUsd))
      && s'.queue == (if paid || refunded then s.queue - {request.taskId} else s.queue + {request.taskId})
      && s'.byTask == s.byTask
  {
  }

  /** A request that opens an escrow is paid exactly when the tool returned success with an accepted decision, its
      output passed the evaluation if the orchestrator has one and there is an output, and some release attempt goes
      through; otherwise it is refunded exactly when some refund attempt goes through, and else its task is stuck.  The
      totals and the stuck queue say the same. */
  lemma PaidIff(s: State, maxRetries: nat, request: Request, env: Env)
    requires Inv(s) && Opens(s, request, env)
    ensures var (s', r) := Outcome(s, maxRetries, request, env);
      var paid :=
        && env.execution.Returned? && env.execution.success && env.execution.decision == Accepted
        && (!env.hasEvalPack || !env.execution.hasOutput || env.evaluation == Passed)
        && exists i :: 0 <= i < maxRetries && !env.releaseThrows(i);
      var refunded := !paid && exists i :: 0 <= i < maxRetries && !env.refundThrows(i);
      && (r.success <==> paid)
      && (r.escrowStatus == ReportsReleased <==> paid)
      && (r.escrowStatus == ReportsRefunded <==> refunded)
      && (r.escrowStatus == ReportsFailed <==> !paid && !refunded)
      && r.costUsd == request.costUsd && r.ran
      && s'.totals == Totals(s.totals.locked + request.costUsd, s.totals.released + If(paid, request.costUsd),
                             s.totals.refunded + If(refunded, request.costUsd))
      && s'.queue == (if paid || refunded then s.queue else s.queue + {request.taskId})
      && s'.byTask == s.byTask[request.taskId := env.freshId]
  {
    hide Inv, Settling;
    var s1 :=
      AfterLock(s, request.taskId, request.costUsd, request.clientAgentId, request.providerAgentId, env.freshId);
    assert request.taskId !in s.queue by { NotQueued(s, request.taskId); }
    assert Outcome(s, maxRetries, request, env) == Settling(s1, maxRetries, request, env) by {
      UnfoldOutcome(s, maxRetries, request, env);
    }
    SettlingPays(s1, maxRetries, request, env);
  }

  lemma NotQueued(s: State, task: TaskId)
    requires Inv(s) && task !in s.byTask
    ensures task !in s.queue
  {
  }

  // ----- Over a sequential run every task is paid at most once -----

  datatype Arrival = Arrival(request: Request, env: Env)

  /** The escrow after the first n requests. */
  function Served(arrivals: seq<Arrival>, n: nat, maxRetries: nat): State
    requires n <= |arrivals|
  {
    if n == 0 then EMPTY
    else
      Outcome(Served(arrivals, n - 1, maxRetries), maxRetries, arrivals[n - 1].request, arrivals[n - 1].env).0
  }

  /** The request is not turned away for its signature or its amount. */
  predicate Payable(x: Arrival) {
    (x.request.signed ==> x.env.signatureValid) && x.request.costUsd > 0.0
  }

  /** The first payable request for its task. */
  ghost predicate IsFirst(arrivals: seq<Arrival>, i: nat) {
    && i < |arrivals| && Payable(arrivals[i])
    && forall j :: 0 <= j < i && Payable(arrivals[j]) ==> arrivals[j].request.taskId != arrivals[i].request.taskId
  }

  /** How the escrow of a request ends, if it opens one. */
  ghost function Fate(arrivals: seq<Arrival>, i: nat, maxRetries: nat): (fate: Option<Status>)
    requires i < |arrivals|
    ensures fate != Some(Locked)
  {
    var env := arrivals[i].env;
    if !IsFirst(arrivals, i) then None
    else if Approved(env) && exists k :: 0 <= k < maxRetries && !env.releaseThrows(k) then Some(Released)
    else if exists k :: 0 <= k < maxRetries && !env.refundThrows(k) then Some(Refunded)
    else Some(Failed)
  }

  /** What the first n requests put into escrow, or moved out of it in a given way. */
  ghost function Sum(arrivals: seq<Arrival>, n: nat, maxRetries: nat, fates: set<Status>): real
    requires n <= |arrivals|
  {
    if n == 0 then 0.0
    else
      var fate := Fate(arrivals, n - 1, maxRetries);
      Sum(arrivals, n - 1, maxRetries, fates)
      + If(fate.Some? && fate.value in fates, arrivals[n - 1].request.costUsd)
  }

  ghost predicate DistinctEscrowIds(arrivals: seq<Arrival>) {
    forall i, j :: 0 <= i < j < |arrivals| ==> arrivals[i].env.freshId != arrivals[j].env.freshId
  }

  /** The index knows the tasks of the payable requests, the store only ids that were handed out. */
  ghost predicate Indexes(s: State, arrivals: seq<Arrival>, n: nat)
    requires n <= |arrivals|
  {
    && (forall t :: t in s.byTask <==>
          exists j :: 0 <= j < n && Payable(arrivals[j]) && arrivals[j].request.taskId == t)
    && forall id :: id in s.store ==> exists j :: 0 <= j < n && arrivals[j].env.freshId == id
  }

  lemma ServedStep(s: State, arrivals: seq<Arrival>, n: nat, maxRetries: nat)
    requires n < |arrivals| && DistinctEscrowIds(arrivals) && Settled(s) && Indexes(s, arrivals, n)
    ensures Opens(s, arrivals[n].request, arrivals[n].env) <==> IsFirst(arrivals, n)
    ensures arrivals[n].env.freshId !in s.store
    ensures var s' := Outcome(s, maxRetries, arrivals[n].request, arrivals[n].env).0;
      Settled(s') && Indexes(s', arrivals, n + 1)
  {
    hide Inv, NoneLocked, Outcome, Later, ClosedAs;
    var x := arrivals[n];
    ExecutionCloses(s, maxRetries, x.request, x.env);
    if Opens(s, x.request, x.env) {
      PaidIff(s, maxRetries, x.request, x.env);
    }
  }

  lemma FateIs(s: State, arrivals: seq<Arrival>, n: nat, maxRetries: nat)
    requires n < |arrivals| && Settled(s) && arrivals[n].env.freshId !in s.store
    requires Opens(s, arrivals[n].request, arrivals[n].env) <==> IsFirst(arrivals, n)
    ensures var x, fate := arrivals[n], Fate(arrivals, n, maxRetries);
      var s' := Outcome(s, maxRetries, x.request, x.env).0;
      && s'.totals == Totals(s.totals.locked + If(fate.Some?, x.request.costUsd),
                             s.totals.released + If(fate == Some(Released), x.request.costUsd),
                             s.totals.refunded + If(fate == Some(Refunded), x.request.costUsd))
      && s'.queue == s.queue + (if fate == Some(Failed) then {x.request.taskId} else {})
  {
    hide Inv, Outcome, IsFirst;
    var x := arrivals[n];
    if Opens(s, x.request, x.env) {
      PaidIff(s, maxRetries, x.request, x.env);
    } else {
      NotOpened(s, maxRetries, x.request, x.env);
    }
  }

  lemma SumStep(arrivals: seq<Arrival>, n: nat, maxRetries: nat)
    requires 0 < n <= |arrivals|
    ensures var fate, cost := Fate(arrivals, n - 1, maxRetries), arrivals[n - 1].request.costUsd;
      && Sum(arrivals, n, maxRetries, {Released, Refunded, Failed}) ==
         Sum(arrivals, n - 1, maxRetries, {Released, Refunded, Failed}) + If(fate.Some?, cost)
      && (forall x :: Sum(arrivals, n, maxRetries, {x}) ==
                      Sum(arrivals, n - 1, maxRetries, {x}) + If(fate == Some(x), cost))
  {
    var fate := Fate(arrivals, n - 1, maxRetries);
    hide Fate;
    if fate.Some? {
      assert fate.value in {Released, Refunded, Failed};
    }
    forall x ensures fate.Some? && fate.value in {x} <==> fate == Some(x) {
    }
  }

  lemma NothingIndexed(arrivals: seq<Arrival>)
    ensures Indexes(EMPTY, arrivals, 0) && EMPTY.totals == Totals(0.0, 0.0, 0.0) && EMPTY.queue == {}
  {
  }

  /** Over any sequential run on a new escrow system: only the first payable request for a task opens an escrow, and
      what was locked, released and refunded in all are the amounts of those requests, each counted by how it ended; the
      stuck queue lists the tasks of those that ended neither way. */
  lemma {:induction false} EachTaskSettledOnce(arrivals: seq<Arrival>, n: nat, maxRetries: nat)
    requires n <= |arrivals| && DistinctEscrowIds(arrivals)
    ensures var s := Served(arrivals, n, maxRetries);
      && Settled(s) && Indexes(s, arrivals, n)
      && s.totals == Totals(Sum(arrivals, n, maxRetries, {Released, Refunded, Failed}),
                            Sum(arrivals, n, maxRetries, {Released}), Sum(arrivals, n, maxRetries, {Refunded}))
      && forall t :: t in s.queue <==>
           exists i :: 0 <= i < n && Fate(arrivals, i, maxRetries) == Some(Failed) && arrivals[i].request.taskId == t
  {
    hide Inv, Outcome, Fate, DistinctEscrowIds, Indexes, NoneLocked;
    if n == 0 {
      NothingPaid("");
      NothingIndexed(arrivals);
    } else {
      var s := Served(arrivals, n - 1, maxRetries);
      EachTaskSettledOnce(arrivals, n - 1, maxRetries);
      ServedStep(s, arrivals, n - 1, maxRetries);
      FateIs(s, arrivals, n - 1, maxRetries);
      var s' := Served(arrivals, n, maxRetries);
      SumStep(arrivals, n, maxRetries);
      assert s'.totals == Totals(Sum(arrivals, n, maxRetries, {Released, Refunded, Failed}),
                                 Sum(arrivals, n, maxRetries, {Released}), Sum(arrivals, n, maxRetries, {Refunded}));
      forall t ensures t in s'.queue <==>
        exists i :: 0 <= i < n && Fate(arrivals, i, maxRetries) == Some(Failed) && arrivals[i].request.taskId == t
      {
        if t in s'.queue && t !in s.queue {
          assert Fate(arrivals, n - 1, maxRetries) == Some(Failed) && arrivals[n - 1].request.taskId == t;
        }
      }
    }
  }

  // ----- The buyer's wallet -----

  datatype Purchase = Purchase(toolKnown: bool, maxBudget: real, taskId: TaskId, provider: string, signed: bool,
    env: Env)

  /** What the agent paid for: its released escrows. */
  function PaidWeight(agent: string): Record -> real {
    (r: Record) => if r.status == Released && r.from == agent then r.amount else 0.0
  }

  function PaidBy(s: State, agent: string): real {
    Total(s.store, s.order, PaidWeight(agent))
  }

  function RequestOf(p: Purchase, agent: string): Request {
    Request(p.taskId, p.maxBudget, agent, p.provider, p.signed)
  }

  /** A request by the agent passes its own checks. */
  predicate Affordable(balance: real, p: Purchase) {
    p.maxBudget > 0.0 && p.toolKnown && balance >= p.maxBudget
  }

  /** The escrow and the balance after a purchase. */
  function AfterPurchase(s: State, balance: real, maxRetries: nat, p: Purchase, agent: string): (State, real)
  {
    if !Affordable(balance, p) then (s, balance)
    else
      var (s', r) := Outcome(s, maxRetries, RequestOf(p, agent), p.env);
      (s', if r.success && r.escrowStatus == ReportsReleased then balance - r.costUsd else balance)
  }

  class AutonomousAgent {
    const agentId: string
    const orchestrator: A2AAgentOrchestrator
    var balance: real

    constructor (agentId: string, orchestrator: A2AAgentOrchestrator, initialBalance: real)
      ensures this.agentId == agentId && this.orchestrator == orchestrator && balance == initialBalance
    {
      this.agentId, this.orchestrator, balance := agentId, orchestrator, initialBalance;
    }

    /** AgentWallet.deduct. */
    method Deduct(amount: real) returns (ok: bool)
      modifies this
      ensures ok <==> old(balance) >= amount
      ensures balance == if ok then old(balance) - amount else old(balance)
    {
      ok := balance >= amount;
      if ok {
        balance := balance - amount;
      }
    }

    method RequestServiceFromPeer(p: Purchase) returns (success: bool)
      requires orchestrator.escrow.Valid() && p.env.freshId !in orchestrator.escrow.store
      requires p.env.hasEvalPack == orchestrator.evalPack
      modifies this, orchestrator.escrow, orchestrator.escrow.store.Values
      ensures orchestrator.escrow.Valid()
      ensures (orchestrator.escrow.View(), balance) ==
        AfterPurchase(old(orchestrator.escrow.View()), old(balance), orchestrator.escrow.maxRetries, p, agentId)
    {
      hide Outcome, EscrowSystem.View;
      if p.maxBudget <= 0.0 {
        return false;
      }
      if !p.toolKnown {
        return false;
      }
      if balance < p.maxBudget {
        return false;
      }
      var r := orchestrator.ExecuteTask(RequestOf(p, agentId), p.env);
      CostIsBudget(old(orchestrator.escrow.View()), orchestrator.escrow.maxRetries, RequestOf(p, agentId), p.env);
      if r.success && r.escrowStatus == ReportsReleased {
        var deducted := Deduct(r.costUsd);
      }
      success := r.success;
    }
  }

  lemma CostIsBudget(s: State, maxRetries: nat, request: Request, env: Env)
    ensures Outcome(s, maxRetries, request, env).1.costUsd == request.costUsd
  {
    hide AfterLock, AfterRelease, AfterRefund, LockResult, ReleaseResult, RefundResult;
  }

  /** A purchase takes effect exactly when the tool is known, the price is positive and covered, the signature holds and
      the task is new; the wallet pays exactly when the work is then paid for. */
  lemma PurchaseIff(s: State, balance: real, maxRetries: nat, p: Purchase, agent: string)
    requires Settled(s) && p.env.freshId !in s.store
    ensures var (s', balance') := AfterPurchase(s, balance, maxRetries, p, agent);
      var starts := p.toolKnown && 0.0 < p.maxBudget <= balance && p.taskId !in s.byTask
        && (!p.signed || p.env.signatureValid);
      var paid := starts && Approved(p.env) && exists i :: 0 <= i < maxRetries && !p.env.releaseThrows(i);
      && balance' == balance - If(paid, p.maxBudget)
      && s'.totals.released == s.totals.released + If(paid, p.maxBudget)
      && s'.totals.locked == s.totals.locked + If(starts, p.maxBudget)
      && (!starts ==> s' == s)
      && (starts ==>
            && p.env.freshId in s'.store
            && s'.store[p.env.freshId].from == agent
            && s'.store[p.env.freshId].to == p.provider
            && s'.store[p.env.freshId].amount == p.maxBudget)
  {
    hide Inv, Outcome, NoneLocked, Later;
    var request := RequestOf(p, agent);
    ExecutionCloses(s, maxRetries, request, p.env);
    CostIsBudget(s, maxRetries, request, p.env);
    if Opens(s, request, p.env) {
      PaidIff(s, maxRetries, request, p.env);
      OpenedRecord(s, maxRetries, request, p.env);
    }
  }

  /** The record of an escrow names payer, payee and amount. */
  lemma OpenedRecord(s: State, maxRetries: nat, request: Request, env: Env)
    requires Settled(s) && env.freshId !in s.store && Opens(s, request, env)
    ensures var s' := Outcome(s, maxRetries, request, env).0;
      && env.freshId in s'.store
      && s'.store[env.freshId].from == request.clientAgentId && s'.store[env.freshId].to == request.providerAgentId
      && s'.store[env.freshId].amount == request.costUsd && s'.store[env.freshId].taskId == request.taskId
  {
    hide Inv, NoneLocked, Outcome, Later;
    ExecutionCloses(s, maxRetries, request, env);
    assert exists status :: ClosedAs(Outcome(s, maxRetries, request, env).0, request, env.freshId, status);
  }

  /** In a sequential run anyone may use the orchestrator: the agent itself, or others under any client id. */
  datatype Event = Own(p: Purchase) | Other(request: Request, env: Env)

  function AfterEvent(s: State, balance: real, maxRetries: nat, e: Event, agent: string): (State, real)
  {
    match e
    case Own(p) => AfterPurchase(s, balance, maxRetries, p, agent)
    case Other(request, env) => (Outcome(s, maxRetries, request, env).0, balance)
  }

  ghost predicate Proper(s: State, e: Event) {
    match e
    case Own(p) => p.env.freshId !in s.store
    case Other(_, env) => env.freshId !in s.store
  }

  /** What an event releases on a foreign request that names the agent as its client. */
  function OthersReleased(s: State, maxRetries: nat, e: Event, agent: string): real {
    match e
    case Own(_) => 0.0
    case Other(request, env) =>
      if request.clientAgentId == agent && Outcome(s, maxRetries, request, env).1.escrowStatus == ReportsReleased
      then request.costUsd
      else 0.0
  }

  /** A closed escrow adds its amount to what the agent paid exactly when it was released to the agent's account. */
  lemma PaidAfterExecution(s: State, maxRetries: nat, request: Request, env: Env, agent: string)
    requires Settled(s) && env.freshId !in s.store
    ensures var (s', r) := Outcome(s, maxRetries, request, env);
      PaidBy(s', agent) ==
      PaidBy(s, agent)
      + if r.escrowStatus == ReportsReleased && request.clientAgentId == agent then request.costUsd else 0.0
  {
    hide Inv, Outcome, Total;
    if Opens(s, request, env) {
      var c := Lock(request.taskId, request.costUsd, request.clientAgentId, request.providerAgentId, env.freshId);
      var s1 := After(s, c);
      Opened(s, request, env);
      UnfoldOutcome(s, maxRetries, request, env);
      OpenThenSettled(s1, maxRetries, request, env);
      assert Indexed(s) && Indexed(s1) by { InvIndexed(s); InvIndexed(s1); }
      TotalOfLock(s, c, PaidWeight(agent));
      PaidBySettling(s1, maxRetries, request, env, agent);
    } else {
      NotOpened(s, maxRetries, request, env);
    }
  }

  lemma InvIndexed(s: State)
    requires Inv(s)
    ensures Indexed(s)
  {
  }

  lemma PaidBySettling(s: State, maxRetries: nat, request: Request, env: Env, agent: string)
    requires Indexed(s) && ClosedAs(s, request, env.freshId, Locked)
    requires var (s', r) := Settling(s, maxRetries, request, env);
      ClosedAs(s', request, env.freshId, StatusFor(r.escrowStatus))
    ensures var (s', r) := Settling(s, maxRetries, request, env);
      PaidBy(s', agent) ==
      PaidBy(s, agent)
      + if r.escrowStatus == ReportsReleased && request.clientAgentId == agent then request.costUsd else 0.0
  {
    var (s', r) := Settling(s, maxRetries, request, env);
    hide Total, SomeAttemptWorks, NoDup;
    TotalUpdate(s.store, s.order, env.freshId, s'.store[env.freshId], PaidWeight(agent));
  }

  ghost predicate WalletInv(s: State, balance: real, initial: real, agent: string) {
    Settled(s) && balance + PaidBy(s, agent) == initial
  }

  lemma EventKeepsWallet(s: State, balance: real, initial: real, maxRetries: nat, e: Event, agent: string)
    requires WalletInv(s, balance, initial, agent) && Proper(s, e)
    ensures var (s', balance') := AfterEvent(s, balance, maxRetries, e, agent);
      && WalletInv(s', balance', initial + OthersReleased(s, maxRetries, e, agent), agent)
      && (balance >= 0.0 ==> balance' >= 0.0)
  {
    hide Inv, Outcome, Total, NoneLocked, PaidBy;
    match e
    case Other(request, env) =>
      ExecutionCloses(s, maxRetries, request, env);
      PaidAfterExecution(s, maxRetries, request, env, agent);
    case Own(p) =>
      if Affordable(balance, p) {
        ExecutionCloses(s, maxRetries, RequestOf(p, agent), p.env);
        PaidAfterExecution(s, maxRetries, RequestOf(p, agent), p.env, agent);
        CostIsBudget(s, maxRetries, RequestOf(p, agent), p.env);
      }
  }

  function RunEvents(s: State, balance: real, maxRetries: nat, events: seq<Event>, agent: string): (State, real)
    decreases |events|
  {
    if events == [] then (s, balance)
    else
      var (s', balance') := AfterEvent(s, balance, maxRetries, events[0], agent);
      RunEvents(s', balance', maxRetries, events[1..], agent)
  }

  ghost predicate ProperRun(s: State, balance: real, maxRetries: nat, events: seq<Event>, agent: string)
    decreases |events|
  {
    events != [] ==>
      && Proper(s, events[0])
      && var (s', balance') := AfterEvent(s, balance, maxRetries, events[0], agent);
         ProperRun(s', balance', maxRetries, events[1..], agent)
  }

  /** What a run releases on foreign requests that name the agent as their client. */
  function OthersReleasedInAll(s: State, balance: real, maxRetries: nat, events: seq<Event>, agent: string): real
    decreases |events|
  {
    if events == [] then 0.0
    else
      var (s', balance') := AfterEvent(s, balance, maxRetries, events[0], agent);
      OthersReleased(s, maxRetries, events[0], agent)
      + OthersReleasedInAll(s', balance', maxRetries, events[1..], agent)
  }

  lemma {:induction false} RunKeepsWallet(
      s: State, balance: real, initial: real, maxRetries: nat, events: seq<Event>, agent: string)
    requires WalletInv(s, balance, initial, agent) && ProperRun(s, balance, maxRetries, events, agent)
    ensures var (s', balance') := RunEvents(s, balance, maxRetries, events, agent);
      && WalletInv(s', balance', initial + OthersReleasedInAll(s, balance, maxRetries, events, agent), agent)
      && (balance >= 0.0 ==> balance' >= 0.0)
    decreases |events|
  {
    hide WalletInv, AfterEvent, Proper, OthersReleased;
    if events != [] {
      EventKeepsWallet(s, balance, initial, maxRetries, events[0], agent);
      var (s', balance') := AfterEvent(s, balance, maxRetries, events[0], agent);
      var more := OthersReleased(s, maxRetries, events[0], agent);
      RunKeepsWallet(s', balance', initial + more, maxRetries, events[1..], agent);
      assert initial + more + OthersReleasedInAll(s', balance', maxRetries, events[1..], agent) ==
        initial + OthersReleasedInAll(s, balance, maxRetries, events, agent);
    }
  }

  lemma NothingPaid(agent: string)
    ensures Inv(EMPTY) && NoneLocked(EMPTY) && PaidBy(EMPTY, agent) == 0.0
  {
  }

  /** Over any sequential run on a new escrow system: no escrow is left locked, the buyer's wallet never goes below
      zero, and it is its initial balance minus the amounts of its released escrows, those excepted that others opened
      under its id. */
  lemma WalletPaysForReleases(initial: real, maxRetries: nat, events: seq<Event>, agent: string)
    requires ProperRun(EMPTY, initial, maxRetries, events, agent)
    ensures var (s, balance) := RunEvents(EMPTY, initial, maxRetries, events, agent);
      && NoneLocked(s)
      && balance == initial - PaidBy(s, agent) + OthersReleasedInAll(EMPTY, initial, maxRetries, events, agent)
      && (initial >= 0.0 ==> balance >= 0.0)
  {
    hide Inv, PaidBy, RunEvents, ProperRun, OthersReleasedInAll;
    NothingPaid(agent);
    RunKeepsWallet(EMPTY, initial, initial, maxRetries, events, agent);
  }

  ghost predicate OnlyUnderOwnId(events: seq<Event>, agent: string) {
    forall i :: 0 <= i < |events| ==> events[i].Other? ==> events[i].request.clientAgentId != agent
  }

  /** If nobody else uses the buyer's id, the wallet pays for exactly its released escrows. */
  lemma WalletPaysExactly(initial: real, maxRetries: nat, events: seq<Event>, agent: string)
    requires ProperRun(EMPTY, initial, maxRetries, events, agent) && OnlyUnderOwnId(events, agent)
    ensures var (s, balance) := RunEvents(EMPTY, initial, maxRetries, events, agent);
      balance == initial - PaidBy(s, agent)
  {
    hide *;
    WalletPaysForReleases(initial, maxRetries, events, agent);
    NothingFromOthers(EMPTY, initial, maxRetries, events, agent);
  }

  lemma {:induction false} NothingFromOthers(s: State, balance: real, maxRetries: nat, events: seq<Event>,
    agent: string)
    requires OnlyUnderOwnId(events, agent)
    ensures OthersReleasedInAll(s, balance, maxRetries, events, agent) == 0.0
    decreases |events|
  {
    hide AfterEvent, Outcome;
    if events != [] {
      var (s', balance') := AfterEvent(s, balance, maxRetries, events[0], agent);
      assert forall i :: 0 <= i < |events[1..]| ==> events[1..][i] == events[i + 1];
      NothingFromOthers(s', balance', maxRetries, events[1..], agent);
    }
  }
}
