/** Purchases in flight at the same time: the balance is looked at before the first await and charged after the last. */
module ConcurrentWallet {
  import opened Collections
  import opened Escrow
  import opened Orchestration

  /** An execution whose escrow is locked; `own` when the agent itself asked for it. */
  datatype Flight = Flight(request: Request, id: EscrowId, own: bool)

  /** `unpaid` is what own purchases released without a charge, `foreign` what others released under the agent's id. */
  datatype World = World(s: State, balance: real, flights: seq<Flight>, unpaid: real, foreign: real)

  /** `served` says that the tool is known and the request is not turned away for its signature. */
  datatype Step = Begin(f: Flight, served: bool) | End(j: nat, env: Env)

  predicate Begins(w: World, f: Flight, served: bool) {
    served && f.request.costUsd > 0.0 && (f.own ==> w.balance >= f.request.costUsd)
  }

  function Remove(flights: seq<Flight>, j: nat): seq<Flight>
    requires j < |flights|
  {
    flights[..j] + flights[j + 1..]
  }

  function LockOf(f: Flight): Call {
    Lock(f.request.taskId, f.request.costUsd, f.request.clientAgentId, f.request.providerAgentId, f.id)
  }

  /** The orchestrator's answer at the end of an execution, and the escrow it leaves. */
  function Ended(s: State, maxRetries: nat, f: Flight, env: Env): (State, Result) {
    Settling(s, maxRetries, f.request, env.(freshId := f.id))
  }

  /** The wallet ignores a charge it cannot cover. */
  function Next(w: World, e: Step, maxRetries: nat, agent: string): World
    requires e.End? ==> e.j < |w.flights|
  {
    match e
    case Begin(f, served) =>
      if Begins(w, f, served) then w.(s := After(w.s, LockOf(f)), flights := w.flights + [f]) else w
    case End(j, env) =>
      var f := w.flights[j];
      var cost := f.request.costUsd;
      var (s', r) := Ended(w.s, maxRetries, f, env);
      var released := r.success && r.escrowStatus == ReportsReleased;
      var charged := released && f.own && w.balance >= cost;
      World(s',
            if charged then w.balance - cost else w.balance,
            Remove(w.flights, j),
            if released && f.own && !charged then w.unpaid + cost else w.unpaid,
            if released && !f.own && f.request.clientAgentId == agent then w.foreign + cost else w.foreign)
  }

  /** Task and escrow ids are new, and the agent's own requests carry its id. */
  ghost predicate Possible(w: World, e: Step, agent: string) {
    match e
    case Begin(f, _) =>
      && f.id !in w.s.store && f.request.taskId !in w.s.byTask
      && (f.own ==> f.request.clientAgentId == agent)
    case End(j, _) => j < |w.flights|
  }

  // ----- What every step keeps -----

  /** The locked records are exactly those of the flights. */
  ghost predicate Airborne(w: World) {
    && (forall i :: 0 <= i < |w.flights| ==> ClosedAs(w.s, w.flights[i].request, w.flights[i].id, Locked))
    && (forall i, j :: 0 <= i < j < |w.flights| ==> w.flights[i].id != w.flights[j].id)
    && forall id :: id in w.s.store && w.s.store[id].status == Locked ==>
         exists i :: 0 <= i < |w.flights| && w.flights[i].id == id
  }

  ghost predicate Accounted(w: World, initial: real, agent: string) {
    && (forall i :: 0 <= i < |w.flights| && w.flights[i].own ==> w.flights[i].request.clientAgentId == agent)
    && w.balance + PaidBy(w.s, agent) == initial + w.unpaid + w.foreign
    && (initial >= 0.0 ==> w.balance >= 0.0)
  }

  ghost predicate Keeps(w: World, initial: real, agent: string) {
    Inv(w.s) && Airborne(w) && Accounted(w, initial, agent)
  }

  lemma BeginAirborne(w: World, f: Flight)
    requires Airborne(w) && f.id !in w.s.store && f.request.taskId !in w.s.byTask && f.request.costUsd > 0.0
    ensures Airborne(w.(s := After(w.s, LockOf(f)), flights := w.flights + [f]))
  {
    var w' := w.(s := After(w.s, LockOf(f)), flights := w.flights + [f]);
    assert w'.flights[|w.flights|] == f;
    forall id | id in w'.s.store && w'.s.store[id].status == Locked
      ensures exists i :: 0 <= i < |w'.flights| && w'.flights[i].id == id
    {
      if id != f.id {
        var i :| 0 <= i < |w.flights| && w.flights[i].id == id;
        assert w'.flights[i].id == id;
      }
    }
  }

  /** A lock is not a payment. */
  lemma BeginPaysNothing(s: State, f: Flight, agent: string)
    requires Indexed(s) && f.id !in s.store && f.request.taskId !in s.byTask && f.request.costUsd > 0.0
    ensures PaidBy(After(s, LockOf(f)), agent) == PaidBy(s, agent)
  {
    hide Indexed, Total;
    TotalOfLock(s, LockOf(f), PaidWeight(agent));
  }

  lemma BeginKeeps(w: World, f: Flight, initial: real, agent: string)
    requires Keeps(w, initial, agent) && Possible(w, Begin(f, true), agent) && f.request.costUsd > 0.0
    ensures Keeps(w.(s := After(w.s, LockOf(f)), flights := w.flights + [f]), initial, agent)
  {
    hide Inv, Airborne, PaidBy, After, Indexed;
    InvIndexed(w.s);
    BeginAirborne(w, f);
    LockKeeps(w.s, LockOf(f));
    BeginPaysNothing(w.s, f, agent);
  }

  /** The flights that go on keep their records, and no other record is locked. */
  lemma EndAirborne(w: World, j: nat, s': State, status: Status)
    requires Airborne(w) && j < |w.flights| && OthersKept(w.s, s', w.flights[j].id)
    requires ClosedAs(s', w.flights[j].request, w.flights[j].id, status) && status != Locked
    ensures Airborne(World(s', w.balance, Remove(w.flights, j), w.unpaid, w.foreign))
  {
    hide ClosedAs, Remove;
    var left := Remove(w.flights, j);
    RemoveAt(w.flights, j);
    forall i | 0 <= i < |left| ensures ClosedAs(s', left[i].request, left[i].id, Locked) {
      var k := if i < j then i else i + 1;
      assert left[i] == w.flights[k] && w.flights[k].id != w.flights[j].id;
      OtherKept(w.s, s', w.flights[j].id, left[i]);
    }
    StatusOf(s', w.flights[j], status);
    forall id | id in s'.store && s'.store[id].status == Locked
      ensures exists i :: 0 <= i < |left| && left[i].id == id
    {
      var k :| 0 <= k < |w.flights| && w.flights[k].id == id;
      var i := if k < j then k else k - 1;
      assert left[i] == w.flights[k];
    }
  }

  lemma RemoveAt(flights: seq<Flight>, j: nat)
    requires j < |flights|
    ensures |Remove(flights, j)| == |flights| - 1
    ensures forall i :: 0 <= i < |flights| - 1 ==> Remove(flights, j)[i] == flights[if i < j then i else i + 1]
  {
  }

  lemma OtherKept(s: State, s': State, id: EscrowId, f: Flight)
    requires OthersKept(s, s', id) && f.id != id && ClosedAs(s, f.request, f.id, Locked)
    ensures ClosedAs(s', f.request, f.id, Locked)
  {
  }

  lemma StatusOf(s: State, f: Flight, status: Status)
    requires ClosedAs(s, f.request, f.id, status)
    ensures f.id in s.store && s.store[f.id].status == status
  {
  }

  lemma EndSettles(s: State, maxRetries: nat, f: Flight, env: Env, agent: string)
    requires Inv(s) && ClosedAs(s, f.request, f.id, Locked)
    ensures var (s', r) := Ended(s, maxRetries, f, env);
      && Inv(s') && OthersKept(s, s', f.id) && ClosedAs(s', f.request, f.id, StatusFor(r.escrowStatus))
      && (r.success <==> r.escrowStatus == ReportsReleased)
      && PaidBy(s', agent) ==
         PaidBy(s, agent) + if r.success && f.request.clientAgentId == agent then f.request.costUsd else 0.0
  {
    hide Inv, Settling, PaidBy, Indexed, ClosedAs, OthersKept;
    InvIndexed(s);
    SettlingCloses(s, maxRetries, f.request, env.(freshId := f.id));
    PaidBySettling(s, maxRetries, f.request, env.(freshId := f.id), agent);
  }

  lemma EndKeeps(w: World, j: nat, env: Env, initial: real, maxRetries: nat, agent: string)
    requires Keeps(w, initial, agent) && j < |w.flights|
    ensures Keeps(Next(w, End(j, env), maxRetries, agent), initial, agent)
  {
    hide Inv, Ended, PaidBy, Remove, ClosedAs, OthersKept;
    var f := w.flights[j];
    EndSettles(w.s, maxRetries, f, env, agent);
    var (s', r) := Ended(w.s, maxRetries, f, env);
    EndAirborne(w, j, s', StatusFor(r.escrowStatus));
    RemoveAt(w.flights, j);
    AirborneOnly(
      World(s', w.balance, Remove(w.flights, j), w.unpaid, w.foreign),
      Next(w, End(j, env), maxRetries, agent));
    hide Airborne;
  }

  lemma AirborneOnly(w: World, w': World)
    requires Airborne(w) && w'.s == w.s && w'.flights == w.flights
    ensures Airborne(w')
  {
  }

  lemma StepKeeps(w: World, e: Step, initial: real, maxRetries: nat, agent: string)
    requires Keeps(w, initial, agent) && Possible(w, e, agent)
    ensures Keeps(Next(w, e, maxRetries, agent), initial, agent)
  {
    hide Keeps;
    match e
    case Begin(f, served) =>
      if Begins(w, f, served) {
        BeginKeeps(w, f, initial, agent);
      }
    case End(j, env) =>
      EndKeeps(w, j, env, initial, maxRetries, agent);
  }

  // ----- Whole runs -----

  ghost predicate PossibleRun(w: World, steps: seq<Step>, maxRetries: nat, agent: string)
    decreases |steps|
  {
    steps != [] ==>
      Possible(w, steps[0], agent) && PossibleRun(Next(w, steps[0], maxRetries, agent), steps[1..], maxRetries, agent)
  }

  ghost function Run(w: World, steps: seq<Step>, maxRetries: nat, agent: string): World
    requires PossibleRun(w, steps, maxRetries, agent)
    decreases |steps|
  {
    if steps == [] then w else Run(Next(w, steps[0], maxRetries, agent), steps[1..], maxRetries, agent)
  }

  lemma {:induction false} RunKeeps(w: World, steps: seq<Step>, initial: real, maxRetries: nat, agent: string)
    requires Keeps(w, initial, agent) && PossibleRun(w, steps, maxRetries, agent)
    ensures Keeps(Run(w, steps, maxRetries, agent), initial, agent)
    decreases |steps|
  {
    hide Keeps, Next;
    if steps != [] {
      StepKeeps(w, steps[0], initial, maxRetries, agent);
      RunKeeps(Next(w, steps[0], maxRetries, agent), steps[1..], initial, maxRetries, agent);
    }
  }

  function Fresh(initial: real): World {
    World(EMPTY, initial, [], 0.0, 0.0)
  }

  lemma FreshKeeps(initial: real, agent: string)
    ensures Keeps(Fresh(initial), initial, agent)
  {
    hide Inv, PaidBy;
    NothingPaid(agent);
  }

  /** In any interleaving: exactly the executions in flight have a locked record, the balance is initial minus paid plus
      what went unpaid or was released for others, and never negative. */
  lemma InterleavedWallet(initial: real, steps: seq<Step>, maxRetries: nat, agent: string)
    requires PossibleRun(Fresh(initial), steps, maxRetries, agent)
    ensures var w := Run(Fresh(initial), steps, maxRetries, agent);
      && Airborne(w)
      && (w.flights == [] ==> NoneLocked(w.s))
      && w.balance == initial - PaidBy(w.s, agent) + w.unpaid + w.foreign
      && (initial >= 0.0 ==> w.balance >= 0.0)
  {
    hide Run, PossibleRun, PaidBy, Inv, ClosedAs;
    FreshKeeps(initial, agent);
    RunKeeps(Fresh(initial), steps, initial, maxRetries, agent);
  }

  // ----- Exactly when a release goes unpaid -----

  /** What the agent has in flight. */
  function Committed(flights: seq<Flight>): real {
    if flights == [] then 0.0
    else Committed(flights[1..]) + if flights[0].own then flights[0].request.costUsd else 0.0
  }

  lemma {:induction false} CommittedAppend(flights: seq<Flight>, f: Flight)
    ensures Committed(flights + [f]) == Committed(flights) + if f.own then f.request.costUsd else 0.0
  {
    if flights == [] {
      assert [f][1..] == [];
    } else {
      assert (flights + [f])[1..] == flights[1..] + [f];
      CommittedAppend(flights[1..], f);
    }
  }

  lemma {:induction false} CommittedRemove(flights: seq<Flight>, j: nat)
    requires j < |flights|
    ensures Committed(Remove(flights, j)) ==
      Committed(flights) - if flights[j].own then flights[j].request.costUsd else 0.0
  {
    if j == 0 {
      assert Remove(flights, j) == flights[1..];
    } else {
      assert Remove(flights, j)[1..] == Remove(flights[1..], j - 1);
      CommittedRemove(flights[1..], j - 1);
    }
  }

  ghost predicate Priced(flights: seq<Flight>) {
    forall i :: 0 <= i < |flights| ==> flights[i].request.costUsd > 0.0
  }

  lemma {:induction false} CommittedCovers(flights: seq<Flight>, j: nat)
    requires j < |flights| && Priced(flights)
    ensures Committed(flights) >= if flights[j].own then flights[j].request.costUsd else 0.0
  {
    CommittedNonNegative(flights[1..]);
    if j > 0 {
      assert flights[j] == flights[1..][j - 1];
      CommittedCovers(flights[1..], j - 1);
    }
  }

  lemma {:induction false} CommittedNonNegative(flights: seq<Flight>)
    requires Priced(flights)
    ensures Committed(flights) >= 0.0
  {
    if flights != [] {
      CommittedNonNegative(flights[1..]);
    }
  }

  /** Every purchase of the run begins with its price and all prices in flight covered. */
  ghost predicate Reserved(w: World, steps: seq<Step>, maxRetries: nat, agent: string)
    decreases |steps|
  {
    steps != [] ==>
      && (steps[0].Begin? && Begins(w, steps[0].f, steps[0].served) && steps[0].f.own ==>
            w.balance >= Committed(w.flights) + steps[0].f.request.costUsd)
      && (steps[0].End? ==> steps[0].j < |w.flights|)
      && Reserved(Next(w, steps[0], maxRetries, agent), steps[1..], maxRetries, agent)
  }

  ghost predicate Covered(w: World) {
    Priced(w.flights) && Committed(w.flights) <= w.balance && w.unpaid == 0.0
  }

  lemma StepCovered(w: World, e: Step, maxRetries: nat, agent: string)
    requires Covered(w) && Possible(w, e, agent)
    requires e.Begin? && Begins(w, e.f, e.served) && e.f.own ==> w.balance >= Committed(w.flights) + e.f.request.costUsd
    ensures Covered(Next(w, e, maxRetries, agent))
  {
    hide Ended, After;
    match e
    case Begin(f, served) => CommittedAppend(w.flights, f);
    case End(j, env) =>
      CommittedRemove(w.flights, j);
      CommittedCovers(w.flights, j);
  }

  /** If every purchase begins with the prices in flight covered, every release is paid for. */
  lemma {:induction false} ReservedRunIsPaid(w: World, steps: seq<Step>, maxRetries: nat, agent: string)
    requires Covered(w) && PossibleRun(w, steps, maxRetries, agent) && Reserved(w, steps, maxRetries, agent)
    ensures Covered(Run(w, steps, maxRetries, agent))
    decreases |steps|
  {
    hide Covered, Next;
    if steps != [] {
      StepCovered(w, steps[0], maxRetries, agent);
      ReservedRunIsPaid(Next(w, steps[0], maxRetries, agent), steps[1..], maxRetries, agent);
    }
  }

  /** The execution ends with a release. */
  predicate Releases(env: Env, maxRetries: nat) {
    Approved(env) && exists i :: 0 <= i < maxRetries && !env.releaseThrows(i)
  }

  /** Everything in flight ends with a release, in order. */
  ghost function AllReleased(w: World, env: Env, maxRetries: nat, agent: string): World
    decreases |w.flights|
  {
    if w.flights == [] then w
    else AllReleased(Next(w, End(0, env), maxRetries, agent), env, maxRetries, agent)
  }

  lemma EndReleased(w: World, env: Env, initial: real, maxRetries: nat, agent: string)
    requires Keeps(w, initial, agent) && w.flights != [] && Releases(env, maxRetries)
    ensures var f, w' := w.flights[0], Next(w, End(0, env), maxRetries, agent);
      && w'.flights == w.flights[1..]
      && w'.balance == (if f.own && w.balance >= f.request.costUsd then w.balance - f.request.costUsd else w.balance)
      && w'.unpaid == (if f.own && w.balance < f.request.costUsd then w.unpaid + f.request.costUsd else w.unpaid)
  {
    hide Inv, Approved, Airborne;
    var f := w.flights[0];
    FlightLocked(w, 0);
    assert Remove(w.flights, 0) == w.flights[1..];
    ReleasedIfDeserved(w.s, maxRetries, f, env);
    hide Ended, PaidBy;
  }

  lemma FlightLocked(w: World, j: nat)
    requires Airborne(w) && j < |w.flights|
    ensures ClosedAs(w.s, w.flights[j].request, w.flights[j].id, Locked)
  {
  }

  lemma ReleasedIfDeserved(s: State, maxRetries: nat, f: Flight, env: Env)
    requires ClosedAs(s, f.request, f.id, Locked) && Releases(env, maxRetries)
    ensures var r := Ended(s, maxRetries, f, env).1; r.success && r.escrowStatus == ReportsReleased
  {
    hide Settling;
    SettlingPays(s, maxRetries, f.request, env.(freshId := f.id));
  }

  /** When all that is in flight is released, some release goes unpaid exactly when its prices together exceed the
      balance. */
  lemma {:induction false} UnpaidIff(w: World, env: Env, initial: real, maxRetries: nat, agent: string)
    requires Keeps(w, initial, agent) && Priced(w.flights) && Releases(env, maxRetries) && w.balance >= 0.0
    ensures var w' := AllReleased(w, env, maxRetries, agent);
      w'.unpaid >= w.unpaid && (w'.unpaid > w.unpaid <==> Committed(w.flights) > w.balance)
    decreases |w.flights|
  {
    hide Keeps, Next, Releases;
    if w.flights != [] {
      var w1 := Next(w, End(0, env), maxRetries, agent);
      EndReleased(w, env, initial, maxRetries, agent);
      StepKeeps(w, End(0, env), initial, maxRetries, agent);
      assert Priced(w1.flights);
      CommittedNonNegative(w1.flights);
      UnpaidIff(w1, env, initial, maxRetries, agent);
    }
  }

  lemma Begun(w: World, f: Flight, maxRetries: nat, agent: string)
    requires f.own && f.request.clientAgentId == agent && 0.0 < f.request.costUsd <= w.balance
    requires f.id !in w.s.store && f.request.taskId !in w.s.byTask
    ensures var w' := Next(w, Begin(f, true), maxRetries, agent);
      && Possible(w, Begin(f, true), agent)
      && w'.flights == w.flights + [f] && w'.balance == w.balance && w'.unpaid == w.unpaid
      && w'.s.store.Keys == w.s.store.Keys + {f.id} && w'.s.byTask.Keys == w.s.byTask.Keys + {f.request.taskId}
  {
  }

  /** Two purchases, each affordable, together not: both begin, and if both are released one is not paid for. */
  lemma OverlapGoesUnpaid(x: Flight, y: Flight, initial: real, env: Env, maxRetries: nat, agent: string)
    requires x.own && y.own && x.request.clientAgentId == agent == y.request.clientAgentId
    requires x.id != y.id && x.request.taskId != y.request.taskId
    requires 0.0 < x.request.costUsd <= initial && 0.0 < y.request.costUsd <= initial
    requires x.request.costUsd + y.request.costUsd > initial && Releases(env, maxRetries)
    ensures var w1 := Next(Fresh(initial), Begin(x, true), maxRetries, agent);
      var w2 := Next(w1, Begin(y, true), maxRetries, agent);
      && Possible(Fresh(initial), Begin(x, true), agent) && Possible(w1, Begin(y, true), agent)
      && w2.flights == [x, y]
      && AllReleased(w2, env, maxRetries, agent).unpaid > 0.0
  {
    hide Releases, AllReleased, Next, Keeps, Committed, Possible;
    var w0 := Fresh(initial);
    var w1 := Next(w0, Begin(x, true), maxRetries, agent);
    var w2 := Next(w1, Begin(y, true), maxRetries, agent);
    FreshKeeps(initial, agent);
    Begun(w0, x, maxRetries, agent);
    StepKeeps(w0, Begin(x, true), initial, maxRetries, agent);
    Begun(w1, y, maxRetries, agent);
    StepKeeps(w1, Begin(y, true), initial, maxRetries, agent);
    assert w1.flights == [] + [x] && w2.flights == [] + [x] + [y] == [x, y];
    NothingCommitted();
    CommittedAppend([], x);
    CommittedAppend([] + [x], y);
    UnpaidIff(w2, env, initial, maxRetries, agent);
  }

  lemma NothingCommitted()
    ensures Committed([]) == 0.0
  {
  }
}
