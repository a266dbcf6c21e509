/** The daily budget gate, and what it is worth when several adapters work at once. */
module Budgeting {
  import opened Collections

  datatype State = State(used: real, day: int)

  function RolledOver(s: State, today: int): State {
    if today != s.day then State(0.0, today) else s
  }

  function AfterRecord(s: State, cost: real, today: int): State {
    var s' := RolledOver(s, today);
    s'.(used := s'.used + cost)
  }

  predicate Exceeds(s: State, estimate: real, cap: real) {
    s.used + estimate > cap
  }

  class BudgetGuard {
    const dailyCapUsd: real
    var usedTodayUsd: real
    var lastResetDate: int

    constructor (dailyCapUsd: real, today: int)
      ensures this.dailyCapUsd == dailyCapUsd && View() == State(0.0, today)
    {
      this.dailyCapUsd := dailyCapUsd;
      usedTodayUsd, lastResetDate := 0.0, today;
    }

    function View(): State
      reads this
    {
      State(usedTodayUsd, lastResetDate)
    }

    /** Today's spend as the store reports it; None is a store that fails. */
    method Hydrate(costToday: Option<real>, today: int)
      modifies this
      ensures View() == if costToday.Some? then State(costToday.value, today) else State(0.0, old(View()).day)
    {
      match costToday
      case Some(used) =>
        usedTodayUsd := used;
        lastResetDate := today;
      case None =>
        usedTodayUsd := 0.0;
    }

    method RolloverIfNeeded(today: int)
      modifies this
      ensures View() == RolledOver(old(View()), today)
    {
      if today != lastResetDate {
        usedTodayUsd := 0.0;
        lastResetDate := today;
      }
    }

    method WouldExceed(estimateUsd: real, today: int) returns (r: bool)
      modifies this
      ensures View() == RolledOver(old(View()), today)
      ensures r <==> Exceeds(View(), estimateUsd, dailyCapUsd)
    {
      RolloverIfNeeded(today);
      r := usedTodayUsd + estimateUsd > dailyCapUsd;
    }

    method Record(actualUsd: real, today: int)
      modifies this
      ensures View() == AfterRecord(old(View()), actualUsd, today)
    {
      RolloverIfNeeded(today);
      usedTodayUsd := usedTodayUsd + actualUsd;
    }

    method IsExhausted(today: int) returns (r: bool)
      modifies this
      ensures View() == RolledOver(old(View()), today)
      ensures r <==> View().used >= dailyCapUsd
      ensures r <==> forall estimate :: estimate > 0.0 ==> Exceeds(View(), estimate, dailyCapUsd)
    {
      RolloverIfNeeded(today);
      r := usedTodayUsd >= dailyCapUsd;
      assert Exceeds(View(), dailyCapUsd - usedTodayUsd, dailyCapUsd) <==> false;
    }
  }

  // ----- Adapters in parallel -----

  /** What one adapter does between two awaits.  A task passes the gate, records its costs, and ends
      (delivered, failed or abandoned); anything else it does leaves the budget alone. */
  datatype Event =
    | Gate(adapter: nat, estimate: real, day: int)
    | Cost(adapter: nat, cost: real, day: int)
    | Finish(adapter: nat)
    | Look(adapter: nat, day: int)  // isExhausted

  /** `open[a]` is what the task of adapter a may still record: 0 when it has none. */
  datatype World = World(s: State, open: seq<real>)

  /** The gate lets the task in or not; an adapter works on one task at a time. */
  function Step(cap: real, w: World, e: Event): World
    requires e.adapter < |w.open|
  {
    match e
    case Gate(a, estimate, day) =>
      var s := RolledOver(w.s, day);
      World(s, if Exceeds(s, estimate, cap) then w.open[a := 0.0] else w.open[a := estimate])
    case Cost(a, cost, day) => World(AfterRecord(w.s, cost, day), w.open[a := w.open[a] - cost])
    case Finish(a) => w.(open := w.open[a := 0.0])
    case Look(a, day) => w.(s := RolledOver(w.s, day))
  }

  /** Estimates lie between 0 and M and a task never records more than its estimate in all. */
  ghost predicate Fair(w: World, e: Event, most: real) {
    && e.adapter < |w.open|
    && (e.Gate? ==> 0.0 <= e.estimate <= most)
    && (e.Cost? ==> 0.0 <= e.cost <= w.open[e.adapter])
  }

  ghost predicate FairRun(cap: real, w: World, events: seq<Event>, most: real)
    decreases |events|
  {
    events != [] ==> Fair(w, events[0], most) && FairRun(cap, Step(cap, w, events[0]), events[1..], most)
  }

  function Run(cap: real, w: World, events: seq<Event>): (w': World)
    requires forall i :: 0 <= i < |events| ==> events[i].adapter < |w.open|
    ensures |w'.open| == |w.open|
    decreases |events|
  {
    if events == [] then w else Run(cap, Step(cap, w, events[0]), events[1..])
  }

  function Sum(xs: seq<real>): real {
    if xs == [] then 0.0 else Sum(xs[..|xs| - 1]) + xs[|xs| - 1]
  }

  lemma {:induction false} SumUpdate(xs: seq<real>, i: nat, x: real)
    requires i < |xs|
    ensures Sum(xs[i := x]) == Sum(xs) - xs[i] + x
  {
    var n := |xs| - 1;
    if i == n {
      assert xs[i := x][..n] == xs[..n];
    } else {
      assert xs[i := x][..n] == xs[..n][i := x];
      SumUpdate(xs[..n], i, x);
    }
  }

  lemma {:induction false} SumBounded(xs: seq<real>, most: real)
    requires forall i :: 0 <= i < |xs| ==> 0.0 <= xs[i] <= most
    ensures 0.0 <= Sum(xs) <= |xs| as real * most
  {
    if xs != [] {
      SumBounded(xs[..|xs| - 1], most);
      assert |xs| as real * most == (|xs| - 1) as real * most + most;
    }
  }

  ghost predicate Inv(ceiling: real, w: World, most: real) {
    && |w.open| >= 1 && most >= 0.0
    && w.s.used >= 0.0
    && (forall i :: 0 <= i < |w.open| ==> 0.0 <= w.open[i] <= most)
    && w.s.used + Sum(w.open) <= ceiling + (|w.open| - 1) as real * most
  }

  lemma OthersBounded(open: seq<real>, a: nat, x: real, most: real)
    requires a < |open| && forall i :: 0 <= i < |open| ==> 0.0 <= open[i] <= most
    ensures Sum(open[a := x]) <= x + (|open| - 1) as real * most
    ensures Sum(open[a := x]) == Sum(open) - open[a] + x
  {
    SumUpdate(open, a, x);
    SumUpdate(open, a, 0.0);
    var rest := open[a := 0.0];
    var others := rest[..a] + rest[a + 1..];
    SumWithout(rest, a);
    SumBounded(others, most);
  }

  lemma {:induction false} SumWithout(xs: seq<real>, a: nat)
    requires a < |xs|
    ensures Sum(xs[..a] + xs[a + 1..]) == Sum(xs) - xs[a]
  {
    var n := |xs| - 1;
    if a == n {
      assert xs[..a] + xs[a + 1..] == xs[..n];
    } else {
      SumWithout(xs[..n], a);
      var ys := xs[..a] + xs[a + 1..];
      assert ys[..|ys| - 1] == xs[..n][..a] + xs[..n][a + 1..];
    }
  }

  lemma StepKeeps(cap: real, ceiling: real, w: World, e: Event, most: real)
    requires cap <= ceiling && Inv(ceiling, w, most) && Fair(w, e, most)
    ensures Inv(ceiling, Step(cap, w, e), most)
  {
    hide Sum;
    match e
    case Gate(a, estimate, day) =>
      OthersBounded(w.open, a, estimate, most);
      SumUpdate(w.open, a, 0.0);
    case Cost(a, cost, day) =>
      SumUpdate(w.open, a, w.open[a] - cost);
    case Finish(a) =>
      SumUpdate(w.open, a, 0.0);
    case Look(a, day) =>
  }

  lemma {:induction false} FairRunInRange(cap: real, w: World, events: seq<Event>, most: real)
    requires FairRun(cap, w, events, most)
    ensures forall i :: 0 <= i < |events| ==> events[i].adapter < |w.open|
    decreases |events|
  {
    if events != [] {
      FairRunInRange(cap, Step(cap, w, events[0]), events[1..], most);
      forall i | 0 <= i < |events| ensures events[i].adapter < |w.open| {
        if i > 0 {
          assert events[i] == events[1..][i - 1];
        }
      }
    }
  }

  lemma {:induction false} RunKeeps(cap: real, ceiling: real, w: World, events: seq<Event>, most: real)
    requires cap <= ceiling && Inv(ceiling, w, most) && FairRun(cap, w, events, most)
    requires forall i :: 0 <= i < |events| ==> events[i].adapter < |w.open|
    ensures Inv(ceiling, Run(cap, w, events), most)
    decreases |events|
  {
    if events != [] {
      StepKeeps(cap, ceiling, w, events[0], most);
      RunKeeps(cap, ceiling, Step(cap, w, events[0]), events[1..], most);
    }
  }

  /** With k adapters, in any interleaving and across any number of days: what is spent plus what the admitted tasks
      may still spend stays within the cap (or what was found spent at startup, if that is more) plus k - 1 of the
      largest estimate.  With one adapter the cap is hard. */
  lemma GateHoldsUpTo(cap: real, used: real, day: int, k: nat, events: seq<Event>, most: real)
    requires k >= 1 && cap >= 0.0 && used >= 0.0 && most >= 0.0
    requires FairRun(cap, Idle(used, day, k), events, most)
    ensures forall i :: 0 <= i < |events| ==> events[i].adapter < k
    ensures var w, ceiling := Run(cap, Idle(used, day, k), events), if used > cap then used else cap;
      && 0.0 <= w.s.used <= w.s.used + Sum(w.open) <= ceiling + (k - 1) as real * most
      && (k == 1 ==> w.s.used <= ceiling)
  {
    hide Run, Sum, FairRun;
    var w := Idle(used, day, k);
    IdleKeeps(cap, used, day, k, most);
    FairRunInRange(cap, w, events, most);
    RunKeeps(cap, if used > cap then used else cap, w, events, most);
    SumBounded(Run(cap, w, events).open, most);
  }

  lemma IdleKeeps(cap: real, used: real, day: int, k: nat, most: real)
    requires k >= 1 && cap >= 0.0 && used >= 0.0 && most >= 0.0
    ensures Inv(if used > cap then used else cap, Idle(used, day, k), most)
  {
    SumZeroes(k);
    assert (k - 1) as real * most >= 0.0;
  }

  function Idle(used: real, day: int, k: nat): World {
    World(State(used, day), seq(k, _ => 0.0))
  }

  lemma {:induction false} SumZeroes(k: nat)
    ensures Sum(seq(k, _ => 0.0)) == 0.0
  {
    if k > 0 {
      assert seq(k, _ => 0.0)[..k - 1] == seq(k - 1, _ => 0.0);
      SumZeroes(k - 1);
    }
  }

  // ----- What a day has cost -----

  /** The event reads the calendar. */
  predicate Dated(e: Event) {
    !e.Finish?
  }

  /** The date read last before place i. */
  function DateBefore(day: int, events: seq<Event>, i: nat): int
    requires i <= |events|
  {
    if i == 0 then day else if Dated(events[i - 1]) then events[i - 1].day else DateBefore(day, events, i - 1)
  }

  /** What was recorded from place i on. */
  function Recorded(events: seq<Event>, i: nat): real
    requires i <= |events|
    decreases |events| - i
  {
    if i == |events| then 0.0 else (if events[i].Cost? then events[i].cost else 0.0) + Recorded(events, i + 1)
  }

  /** A new date is read at place i, and no other one after it. */
  ghost predicate LastTurn(day: int, events: seq<Event>, i: nat) {
    && i < |events|
    && Dated(events[i]) && events[i].day != DateBefore(day, events, i)
    && forall j :: i < j < |events| && Dated(events[j]) ==> events[j].day == events[i].day
  }

  /** What the last date that was read has cost: what was recorded since it was first read, together with what was found
      spent at startup if that was the same date. */
  ghost function Spent(used: real, day: int, events: seq<Event>): real {
    if exists i :: LastTurn(day, events, i) then
      var i :| LastTurn(day, events, i);
      Recorded(events, i)
    else used + Recorded(events, 0)
  }

  lemma {:induction false} RunSnoc(cap: real, w: World, events: seq<Event>, e: Event)
    requires InRange(events + [e], |w.open|)
    ensures InRange(events, |w.open|)
    ensures Run(cap, w, events + [e]) == Step(cap, Run(cap, w, events), e)
    decreases |events|
  {
    assert forall x :: x in events + [e] <==> x in events || x == e;
    if events == [] {
      assert events + [e] == [e] && [e][1..] == [];
    } else {
      assert (events + [e])[0] == events[0] && (events + [e])[1..] == events[1..] + [e];
      assert forall x :: x in events[1..] + [e] ==> x in events + [e];
      RunSnoc(cap, Step(cap, w, events[0]), events[1..], e);
    }
  }

  lemma {:induction false} RecordedSnoc(events: seq<Event>, e: Event, i: nat)
    requires i <= |events|
    ensures Recorded(events + [e], i) == Recorded(events, i) + if e.Cost? then e.cost else 0.0
    decreases |events| - i
  {
    if i == |events| {
      assert Recorded(events + [e], i + 1) == 0.0;
    } else {
      RecordedSnoc(events, e, i + 1);
    }
  }

  lemma {:induction false} DateBeforeSnoc(day: int, events: seq<Event>, e: Event, i: nat)
    requires i <= |events|
    ensures DateBefore(day, events + [e], i) == DateBefore(day, events, i)
  {
    if i > 0 {
      DateBeforeSnoc(day, events, e, i - 1);
    }
  }

  /** The date in force is that of the last turn. */
  lemma {:induction false} DateOfTurn(day: int, events: seq<Event>, i: nat, j: nat)
    requires LastTurn(day, events, i) && i < j <= |events|
    ensures DateBefore(day, events, j) == events[i].day
  {
    if j > i + 1 {
      DateOfTurn(day, events, i, j - 1);
    }
  }

  /** There is one last turn, unless all dates are the same. */
  lemma {:induction false} TurnOrNone(day: int, events: seq<Event>, i: nat)
    requires LastTurn(day, events, i)
    ensures forall j :: LastTurn(day, events, j) ==> j == i
  {
    forall j: nat | LastTurn(day, events, j) ensures j == i {
      if i < j {
        DateOfTurn(day, events, i, j);
      } else if j < i {
        DateOfTurn(day, events, j, i);
      }
    }
  }

  lemma TurnSnoc(day: int, events: seq<Event>, e: Event)
    ensures var all, today := events + [e], DateBefore(day, events, |events|);
      && (Dated(e) && e.day != today ==> LastTurn(day, all, |events|))
      && (!Dated(e) || e.day == today ==> forall i :: LastTurn(day, all, i) <==> LastTurn(day, events, i))
  {
    var all, today := events + [e], DateBefore(day, events, |events|);
    DateBeforeSnoc(day, events, e, |events|);
    forall i: nat | i < |events| ensures DateBefore(day, all, i) == DateBefore(day, events, i) {
      DateBeforeSnoc(day, events, e, i);
    }
    forall i: nat | LastTurn(day, events, i) ensures today == events[i].day {
      DateOfTurn(day, events, i, |events|);
    }
    if !Dated(e) || e.day == today {
      forall i: nat ensures LastTurn(day, all, i) <==> LastTurn(day, events, i) {
        if LastTurn(day, all, i) && i < |events| {
          assert forall j :: 0 <= j < |events| ==> all[j] == events[j];
        }
      }
    }
  }

  lemma SpentSnoc(used: real, day: int, events: seq<Event>, e: Event)
    ensures Spent(used, day, events + [e]) ==
      (if Dated(e) && e.day != DateBefore(day, events, |events|) then 0.0 else Spent(used, day, events))
      + if e.Cost? then e.cost else 0.0
  {
    hide LastTurn, DateBefore;
    var all := events + [e];
    TurnSnoc(day, events, e);
    forall i: nat | i <= |events|
      ensures Recorded(all, i) == Recorded(events, i) + if e.Cost? then e.cost else 0.0
    {
      RecordedSnoc(events, e, i);
    }
    if Dated(e) && e.day != DateBefore(day, events, |events|) {
      TurnOrNone(day, all, |events|);
    } else if i: nat :| LastTurn(day, events, i) {
      TurnOrNone(day, events, i);
      TurnOrNone(day, all, i);
      assert i < |events| by { TurnInside(day, events, i); }
    }
  }

  lemma TurnInside(day: int, events: seq<Event>, i: nat)
    requires LastTurn(day, events, i)
    ensures i < |events|
  {
  }

  /** After any run, with the dates in any order: the guard counts what the date it knows has cost, and nothing else. */
  lemma {:induction false} UsedIsSpent(cap: real, used: real, day: int, k: nat, events: seq<Event>)
    requires InRange(events, k)
    ensures |Idle(used, day, k).open| == k
    ensures Run(cap, Idle(used, day, k), events).s == State(Spent(used, day, events), DateBefore(day, events, |events|))
    decreases |events|
  {
    hide Spent, LastTurn;
    IdleSize(used, k);
    if events == [] {
      NothingSpent(used, day);
    } else {
      var front, e := events[..|events| - 1], events[|events| - 1];
      assert events == front + [e];
      RunSnoc(cap, Idle(used, day, k), front, e);
      UsedIsSpent(cap, used, day, k, front);
      SpentSnoc(used, day, front, e);
      DateBeforeSnoc(day, front, e, |front|);
    }
  }

  lemma NothingSpent(used: real, day: int)
    ensures Spent(used, day, []) == used
  {
  }

  /** A task passes the gate exactly when what the date of its arrival has cost so far leaves room for its estimate: a
      new date starts at zero. */
  lemma GateOpensIff(cap: real, used: real, day: int, k: nat, events: seq<Event>, gate: Event)
    requires InRange(events, k) && gate.Gate? && gate.adapter < k
    ensures |Idle(used, day, k).open| == k
    ensures var w := Step(cap, Run(cap, Idle(used, day, k), events), gate);
      w.open[gate.adapter] ==
      if Spent(used, day, events + [gate]) + gate.estimate <= cap then gate.estimate else 0.0
  {
    hide Spent;
    UsedIsSpent(cap, used, day, k, events);
    SpentSnoc(used, day, events, gate);
  }

  // ----- The bound is reached -----

  function Gates(i: nat, k: nat, m: real): seq<Event>
    requires i <= k
    decreases k - i
  {
    if i == k then [] else [Gate(i, m, 0)] + Gates(i + 1, k, m)
  }

  function Costs(i: nat, k: nat, m: real): seq<Event>
    requires i <= k
    decreases k - i
  {
    if i == k then [] else [Cost(i, m, 0)] + Costs(i + 1, k, m)
  }

  lemma OneTaskLess(k: nat, m: real)
    requires k > 0
    ensures k as real * m == m + (k - 1) as real * m
  {
  }

  ghost predicate InRange(events: seq<Event>, k: nat) {
    forall e :: e in events ==> e.adapter < k
  }

  /** One event before a run. */
  lemma Before(cap: real, w: World, e: Event, later: seq<Event>, m: real)
    requires Fair(w, e, m) && FairRun(cap, Step(cap, w, e), later, m) && InRange(later, |w.open|)
    ensures |Step(cap, w, e).open| == |w.open| && InRange([e] + later, |w.open|)
    ensures FairRun(cap, w, [e] + later, m)
    ensures Run(cap, w, [e] + later) == Run(cap, Step(cap, w, e), later)
  {
    assert |Step(cap, w, e).open| == |w.open|;
    var events := [e] + later;
    assert events[0] == e && events[1..] == later;
    assert forall x :: x in events <==> x == e || x in later;
  }

  /** All adapters pass the gate before any of them records its cost: k tasks are let in when there is room for one. */
  lemma {:induction false} AllPassTheGate(cap: real, i: nat, k: nat, w: World, m: real)
    requires i <= k == |w.open| && m >= 0.0 && w.s == State(cap - m, 0)
    requires forall j :: 0 <= j < i ==> w.open[j] == m
    ensures FairRun(cap, w, Gates(i, k, m) + Costs(0, k, m), m)
    ensures InRange(Gates(i, k, m) + Costs(0, k, m), k)
    ensures Run(cap, w, Gates(i, k, m) + Costs(0, k, m)).s.used == cap - m + k as real * m
    decreases k - i
  {
    hide FairRun, Run, Costs, InRange;
    if i == k {
      assert Gates(i, k, m) + Costs(0, k, m) == Costs(0, k, m);
      AllSpend(cap, 0, k, w, m);
    } else {
      var e, later := Gate(i, m, 0), Gates(i + 1, k, m) + Costs(0, k, m);
      AllPassTheGate(cap, i + 1, k, Step(cap, w, e), m);
      Before(cap, w, e, later, m);
      assert Gates(i, k, m) + Costs(0, k, m) == [e] + later;
    }
  }

  lemma {:induction false} AllSpend(cap: real, i: nat, k: nat, w: World, m: real)
    requires i <= k == |w.open| && m >= 0.0 && w.s.day == 0
    requires forall j :: i <= j < k ==> w.open[j] == m
    ensures FairRun(cap, w, Costs(i, k, m), m) && InRange(Costs(i, k, m), k)
    ensures Run(cap, w, Costs(i, k, m)).s.used == w.s.used + (k - i) as real * m
    decreases k - i
  {
    if i < k {
      hide FairRun, Run, InRange;
      var e := Cost(i, m, 0);
      AllSpend(cap, i + 1, k, Step(cap, w, e), m);
      OneTaskLess(k - i, m);
      Before(cap, w, e, Costs(i + 1, k, m), m);
    } else {
      NothingMore(cap, w, m, k);
    }
  }

  lemma NothingMore(cap: real, w: World, m: real, k: nat)
    ensures FairRun(cap, w, [], m) && InRange([], k) && Run(cap, w, []) == w
  {
  }

  /** One adapter spends x on tasks of at most m, n of them being enough. */
  function Fill(x: real, m: real, n: nat): seq<Event>
    decreases n
  {
    if n == 0 || x <= m then [Gate(0, x, 0), Cost(0, x, 0)]
    else [Gate(0, m, 0), Cost(0, m, 0)] + Fill(x - m, m, n - 1)
  }

  lemma OneTask(cap: real, used: real, k: nat, x: real)
    requires k >= 1 && used + x <= cap
    ensures Step(cap, Step(cap, Idle(used, 0, k), Gate(0, x, 0)), Cost(0, x, 0)) == Idle(used + x, 0, k)
    ensures var w := Step(cap, Idle(used, 0, k), Gate(0, x, 0)); |w.open| == k && w.open[0] == x
  {
    var w := Step(cap, Idle(used, 0, k), Gate(0, x, 0));
    assert w.open == Idle(used, 0, k).open[0 := x];
    assert w.open[0 := x - x] == Idle(used, 0, k).open;
  }

  lemma {:induction false} FillSpends(cap: real, used: real, k: nat, x: real, m: real, n: nat, rest: seq<Event>)
    requires k >= 1 && 0.0 <= x <= n as real * m && m > 0.0 && used + x <= cap
    requires FairRun(cap, Idle(used + x, 0, k), rest, m) && InRange(rest, k)
    ensures InRange(Fill(x, m, n) + rest, k)
    ensures FairRun(cap, Idle(used, 0, k), Fill(x, m, n) + rest, m)
    ensures Run(cap, Idle(used, 0, k), Fill(x, m, n) + rest) == Run(cap, Idle(used + x, 0, k), rest)
    decreases n
  {
    hide Step, Idle, FairRun, Run, InRange;
    var last := n == 0 || x <= m;
    var y := if last then x else m;
    var later := if last then rest else Fill(x - m, m, n - 1) + rest;
    if !last {
      OneTaskLess(n, m);
      FillSpends(cap, used + m, k, x - m, m, n - 1, rest);
    }
    var w, gate, cost := Idle(used, 0, k), Gate(0, y, 0), Cost(0, y, 0);
    OneTask(cap, used, k, y);
    IdleSize(used, k);
    IdleSize(used + y, k);
    Before(cap, Step(cap, w, gate), cost, later, m);
    Before(cap, w, gate, [cost] + later, m);
    assert Fill(x, m, n) + rest == [gate] + ([cost] + later);
  }

  lemma IdleSize(used: real, k: nat)
    ensures forall day :: |Idle(used, day, k).open| == k
  {
  }

  lemma AllPassFromIdle(cap: real, k: nat, m: real) returns (events: seq<Event>)
    requires m >= 0.0
    ensures FairRun(cap, Idle(cap - m, 0, k), events, m) && InRange(events, k)
    ensures |Idle(cap - m, 0, k).open| == k
    ensures Run(cap, Idle(cap - m, 0, k), events).s.used == cap - m + k as real * m
  {
    events := Gates(0, k, m) + Costs(0, k, m);
    AllPassTheGate(cap, 0, k, Idle(cap - m, 0, k), m);
  }

  /** For every k, cap and M up to the cap the bound of GateHoldsUpTo is attained, so with two adapters or more the cap
      is not hard. */
  lemma BoundIsAttained(k: nat, cap: real, m: real) returns (events: seq<Event>)
    requires k >= 1 && 0.0 < m <= cap
    ensures FairRun(cap, Idle(0.0, 0, k), events, m)
    ensures forall i :: 0 <= i < |events| ==> events[i].adapter < k
    ensures Run(cap, Idle(0.0, 0, k), events).s.used == cap + (k - 1) as real * m
  {
    hide *;
    var last := AllPassFromIdle(cap, k, m);
    var n := EnoughTasks(cap - m, m);
    assert 0.0 + (cap - m) == cap - m;
    IdleSize(0.0, k);
    FillSpends(cap, 0.0, k, cap - m, m, n, last);
    events := Fill(cap - m, m, n) + last;
    RangeAt(events, k);
    assert k as real * m == m + (k - 1) as real * m;
  }

  lemma RangeAt(events: seq<Event>, k: nat)
    requires InRange(events, k)
    ensures forall i :: 0 <= i < |events| ==> events[i].adapter < k
  {
  }

  lemma EnoughTasks(x: real, m: real) returns (n: nat)
    requires x >= 0.0 && m > 0.0
    ensures x <= n as real * m
  {
    var q := x / m;
    assert q * m == x;
    n := q.Floor + 1;
    var d := n as real - q;
    assert d > 0.0;
    assert d * m > 0.0;
    assert n as real * m == q * m + d * m;
  }
}
