/** The circuit breaker, on an explicit clock in milliseconds. */
module CircuitBreaking {

  datatype CircuitState = Closed | Open | HalfOpen

  datatype Options = Options(failureThreshold: int, resetTimeoutMs: int, halfOpenSuccessThreshold: int)

  datatype State = State(state: CircuitState, failureCount: int, consecutiveSuccesses: int, lastFailureTime: int)

  const INITIAL := State(Closed, 0, 0, 0)

  function Cooled(o: Options, s: State, now: int): State {
    if s.state == Open && now - s.lastFailureTime >= o.resetTimeoutMs
    then s.(state := HalfOpen, consecutiveSuccesses := 0)
    else s
  }

  function AfterSuccess(o: Options, s: State, now: int): State {
    var s' := Cooled(o, s, now);
    match s'.state
    case HalfOpen =>
      if s'.consecutiveSuccesses + 1 >= o.halfOpenSuccessThreshold
      then s'.(state := Closed, failureCount := 0, consecutiveSuccesses := 0)
      else s'.(consecutiveSuccesses := s'.consecutiveSuccesses + 1)
    case Closed => if s'.failureCount > 0 then s'.(failureCount := s'.failureCount - 1) else s'
    case Open => s'
  }

  /** A failure does not look at the cooldown first. */
  function AfterFailure(o: Options, s: State, now: int): State {
    match s.state
    case Closed =>
      s.(failureCount := s.failureCount + 1, lastFailureTime := now,
         state := if s.failureCount + 1 >= o.failureThreshold then Open else Closed)
    case HalfOpen => s.(failureCount := o.failureThreshold, lastFailureTime := now, state := Open)
    case Open => s.(lastFailureTime := now)
  }

  datatype Executed = Rejected | Returned | Threw

  class CircuitBreaker {
    const options: Options
    var state: CircuitState
    var failureCount: int
    var consecutiveSuccesses: int
    var lastFailureTime: int

    constructor (options: Options)
      ensures this.options == options && View() == INITIAL
    {
      this.options := options;
      state, failureCount, consecutiveSuccesses, lastFailureTime := Closed, 0, 0, 0;
    }

    function View(): State
      reads this
    {
      State(state, failureCount, consecutiveSuccesses, lastFailureTime)
    }

    method UpdateStateIfCooldownElapsed(now: int)
      modifies this
      ensures View() == Cooled(options, old(View()), now)
    {
      if state == Open {
        if now - lastFailureTime >= options.resetTimeoutMs {
          state := HalfOpen;
          consecutiveSuccesses := 0;
        }
      }
    }

    method CanExecute(now: int) returns (ok: bool)
      modifies this
      ensures View() == Cooled(options, old(View()), now)
      ensures ok <==> View().state != Open
    {
      UpdateStateIfCooldownElapsed(now);
      ok := state == Closed || state == HalfOpen;
    }

    method RecordSuccess(now: int)
      modifies this
      ensures View() == AfterSuccess(options, old(View()), now)
    {
      UpdateStateIfCooldownElapsed(now);
      if state == HalfOpen {
        consecutiveSuccesses := consecutiveSuccesses + 1;
        if consecutiveSuccesses >= options.halfOpenSuccessThreshold {
          state := Closed;
          failureCount := 0;
          consecutiveSuccesses := 0;
        }
      } else if state == Closed {
        if failureCount > 0 {
          failureCount := if failureCount - 1 > 0 then failureCount - 1 else 0;
        }
      }
    }

    method RecordFailure(now: int)
      modifies this
      ensures View() == AfterFailure(options, old(View()), now)
    {
      lastFailureTime := now;
      if state == Closed {
        failureCount := failureCount + 1;
        if failureCount >= options.failureThreshold {
          state := Open;
        }
      } else if state == HalfOpen {
        state := Open;
        failureCount := options.failureThreshold;
      }
    }

    /** Runs an action that starts at `start` and, if it runs at all, ends at `end` by returning or throwing. */
    method Execute(start: int, end: int, succeeds: bool) returns (r: Executed)
      modifies this
      ensures var s := Cooled(options, old(View()), start);
        if s.state == Open then r == Rejected && View() == s
        else if succeeds then r == Returned && View() == AfterSuccess(options, s, end)
        else r == Threw && View() == AfterFailure(options, s, end)
    {
      var ok := CanExecute(start);
      if !ok {
        return Rejected;
      }
      if succeeds {
        RecordSuccess(end);
        return Returned;
      } else {
        RecordFailure(end);
        return Threw;
      }
    }

    method Reset()
      modifies this
      ensures View() == INITIAL
    {
      state, failureCount, consecutiveSuccesses, lastFailureTime := Closed, 0, 0, 0;
    }
  }

  // ----- Runs: any interleaving of questions and recorded outcomes -----

  /** A threshold below one trips on the first failure, as one does. */
  function Threshold(o: Options): int {
    if o.failureThreshold > 1 then o.failureThreshold else 1
  }

  datatype Event = Ask(now: int) | Success(now: int) | Failure(now: int)

  datatype Outcome = Outcome(ok: bool, at: int)

  /** `sinceClose` are the outcomes recorded while closed, since the breaker last became closed;
      `log` are all outcomes. */
  datatype Trace = Trace(s: State, sinceClose: seq<bool>, log: seq<Outcome>)

  function Next(o: Options, t: Trace, e: Event): Trace {
    match e
    case Ask(now) => t.(s := Cooled(o, t.s, now))
    case Success(now) =>
      var s' := AfterSuccess(o, t.s, now);
      Trace(s',
            if t.s.state == Closed then t.sinceClose + [true] else if s'.state == Closed then [] else t.sinceClose,
            t.log + [Outcome(true, now)])
    case Failure(now) =>
      Trace(AfterFailure(o, t.s, now),
            if t.s.state == Closed then t.sinceClose + [false] else t.sinceClose,
            t.log + [Outcome(false, now)])
  }

  function Run(o: Options, t: Trace, events: seq<Event>): Trace
    decreases |events|
  {
    if events == [] then t else Run(o, Next(o, t, events[0]), events[1..])
  }

  ghost predicate Clocked(events: seq<Event>, from: int) {
    events != [] ==> from <= events[0].now && Clocked(events[1..], events[0].now)
  }

  /** Failures minus successes. */
  function Score(h: seq<bool>): int {
    if h == [] then 0 else Score(h[..|h| - 1]) + if h[|h| - 1] then -1 else 1
  }

  /** The largest score of a suffix; the empty suffix makes it at least 0. */
  ghost predicate IsMaxSuffix(h: seq<bool>, m: int) {
    && (exists k :: 0 <= k <= |h| && Score(h[k..]) == m)
    && forall k :: 0 <= k <= |h| ==> Score(h[k..]) <= m
  }

  lemma MaxSuffixStep(h: seq<bool>, m: int, x: bool)
    requires IsMaxSuffix(h, m)
    ensures m >= 0 && IsMaxSuffix(h + [x], if !x then m + 1 else if m > 0 then m - 1 else 0)
  {
    var h' := h + [x];
    forall k | 0 <= k <= |h| ensures Score(h'[k..]) == Score(h[k..]) + if x then -1 else 1 {
      assert h'[k..] == h[k..] + [x];
      assert (h[k..] + [x])[..|h[k..]|] == h[k..];
    }
    var k :| 0 <= k <= |h| && Score(h[k..]) == m;
    assert h[|h|..] == [] && h'[|h'|..] == [];
    assert Score(h'[k..]) == m + if x then -1 else 1;
    assert Score(h'[|h'|..]) == 0 && Score(h[|h|..]) == 0;
  }

  /** No stretch that ends before the last outcome had reached the threshold. */
  ghost predicate NoEarlierTrip(o: Options, h: seq<bool>) {
    forall j, m :: 0 <= j < |h| && IsMaxSuffix(h[..j], m) ==> m < Threshold(o)
  }

  lemma MaxSuffixUnique(h: seq<bool>, m: int, m': int)
    requires IsMaxSuffix(h, m) && IsMaxSuffix(h, m')
    ensures m == m'
  {
  }

  /** The last `n` recorded outcomes are successes, none of them before `from`. */
  ghost predicate EndsInSuccesses(log: seq<Outcome>, n: int, from: int) {
    0 <= n <= |log| && forall i :: |log| - n <= i < |log| ==> log[i].ok && log[i].at >= from
  }

  ghost predicate LastFailureIs(log: seq<Outcome>, at: int) {
    exists i :: 0 <= i < |log| && LastFailureAt(log, at, i)
  }

  ghost predicate LastFailureAt(log: seq<Outcome>, at: int, i: int)
    requires 0 <= i < |log|
  {
    log[i] == Outcome(false, at) && forall j :: i < j < |log| ==> log[j].ok
  }

  ghost predicate Inv(o: Options, t: Trace, clock: int) {
    && NoEarlierTrip(o, t.sinceClose)
    && (t.s.state == Closed ==> IsMaxSuffix(t.sinceClose, t.s.failureCount) && t.s.failureCount < Threshold(o))
    && (t.s.state != Closed ==> IsMaxSuffix(t.sinceClose, Threshold(o)) && LastFailureIs(t.log, t.s.lastFailureTime))
    && (t.s.state == HalfOpen ==>
          && clock >= t.s.lastFailureTime + o.resetTimeoutMs
          && EndsInSuccesses(t.log, t.s.consecutiveSuccesses, t.s.lastFailureTime + o.resetTimeoutMs))
  }

  lemma NextKeeps(o: Options, t: Trace, clock: int, e: Event)
    requires Inv(o, t, clock) && clock <= e.now
    ensures Inv(o, Next(o, t, e), e.now)
  {
    hide Score, IsMaxSuffix, NoEarlierTrip, LastFailureIs, EndsInSuccesses;
    var t' := Next(o, t, e);
    NoSuccessesYet(t.log, t.s.lastFailureTime + o.resetTimeoutMs);
    match e
    case Ask(now) =>
    case Success(now) =>
      LogSuccess(t.log, t.s.lastFailureTime, now);
      OneMoreSuccess(t.log, Cooled(o, t.s, now).consecutiveSuccesses, t.s.lastFailureTime + o.resetTimeoutMs, now);
      if t.s.state == Closed {
        MaxSuffixStep(t.sinceClose, t.s.failureCount, true);
        GrowsNoTrip(o, t.sinceClose, t.s.failureCount, true);
      } else if t'.s.state == Closed {
        EmptyMax();
        NothingTrips(o);
      }
    case Failure(now) =>
      LogFailure(t.log, now);
      if t.s.state == Closed {
        MaxSuffixStep(t.sinceClose, t.s.failureCount, false);
        GrowsNoTrip(o, t.sinceClose, t.s.failureCount, false);
      }
  }

  lemma NoSuccessesYet(log: seq<Outcome>, from: int)
    ensures EndsInSuccesses(log, 0, from)
  {
  }

  lemma OneMoreSuccess(log: seq<Outcome>, n: int, from: int, now: int)
    ensures EndsInSuccesses(log, n, from) && now >= from ==> EndsInSuccesses(log + [Outcome(true, now)], n + 1, from)
  {
  }

  lemma NothingTrips(o: Options)
    ensures NoEarlierTrip(o, [])
  {
  }

  lemma EmptyMax()
    ensures IsMaxSuffix([], 0)
  {
    var h: seq<bool> := [];
    assert Score(h[0..]) == 0;
  }

  lemma GrowsNoTrip(o: Options, h: seq<bool>, m: int, x: bool)
    requires NoEarlierTrip(o, h) && IsMaxSuffix(h, m) && m < Threshold(o)
    ensures NoEarlierTrip(o, h + [x])
  {
    hide IsMaxSuffix;
    forall j, m' | 0 <= j < |h + [x]| && IsMaxSuffix((h + [x])[..j], m') ensures m' < Threshold(o) {
      assert (h + [x])[..j] == h[..j];
      if j == |h| {
        assert h[..j] == h;
        MaxSuffixUnique(h, m, m');
      }
    }
  }

  lemma LogSuccess(log: seq<Outcome>, at: int, now: int)
    ensures LastFailureIs(log, at) ==> LastFailureIs(log + [Outcome(true, now)], at)
  {
    if LastFailureIs(log, at) {
      var i :| 0 <= i < |log| && LastFailureAt(log, at, i);
      assert LastFailureAt(log + [Outcome(true, now)], at, i);
    }
  }

  lemma LogFailure(log: seq<Outcome>, now: int)
    ensures LastFailureIs(log + [Outcome(false, now)], now)
  {
    assert LastFailureAt(log + [Outcome(false, now)], now, |log|);
  }

  function LastTime(events: seq<Event>, from: int): int {
    if events == [] then from else events[|events| - 1].now
  }

  /** The trace of a breaker since it was created. */
  function TraceOf(o: Options, events: seq<Event>): Trace {
    Run(o, Trace(INITIAL, [], []), events)
  }

  lemma {:induction false} RunKeeps(o: Options, t: Trace, clock: int, events: seq<Event>)
    requires Inv(o, t, clock) && Clocked(events, clock)
    ensures Inv(o, Run(o, t, events), LastTime(events, clock))
    decreases |events|
  {
    hide Inv, Next;
    if events != [] {
      NextKeeps(o, t, clock, events[0]);
      RunKeeps(o, Next(o, t, events[0]), events[0].now, events[1..]);
    }
  }

  /** A breaker as it was created, at any time. */
  lemma InitialInv(o: Options, clock: int)
    ensures Inv(o, Trace(INITIAL, [], []), clock)
  {
    EmptyMax();
  }

  /** While the breaker is closed its count is the largest suffix score of the outcomes since it last closed and
      below the threshold; it is tripped exactly from the outcome on at which that score first reaches it. */
  lemma CountIsMaxSuffix(o: Options, events: seq<Event>, from: int)
    requires Clocked(events, from)
    ensures var t := TraceOf(o, events);
      && (t.s.state == Closed ==> IsMaxSuffix(t.sinceClose, t.s.failureCount))
      && (t.s.state == Closed <==> forall k :: 0 <= k <= |t.sinceClose| ==> Score(t.sinceClose[k..]) < Threshold(o))
      && NoEarlierTrip(o, t.sinceClose)
  {
    InitialInv(o, from);
    RunKeeps(o, Trace(INITIAL, [], []), from, events);
    var t := Run(o, Trace(INITIAL, [], []), events);
    hide Score, Run, IsMaxSuffix, NoEarlierTrip;
    MaxDecides(t.sinceClose, if t.s.state == Closed then t.s.failureCount else Threshold(o), Threshold(o));
  }

  /** Whether some suffix reaches `n` can be read off the maximum. */
  lemma MaxDecides(h: seq<bool>, m: int, n: int)
    requires IsMaxSuffix(h, m)
    ensures m < n <==> forall k :: 0 <= k <= |h| ==> Score(h[k..]) < n
  {
    hide Score;
  }

  /** After any run, an action may start at `now` exactly when the breaker is closed or the cooldown since the last
      recorded failure is over. */
  lemma StartsOnlyAfterCooldown(o: Options, events: seq<Event>, from: int, now: int)
    requires Clocked(events, from) && LastTime(events, from) <= now
    ensures var t := TraceOf(o, events);
      && (Cooled(o, t.s, now).state != Open <==> t.s.state == Closed || now >= t.s.lastFailureTime + o.resetTimeoutMs)
      && (t.s.state != Closed ==> LastFailureIs(t.log, t.s.lastFailureTime))
  {
    InitialInv(o, from);
    RunKeeps(o, Trace(INITIAL, [], []), from, events);
    hide Run, LastFailureIs;
  }

  // ----- Exactly when the breaker closes again -----

  /** Successes at the end of the log that were recorded at `from` or later. */
  function LateSuccesses(log: seq<Outcome>, from: int): nat {
    if log == [] || !log[|log| - 1].ok || log[|log| - 1].at < from then 0
    else 1 + LateSuccesses(log[..|log| - 1], from)
  }

  lemma {:induction false} LateSuccessesEnd(log: seq<Outcome>, from: int, n: nat)
    ensures n <= LateSuccesses(log, from) <==> EndsInSuccesses(log, n, from)
  {
    if n > 0 && log != [] && log[|log| - 1].ok && log[|log| - 1].at >= from {
      var front := log[..|log| - 1];
      LateSuccessesEnd(front, from, n - 1);
      if EndsInSuccesses(front, n - 1, from) {
        assert forall i :: |front| - (n - 1) <= i < |front| ==> log[i] == front[i];
      }
      if EndsInSuccesses(log, n, from) {
        assert forall i :: |front| - (n - 1) <= i < |front| ==> front[i] == log[i];
      }
    }
  }

  lemma LateSuccessesSnoc(log: seq<Outcome>, x: Outcome, from: int)
    ensures LateSuccesses(log + [x], from) == if x.ok && x.at >= from then 1 + LateSuccesses(log, from) else 0
  {
    assert (log + [x])[..|log|] == log;
  }

  /** A threshold below one closes on the first success, as one does. */
  function Needed(o: Options): nat {
    if o.halfOpenSuccessThreshold > 1 then o.halfOpenSuccessThreshold else 1
  }

  /** The probes are counted exactly, none while closed, and a tripped breaker shows the full failure count. */
  ghost predicate Probing(o: Options, t: Trace) {
    && (t.s.state == Closed ==> t.s.consecutiveSuccesses == 0)
    && (t.s.state != Closed ==>
          && LateSuccesses(t.log, t.s.lastFailureTime + o.resetTimeoutMs)
             == (if t.s.state == HalfOpen then t.s.consecutiveSuccesses else 0)
          && LateSuccesses(t.log, t.s.lastFailureTime + o.resetTimeoutMs) < Needed(o)
          && (o.failureThreshold >= 1 ==> t.s.failureCount == o.failureThreshold))
  }

  lemma NextKeepsProbing(o: Options, t: Trace, clock: int, e: Event)
    requires Inv(o, t, clock) && Probing(o, t) && clock <= e.now
    ensures Probing(o, Next(o, t, e))
  {
    hide IsMaxSuffix, NoEarlierTrip, LastFailureIs, EndsInSuccesses, LateSuccesses;
    match e
    case Ask(now) =>
    case Success(now) => LateSuccessesSnoc(t.log, Outcome(true, now), t.s.lastFailureTime + o.resetTimeoutMs);
    case Failure(now) => LateSuccessesSnoc(t.log, Outcome(false, now), now + o.resetTimeoutMs);
  }

  lemma {:induction false} RunKeepsProbing(o: Options, t: Trace, clock: int, events: seq<Event>)
    requires Inv(o, t, clock) && Probing(o, t) && Clocked(events, clock)
    ensures Probing(o, Run(o, t, events))
    decreases |events|
  {
    hide Inv, Next, Probing;
    if events != [] {
      NextKeeps(o, t, clock, events[0]);
      NextKeepsProbing(o, t, clock, events[0]);
      RunKeepsProbing(o, Next(o, t, events[0]), events[0].now, events[1..]);
    }
  }

  /** One step from a breaker whose probes are counted. */
  lemma StepCloses(o: Options, t: Trace, clock: int, e: Event)
    requires Inv(o, t, clock) && Probing(o, t) && clock <= e.now && t.s.state != Closed
    ensures var t', late := Next(o, t, e), t.s.lastFailureTime + o.resetTimeoutMs;
      && (t'.s.state == Closed <==> e.Success? && Needed(o) <= LateSuccesses(t'.log, late))
      && (t'.s.state == Closed ==> t'.s.failureCount == 0 && t'.s.consecutiveSuccesses == 0)
      && (e.Failure? ==> t'.s.state == Open)
      && (e.Failure? && t.s.state == HalfOpen ==> t'.s.failureCount == o.failureThreshold)
  {
    hide EndsInSuccesses, LastFailureIs, IsMaxSuffix, NoEarlierTrip, LateSuccesses;
    LateSuccessesSnoc(t.log, Outcome(true, e.now), t.s.lastFailureTime + o.resetTimeoutMs);
  }

  /** In any run, a breaker that is not closed closes exactly with the success that completes the required number, at
      least one, of successes since the cooldown after its last failure was over, none of them followed by a failure;
      it closes with a clean count.  A failure opens it again, and a tripped breaker shows the full failure count. */
  lemma ClosesAfterSuccesses(o: Options, events: seq<Event>, from: int, e: Event)
    requires Clocked(events, from) && LastTime(events, from) <= e.now
    requires TraceOf(o, events).s.state != Closed
    ensures var t, t' := TraceOf(o, events), Next(o, TraceOf(o, events), e);
      var n := if o.halfOpenSuccessThreshold > 1 then o.halfOpenSuccessThreshold else 1;
      && LastFailureIs(t.log, t.s.lastFailureTime)
      && !EndsInSuccesses(t.log, n, t.s.lastFailureTime + o.resetTimeoutMs)
      && (t'.s.state == Closed <==>
            e.Success? && EndsInSuccesses(t'.log, n, t.s.lastFailureTime + o.resetTimeoutMs))
      && (t'.s.state == Closed ==> t'.s.failureCount == 0 && t'.s.consecutiveSuccesses == 0)
      && (e.Failure? ==> t'.s.state == Open)
      && (e.Failure? && t.s.state == HalfOpen ==> t'.s.failureCount == o.failureThreshold)
      && (o.failureThreshold >= 1 ==> t.s.failureCount == o.failureThreshold)
  {
    hide *;
    var t := TraceOf(o, events);
    RunIsProbing(o, events, from);
    ProbingFacts(o, t, LastTime(events, from));
    StepCloses(o, t, LastTime(events, from), e);
    LateSuccessesEnd(t.log, t.s.lastFailureTime + o.resetTimeoutMs, Needed(o));
    LateSuccessesEnd(Next(o, t, e).log, t.s.lastFailureTime + o.resetTimeoutMs, Needed(o));
  }

  lemma RunIsProbing(o: Options, events: seq<Event>, from: int)
    requires Clocked(events, from)
    ensures Inv(o, TraceOf(o, events), LastTime(events, from)) && Probing(o, TraceOf(o, events))
  {
    hide Inv, Run;
    InitialInv(o, from);
    RunKeeps(o, Trace(INITIAL, [], []), from, events);
    RunKeepsProbing(o, Trace(INITIAL, [], []), from, events);
  }

  lemma ProbingFacts(o: Options, t: Trace, clock: int)
    requires Inv(o, t, clock) && Probing(o, t) && t.s.state != Closed
    ensures LastFailureIs(t.log, t.s.lastFailureTime)
    ensures LateSuccesses(t.log, t.s.lastFailureTime + o.resetTimeoutMs) < Needed(o)
    ensures Needed(o) == if o.halfOpenSuccessThreshold > 1 then o.halfOpenSuccessThreshold else 1
    ensures o.failureThreshold >= 1 ==> t.s.failureCount == o.failureThreshold
  {
    hide EndsInSuccesses, LastFailureIs, IsMaxSuffix, NoEarlierTrip, LateSuccesses;
  }
}
