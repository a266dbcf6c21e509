/** The token bucket with its two sliding windows, on an explicit clock in milliseconds. */
module RateLimiting {
  import opened Collections

  const MINUTE := 60_000
  const HOUR := 3_600_000

  datatype Config = Config(maxTokens: real, refillRatePerSec: real, limitPerMinute: Option<nat>,
    limitPerHour: Option<nat>)

  /** A configuration that can admit anything at all without running backwards. */
  predicate Sensible(c: Config) {
    c.maxTokens >= 0.0 && c.refillRatePerSec >= 0.0
  }

  datatype State = State(tokens: real, lastRefill: int, minuteTimestamps: seq<int>, hourTimestamps: seq<int>)

  function Created(c: Config, now: int): State {
    State(c.maxTokens, now, [], [])
  }

  /** Tokens earned in `ms` milliseconds. */
  function Credit(c: Config, ms: int): real {
    ms as real / 1000.0 * c.refillRatePerSec
  }

  function Refilled(c: Config, s: State, now: int): State {
    var level := s.tokens + Credit(c, now - s.lastRefill);
    s.(tokens := if level < c.maxTokens then level else c.maxTokens, lastRefill := now)
  }

  function DropBefore(ts: seq<int>, cut: int): seq<int> {
    if ts != [] && ts[0] < cut then DropBefore(ts[1..], cut) else ts
  }

  function Cleaned(s: State, now: int): State {
    s.(minuteTimestamps := DropBefore(s.minuteTimestamps, now - MINUTE),
       hourTimestamps := DropBefore(s.hourTimestamps, now - HOUR))
  }

  predicate Within(limit: Option<nat>, used: nat) {
    limit.Some? ==> used <= limit.value
  }

  predicate Admits(c: Config, s: State, n: nat) {
    && s.tokens >= n as real
    && Within(c.limitPerMinute, |s.minuteTimestamps| + n)
    && Within(c.limitPerHour, |s.hourTimestamps| + n)
  }

  function Stamps(now: int, n: nat): seq<int> {
    seq(n, _ => now)
  }

  function Consumed(s: State, now: int, n: nat): State {
    s.(tokens := s.tokens - n as real,
       minuteTimestamps := s.minuteTimestamps + Stamps(now, n),
       hourTimestamps := s.hourTimestamps + Stamps(now, n))
  }

  function Looked(c: Config, s: State, now: int): State {
    Cleaned(Refilled(c, s, now), now)
  }

  /** The state after `tryConsume(n)` at `now`; it admits exactly when Admits(c, Looked(c, s, now), n). */
  function AfterConsume(c: Config, s: State, now: int, n: nat): State {
    var s' := Looked(c, s, now);
    if Admits(c, s', n) then Consumed(s', now, n) else s'
  }

  class RateLimiter {
    var tokens: real
    var lastRefill: int
    var minuteTimestamps: seq<int>
    var hourTimestamps: seq<int>
    const config: Config

    constructor (config: Config, now: int)
      ensures this.config == config && View() == Created(config, now)
    {
      this.config := config;
      tokens, lastRefill := config.maxTokens, now;
      minuteTimestamps, hourTimestamps := [], [];
    }

    function View(): State
      reads this
    {
      State(tokens, lastRefill, minuteTimestamps, hourTimestamps)
    }

    method Refill(now: int)
      modifies this
      ensures View() == Refilled(config, old(View()), now)
    {
      var elapsedSec := (now - lastRefill) as real / 1000.0;
      var level := tokens + elapsedSec * config.refillRatePerSec;
      tokens := if level < config.maxTokens then level else config.maxTokens;
      lastRefill := now;
    }

    method CleanWindows(now: int)
      modifies this
      ensures View() == Cleaned(old(View()), now)
    {
      var minuteWindow, hourWindow := now - 60_000, now - 3_600_000;
      while |minuteTimestamps| > 0 && minuteTimestamps[0] < minuteWindow
        invariant DropBefore(minuteTimestamps, minuteWindow) == DropBefore(old(minuteTimestamps), minuteWindow)
        invariant tokens == old(tokens) && lastRefill == old(lastRefill) && hourTimestamps == old(hourTimestamps)
        decreases |minuteTimestamps|
      {
        minuteTimestamps := minuteTimestamps[1..];
      }
      while |hourTimestamps| > 0 && hourTimestamps[0] < hourWindow
        invariant DropBefore(hourTimestamps, hourWindow) == DropBefore(old(hourTimestamps), hourWindow)
        invariant tokens == old(tokens) && lastRefill == old(lastRefill)
        invariant minuteTimestamps == DropBefore(old(minuteTimestamps), minuteWindow)
        decreases |hourTimestamps|
      {
        hourTimestamps := hourTimestamps[1..];
      }
    }

    method TryConsume(now: int, n: nat) returns (allowed: bool)
      modifies this
      ensures View() == AfterConsume(config, old(View()), now, n)
      ensures allowed <==> Admits(config, Looked(config, old(View()), now), n)
    {
      hide Credit, DropBefore;
      Refill(now);
      CleanWindows(now);
      if tokens < n as real {
        return false;
      }
      if config.limitPerMinute.Some? && |minuteTimestamps| + n > config.limitPerMinute.value {
        return false;
      }
      if config.limitPerHour.Some? && |hourTimestamps| + n > config.limitPerHour.value {
        return false;
      }
      label Checked:
      tokens := tokens - n as real;
      for i := 0 to n
        invariant minuteTimestamps == old@Checked(minuteTimestamps) + Stamps(now, i)
        invariant hourTimestamps == old@Checked(hourTimestamps) + Stamps(now, i)
        invariant tokens == old@Checked(tokens) - n as real && lastRefill == old@Checked(lastRefill)
      {
        assert Stamps(now, i + 1) == Stamps(now, i) + [now];
        minuteTimestamps := minuteTimestamps + [now];
        hourTimestamps := hourTimestamps + [now];
      }
      return true;
    }

    method GetAvailableTokens(now: int) returns (r: int)
      modifies this
      ensures View() == Refilled(config, old(View()), now)
      ensures r as real <= tokens < (r + 1) as real
    {
      Refill(now);
      r := tokens.Floor;
    }

    method GetMinuteUsage(now: int) returns (r: nat)
      modifies this
      ensures View() == Cleaned(old(View()), now) && r == |minuteTimestamps|
    {
      CleanWindows(now);
      r := |minuteTimestamps|;
    }

    method GetHourUsage(now: int) returns (r: nat)
      modifies this
      ensures View() == Cleaned(old(View()), now) && r == |hourTimestamps|
    {
      CleanWindows(now);
      r := |hourTimestamps|;
    }
  }

  // ----- Histories -----

  /** How many of the stamps lie in the closed window [lo, hi]. */
  function Count(h: seq<int>, lo: int, hi: int): (k: nat)
    ensures k <= |h|
  {
    if h == [] then 0
    else Count(h[..|h| - 1], lo, hi) + if lo <= h[|h| - 1] <= hi then 1 else 0
  }

  /** Tokens admitted in the closed window of the given width that starts at `a`. */
  function Usage(h: seq<int>, a: int, width: nat): nat {
    Count(h, a, a + width)
  }

  lemma {:induction false} CountConcat(a: seq<int>, b: seq<int>, lo: int, hi: int)
    ensures Count(a + b, lo, hi) == Count(a, lo, hi) + Count(b, lo, hi)
  {
    if b == [] {
      assert a + b == a;
    } else {
      assert (a + b)[..|a + b| - 1] == a + b[..|b| - 1];
      CountConcat(a, b[..|b| - 1], lo, hi);
    }
  }

  lemma {:induction false} CountOutside(h: seq<int>, lo: int, hi: int)
    requires forall i :: 0 <= i < |h| ==> h[i] < lo || h[i] > hi
    ensures Count(h, lo, hi) == 0
  {
    if h != [] {
      CountOutside(h[..|h| - 1], lo, hi);
    }
  }

  lemma {:induction false} CountInside(h: seq<int>, lo: int, hi: int)
    requires forall i :: 0 <= i < |h| ==> lo <= h[i] <= hi
    ensures Count(h, lo, hi) == |h|
  {
    if h != [] {
      CountInside(h[..|h| - 1], lo, hi);
    }
  }

  lemma CountStamps(h: seq<int>, now: int, n: nat, lo: int, hi: int)
    ensures Count(h + Stamps(now, n), lo, hi) == Count(h, lo, hi) + if lo <= now <= hi then n else 0
  {
    CountConcat(h, Stamps(now, n), lo, hi);
    if lo <= now <= hi {
      CountInside(Stamps(now, n), lo, hi);
    } else {
      CountOutside(Stamps(now, n), lo, hi);
    }
  }

  /** In a sorted history nothing after `hi` means the window may as well end anywhere later. */
  lemma {:induction false} CountUpTo(h: seq<int>, lo: int, hi: int, hi': int)
    requires hi <= hi' && forall i :: 0 <= i < |h| ==> h[i] <= hi
    ensures Count(h, lo, hi) == Count(h, lo, hi')
  {
    if h != [] {
      CountUpTo(h[..|h| - 1], lo, hi, hi');
    }
  }

  // ----- Sliding windows -----

  /** `kept` is the history without a part that has left every window ending at `clock` or later. */
  ghost predicate KeepsWindow(kept: seq<int>, h: seq<int>, clock: int, width: nat) {
    exists k :: CutAt(kept, h, clock, width, k)
  }

  ghost predicate CutAt(kept: seq<int>, h: seq<int>, clock: int, width: nat, k: int) {
    && 0 <= k <= |h| && kept == h[k..]
    && forall i :: 0 <= i < k ==> h[i] < clock - width
  }

  ghost predicate Sorted(h: seq<int>, clock: int) {
    && (forall i, j :: 0 <= i <= j < |h| ==> h[i] <= h[j])
    && forall i :: 0 <= i < |h| ==> h[i] <= clock
  }

  ghost predicate WindowBound(limit: Option<nat>, h: seq<int>, width: nat) {
    limit.Some? ==> forall a :: Usage(h, a, width) <= limit.value
  }

  lemma {:induction false} DropIsSuffix(ts: seq<int>, cut: int) returns (k: nat)
    ensures k <= |ts| && DropBefore(ts, cut) == ts[k..]
    ensures forall i :: 0 <= i < k ==> ts[i] < cut
    ensures k < |ts| ==> ts[k] >= cut
  {
    if ts != [] && ts[0] < cut {
      var j := DropIsSuffix(ts[1..], cut);
      k := j + 1;
    } else {
      k := 0;
    }
  }

  lemma SortedFrom(h: seq<int>, clock: int, p: nat, lo: int)
    requires Sorted(h, clock) && p <= |h| && (p < |h| ==> lo <= h[p])
    ensures forall i :: 0 <= i < |h[p..]| ==> lo <= h[p..][i] <= clock
  {
  }

  /** Dropping the first p stamps, all too old, leaves exactly the stamps of the window that ends now. */
  lemma CutCounts(h: seq<int>, clock: int, now: int, width: nat, p: nat)
    requires Sorted(h, clock) && clock <= now && p <= |h|
    requires forall i :: 0 <= i < p ==> h[i] < now - width
    requires p < |h| ==> now - width <= h[p]
    ensures |h[p..]| == Count(h, now - width, now)
  {
    hide Sorted, Count;
    assert h == h[..p] + h[p..];
    CountConcat(h[..p], h[p..], now - width, now);
    CountOutside(h[..p], now - width, now);
    SortedFrom(h, clock, p, now - width);
    CountInside(h[p..], now - width, now);
  }

  lemma CleanKeeps(kept: seq<int>, h: seq<int>, clock: int, now: int, width: nat)
    requires KeepsWindow(kept, h, clock, width) && Sorted(h, clock) && clock <= now
    ensures KeepsWindow(DropBefore(kept, now - width), h, now, width)
    ensures |DropBefore(kept, now - width)| == Count(h, now - width, now)
  {
    hide Sorted, Count, DropBefore;
    var k :| CutAt(kept, h, clock, width, k);
    var j := DropIsSuffix(kept, now - width);
    var p := k + j;
    assert kept[j..] == h[p..];
    forall i | 0 <= i < p ensures h[i] < now - width {
      if i >= k {
        assert h[i] == kept[i - k];
      }
    }
    if p < |h| {
      assert h[p] == kept[j];
    }
    assert CutAt(kept[j..], h, now, width, p);
    CutCounts(h, clock, now, width, p);
  }

  lemma WaitKeeps(kept: seq<int>, h: seq<int>, clock: int, now: int, width: nat)
    requires KeepsWindow(kept, h, clock, width) && clock <= now
    ensures KeepsWindow(kept, h, now, width)
  {
    var k :| CutAt(kept, h, clock, width, k);
    assert CutAt(kept, h, now, width, k);
  }

  /** Admitting n more tokens when the kept stamps leave room for them breaks no window anywhere. */
  lemma AdmitKeeps(limit: Option<nat>, kept: seq<int>, h: seq<int>, now: int, n: nat, width: nat)
    requires KeepsWindow(kept, h, now, width) && Sorted(h, now) && WindowBound(limit, h, width)
    requires Within(limit, |kept| + n)
    ensures KeepsWindow(kept + Stamps(now, n), h + Stamps(now, n), now, width)
    ensures WindowBound(limit, h + Stamps(now, n), width)
  {
    hide Sorted, Count;
    var h' := h + Stamps(now, n);
    var k :| CutAt(kept, h, now, width, k);
    assert h'[k..] == kept + Stamps(now, n);
    assert CutAt(kept + Stamps(now, n), h', now, width, k);
    if limit.Some? {
      forall a ensures Usage(h', a, width) <= limit.value {
        assert Usage(h, a, width) <= limit.value;
        CountStamps(h, now, n, a, a + width);
        if a <= now <= a + width {
          assert h == h[..k] + kept;
          CountConcat(h[..k], kept, a, a + width);
          CountOutside(h[..k], a, a + width);
        }
      }
    }
  }

  // ----- Token bucket -----

  lemma CreditAdds(c: Config, x: int, y: int)
    ensures Credit(c, x + y) == Credit(c, x) + Credit(c, y)
    ensures Sensible(c) && x >= 0 ==> Credit(c, x) >= 0.0
    ensures Credit(c, 0) == 0.0
  {
    assert (x + y) as real == x as real + y as real;
  }

  /** Tokens admitted since `a`, up to now, plus what is left never exceed a full bucket plus the credit since `a`. */
  ghost predicate BucketCovers(c: Config, s: State, h: seq<int>) {
    && 0.0 <= s.tokens <= c.maxTokens
    && (forall i :: 0 <= i < |h| ==> h[i] <= s.lastRefill)
    && forall a :: a <= s.lastRefill ==>
         Count(h, a, s.lastRefill) as real + s.tokens <= c.maxTokens + Credit(c, s.lastRefill - a)
  }

  /** The level is exactly that, counted from the last moment the bucket was full. */
  ghost predicate BucketTight(c: Config, s: State, h: seq<int>) {
    exists a :: TightAt(c, s, h, a)
  }

  ghost predicate TightAt(c: Config, s: State, h: seq<int>, a: int) {
    a <= s.lastRefill &&
    Count(h, a, s.lastRefill) as real + s.tokens == c.maxTokens + Credit(c, s.lastRefill - a)
  }

  ghost predicate BucketBound(c: Config, h: seq<int>) {
    forall a, b :: a <= b ==> Count(h, a, b) as real <= c.maxTokens + Credit(c, b - a)
  }

  lemma RefillCovers(c: Config, s: State, h: seq<int>, now: int)
    requires Sensible(c) && BucketCovers(c, s, h) && s.lastRefill <= now
    ensures BucketCovers(c, Refilled(c, s, now), h)
  {
    var s' := Refilled(c, s, now);
    hide Credit, Count;
    CreditAdds(c, now - s.lastRefill, 0);
    forall a | a <= now ensures Count(h, a, now) as real + s'.tokens <= c.maxTokens + Credit(c, now - a) {
      if a <= s.lastRefill {
        CreditAdds(c, s.lastRefill - a, now - s.lastRefill);
        CountUpTo(h, a, s.lastRefill, now);
      } else {
        CountOutside(h, a, now);
        CreditAdds(c, now - a, 0);
      }
    }
  }

  lemma RefillTight(c: Config, s: State, h: seq<int>, now: int)
    requires Sensible(c) && BucketCovers(c, s, h) && BucketTight(c, s, h) && s.lastRefill <= now
    ensures BucketTight(c, Refilled(c, s, now), h)
  {
    hide Credit, Count;
    var s' := Refilled(c, s, now);
    var a :| TightAt(c, s, h, a);
    CreditAdds(c, s.lastRefill - a, now - s.lastRefill);
    CreditAdds(c, 0, 0);
    if s'.tokens == s.tokens + Credit(c, now - s.lastRefill) {
      CountUpTo(h, a, s.lastRefill, now);
      assert TightAt(c, s', h, a);
    } else {
      assert s.lastRefill != now;
      CountOutside(h, now, now);
      assert TightAt(c, s', h, now);
    }
  }

  lemma ConsumeCovers(c: Config, s: State, h: seq<int>, n: nat)
    requires Sensible(c) && BucketCovers(c, s, h) && s.tokens >= n as real
    ensures BucketCovers(c, Consumed(s, s.lastRefill, n), h + Stamps(s.lastRefill, n))
  {
    hide Credit;
    var now := s.lastRefill;
    forall a | a <= now
      ensures Count(h + Stamps(now, n), a, now) as real + (s.tokens - n as real) <= c.maxTokens + Credit(c, now - a)
    {
      CountStamps(h, now, n, a, now);
    }
  }

  lemma ConsumeTight(c: Config, s: State, h: seq<int>, n: nat)
    requires BucketTight(c, s, h)
    ensures BucketTight(c, Consumed(s, s.lastRefill, n), h + Stamps(s.lastRefill, n))
  {
    hide Credit;
    var a :| TightAt(c, s, h, a);
    CountStamps(h, s.lastRefill, n, a, s.lastRefill);
    assert TightAt(c, Consumed(s, s.lastRefill, n), h + Stamps(s.lastRefill, n), a);
  }

  lemma ConsumeBounded(c: Config, s: State, h: seq<int>, n: nat)
    requires Sensible(c) && BucketCovers(c, s, h) && s.tokens >= n as real && BucketBound(c, h)
    ensures BucketBound(c, h + Stamps(s.lastRefill, n))
  {
    hide Credit, Count;
    var now, h' := s.lastRefill, h + Stamps(s.lastRefill, n);
    ConsumeCovers(c, s, h, n);
    forall a, b | a <= b ensures Count(h', a, b) as real <= c.maxTokens + Credit(c, b - a) {
      CountStamps(h, now, n, a, b);
      if a <= now <= b {
        CountUpTo(h', a, now, b);
        CreditAdds(c, now - a, b - now);
        CreditAdds(c, b - now, 0);
      }
    }
  }

  // ----- Whole runs -----

  /** What the public methods do to the limiter; the usage queries clean the windows, the level query refills. */
  datatype Op = Consume(n: nat) | Available | CurrentUsage
  datatype Event = Event(now: int, op: Op)

  function Apply(c: Config, s: State, e: Event): State {
    match e.op
    case Consume(n) => AfterConsume(c, s, e.now, n)
    case Available => Refilled(c, s, e.now)
    case CurrentUsage => Cleaned(s, e.now)
  }

  /** One stamp for each token the event admits. */
  function Admitted(c: Config, s: State, e: Event): seq<int> {
    if e.op.Consume? && Admits(c, Looked(c, s, e.now), e.op.n) then Stamps(e.now, e.op.n) else []
  }

  /** The limiter after the events and the history of every token ever admitted. */
  function Run(c: Config, s: State, h: seq<int>, events: seq<Event>): (State, seq<int>)
    decreases |events|
  {
    if events == [] then (s, h)
    else Run(c, Apply(c, s, events[0]), h + Admitted(c, s, events[0]), events[1..])
  }

  ghost predicate Clocked(events: seq<Event>, from: int) {
    events != [] ==> from <= events[0].now && Clocked(events[1..], events[0].now)
  }

  /** The pruned arrays and the level are what the full history says, and no bound was ever broken. */
  ghost predicate Governed(c: Config, s: State, h: seq<int>, clock: int) {
    && Sorted(h, clock) && s.lastRefill <= clock
    && KeepsWindow(s.minuteTimestamps, h, clock, MINUTE) && WindowBound(c.limitPerMinute, h, MINUTE)
    && KeepsWindow(s.hourTimestamps, h, clock, HOUR) && WindowBound(c.limitPerHour, h, HOUR)
    && BucketCovers(c, s, h) && BucketTight(c, s, h) && BucketBound(c, h)
  }

  lemma CreatedGoverned(c: Config, now: int)
    requires Sensible(c)
    ensures Governed(c, Created(c, now), [], now)
  {
    hide Credit;
    var s := Created(c, now);
    assert CutAt([], [], now, MINUTE, 0) && CutAt([], [], now, HOUR, 0);
    CreditAdds(c, 0, 0);
    assert TightAt(c, s, [], now);
    forall x | x >= 0 ensures Credit(c, x) >= 0.0 {
      CreditAdds(c, x, 0);
    }
  }

  lemma RefillGoverned(c: Config, s: State, h: seq<int>, clock: int, now: int)
    requires Sensible(c) && Governed(c, s, h, clock) && clock <= now
    ensures Governed(c, Refilled(c, s, now), h, now)
  {
    hide KeepsWindow, WindowBound, BucketCovers, BucketTight, BucketBound, Credit;
    WaitKeeps(s.minuteTimestamps, h, clock, now, MINUTE);
    WaitKeeps(s.hourTimestamps, h, clock, now, HOUR);
    RefillCovers(c, s, h, now);
    RefillTight(c, s, h, now);
  }

  lemma CoversTokens(c: Config, s: State, s': State, h: seq<int>)
    requires s'.tokens == s.tokens && s'.lastRefill == s.lastRefill
    ensures BucketCovers(c, s, h) ==> BucketCovers(c, s', h)
    ensures BucketTight(c, s, h) ==> BucketTight(c, s', h)
  {
    if a :| TightAt(c, s, h, a) {
      assert TightAt(c, s', h, a);
    }
  }

  lemma CleanGoverned(c: Config, s: State, h: seq<int>, clock: int, now: int)
    requires Governed(c, s, h, clock) && clock <= now
    ensures Governed(c, Cleaned(s, now), h, now)
    ensures |Cleaned(s, now).minuteTimestamps| == Usage(h, now - MINUTE, MINUTE)
    ensures |Cleaned(s, now).hourTimestamps| == Usage(h, now - HOUR, HOUR)
  {
    hide KeepsWindow, WindowBound, BucketBound, BucketCovers, BucketTight, Credit, DropBefore, Count;
    CleanKeeps(s.minuteTimestamps, h, clock, now, MINUTE);
    CleanKeeps(s.hourTimestamps, h, clock, now, HOUR);
    assert Sorted(h, now);
    CoversTokens(c, s, Cleaned(s, now), h);
  }

  lemma ConsumeGoverned(c: Config, s: State, h: seq<int>, now: int, n: nat)
    requires Sensible(c) && Governed(c, s, h, now) && s.lastRefill == now && Admits(c, s, n)
    ensures Governed(c, Consumed(s, now, n), h + Stamps(now, n), now)
  {
    hide KeepsWindow, WindowBound, BucketCovers, BucketTight, BucketBound, Credit;
    AdmitKeeps(c.limitPerMinute, s.minuteTimestamps, h, now, n, MINUTE);
    AdmitKeeps(c.limitPerHour, s.hourTimestamps, h, now, n, HOUR);
    ConsumeCovers(c, s, h, n);
    ConsumeTight(c, s, h, n);
    ConsumeBounded(c, s, h, n);
  }

  lemma EventGoverned(c: Config, s: State, h: seq<int>, clock: int, e: Event)
    requires Sensible(c) && Governed(c, s, h, clock) && clock <= e.now
    ensures Governed(c, Apply(c, s, e), h + Admitted(c, s, e), e.now)
  {
    hide Governed, Admits, Consumed, Cleaned, Refilled, Stamps;
    assert h + [] == h;
    match e.op
    case Available => RefillGoverned(c, s, h, clock, e.now);
    case CurrentUsage => CleanGoverned(c, s, h, clock, e.now);
    case Consume(n) =>
      RefillGoverned(c, s, h, clock, e.now);
      CleanGoverned(c, Refilled(c, s, e.now), h, e.now, e.now);
      assert Looked(c, s, e.now).lastRefill == e.now by { LookedNow(c, s, e.now); }
      if Admits(c, Looked(c, s, e.now), n) {
        ConsumeGoverned(c, Looked(c, s, e.now), h, e.now, n);
      }
  }

  lemma LookedNow(c: Config, s: State, now: int)
    ensures Looked(c, s, now).lastRefill == now
  {
  }

  function LastTime(events: seq<Event>, from: int): int {
    if events == [] then from else events[|events| - 1].now
  }

  lemma {:induction false} RunGoverned(c: Config, s: State, h: seq<int>, clock: int, events: seq<Event>)
    requires Sensible(c) && Governed(c, s, h, clock) && Clocked(events, clock)
    ensures Governed(c, Run(c, s, h, events).0, Run(c, s, h, events).1, LastTime(events, clock))
    decreases |events|
  {
    hide Governed, Apply, Admitted;
    if events != [] {
      EventGoverned(c, s, h, clock, events[0]);
      RunGoverned(c, Apply(c, s, events[0]), h + Admitted(c, s, events[0]), events[0].now, events[1..]);
    }
  }

  /** Over any run with a clock that does not go back, every 60-second and every 3600-second window anywhere in the
      history obeys its limit, every interval obeys the bucket, and the level stays within the bucket. */
  lemma RunObeysLimits(c: Config, t0: int, events: seq<Event>)
    requires Sensible(c) && Clocked(events, t0)
    ensures var (s, h) := Run(c, Created(c, t0), [], events);
      && (c.limitPerMinute.Some? ==> forall a :: Usage(h, a, 60_000) <= c.limitPerMinute.value)
      && (c.limitPerHour.Some? ==> forall a :: Usage(h, a, 3_600_000) <= c.limitPerHour.value)
      && (forall a, b :: a <= b ==>
            Count(h, a, b) as real <= c.maxTokens + (b - a) as real / 1000.0 * c.refillRatePerSec)
      && 0.0 <= s.tokens <= c.maxTokens
  {
    CreatedGoverned(c, t0);
    RunGoverned(c, Created(c, t0), [], t0, events);
    hide Run, Created, KeepsWindow, BucketTight, Count, Credit, Sorted;
    CreditIs(c);
  }

  lemma CreditIs(c: Config)
    ensures forall ms :: Credit(c, ms) == ms as real / 1000.0 * c.refillRatePerSec
  {
  }

  /** n more tokens now would break neither the bucket nor a window. */
  ghost predicate Harmless(c: Config, h: seq<int>, now: int, n: nat) {
    && (forall a :: a <= now ==>
          (Count(h, a, now) + n) as real <= c.maxTokens + (now - a) as real / 1000.0 * c.refillRatePerSec)
    && (c.limitPerMinute.Some? ==> Usage(h, now - 60_000, 60_000) + n <= c.limitPerMinute.value)
    && (c.limitPerHour.Some? ==> Usage(h, now - 3_600_000, 3_600_000) + n <= c.limitPerHour.value)
  }

  /** The limiter refuses only what would break one of its own bounds. */
  lemma AdmitsExactlyTheHarmless(c: Config, s: State, h: seq<int>, clock: int, now: int, n: nat)
    requires Sensible(c) && Governed(c, s, h, clock) && clock <= now
    ensures Admits(c, Looked(c, s, now), n) <==> Harmless(c, h, now, n)
  {
    hide *;
    RefillGoverned(c, s, h, clock, now);
    CleanGoverned(c, Refilled(c, s, now), h, now, now);
    LookedIs(c, s, now);
    LookedNow(c, s, now);
    GovernedBucket(c, Looked(c, s, now), h, now);
    LevelExact(c, Looked(c, s, now), h, now, n);
    AdmitsIff(c, Looked(c, s, now), h, now, n);
  }

  lemma LookedIs(c: Config, s: State, now: int)
    ensures Looked(c, s, now) == Cleaned(Refilled(c, s, now), now)
  {
  }

  lemma GovernedBucket(c: Config, s: State, h: seq<int>, clock: int)
    requires Governed(c, s, h, clock)
    ensures BucketCovers(c, s, h) && BucketTight(c, s, h)
  {
  }

  lemma AdmitsIff(c: Config, s: State, h: seq<int>, now: int, n: nat)
    requires |s.minuteTimestamps| == Usage(h, now - MINUTE, MINUTE)
    requires |s.hourTimestamps| == Usage(h, now - HOUR, HOUR)
    requires s.tokens >= n as real <==>
      forall a :: a <= now ==> (Count(h, a, now) + n) as real <= c.maxTokens + Credit(c, now - a)
    ensures Admits(c, s, n) <==> Harmless(c, h, now, n)
  {
    CreditIs(c);
    hide Count, Credit;
    assert (forall a :: a <= now ==>
      (Count(h, a, now) + n) as real <= c.maxTokens + (now - a) as real / 1000.0 * c.refillRatePerSec) <==>
      s.tokens >= n as real;
  }

  /** So after any run a request is admitted exactly when, on everything admitted so far, it breaks no bound. */
  lemma RunAdmitsExactlyTheHarmless(c: Config, t0: int, events: seq<Event>, now: int, n: nat)
    requires Sensible(c) && Clocked(events, t0) && LastTime(events, t0) <= now
    ensures var (s, h) := Run(c, Created(c, t0), [], events);
      Admits(c, Looked(c, s, now), n) <==> Harmless(c, h, now, n)
  {
    hide *;
    CreatedGoverned(c, t0);
    RunGoverned(c, Created(c, t0), [], t0, events);
    var (s, h) := Run(c, Created(c, t0), [], events);
    AdmitsExactlyTheHarmless(c, s, h, LastTime(events, t0), now, n);
  }

  lemma LevelExact(c: Config, s: State, h: seq<int>, now: int, n: nat)
    requires BucketCovers(c, s, h) && BucketTight(c, s, h) && s.lastRefill == now
    ensures s.tokens >= n as real <==>
      forall a :: a <= now ==> (Count(h, a, now) + n) as real <= c.maxTokens + Credit(c, now - a)
  {
    hide Count, Credit;
    if s.tokens >= n as real {
      forall a | a <= now ensures (Count(h, a, now) + n) as real <= c.maxTokens + Credit(c, now - a) {
        assert Count(h, a, s.lastRefill) as real + s.tokens <= c.maxTokens + Credit(c, s.lastRefill - a);
      }
    } else {
      var a :| TightAt(c, s, h, a);
      assert (Count(h, a, now) + n) as real > c.maxTokens + Credit(c, now - a);
    }
  }
}
