/** Tiered rate limiting: one limiter for everything, one per peer and one per skill, created on first use. */
module GranularRateLimiting {
  import opened Collections
  import opened RateLimiting

  /** Names a limiter. */
  datatype Key = Global | Peer(peerId: string) | Skill(skillId: string)

  datatype Options = Options(
    global: Config,
    peerDefaults: Config,
    skillDefaults: Config,
    peerOverrides: map<string, Config>,
    skillOverrides: map<string, Config>)

  function ConfigOf(o: Options, k: Key): Config {
    match k
    case Global => o.global
    case Peer(p) => if p in o.peerOverrides then o.peerOverrides[p] else o.peerDefaults
    case Skill(s) => if s in o.skillOverrides then o.skillOverrides[s] else o.skillDefaults
  }

  ghost predicate SensibleOptions(o: Options) {
    forall k :: Sensible(ConfigOf(o, k))
  }

  /** An absent peer or skill is "". */
  datatype Request = Request(tokens: nat, peerId: string, skillId: string)

  /** The limiters a request has to pass, in order. */
  function Consulted(r: Request): (keys: seq<Key>)
    ensures NoDup(keys)
  {
    [Global] + (if r.peerId != "" then [Peer(r.peerId)] else []) + (if r.skillId != "" then [Skill(r.skillId)] else [])
  }

  type Limiters = map<Key, State>

  /** The state of a limiter, which is created when it is first needed. */
  function StateOf(o: Options, s: Limiters, k: Key, now: int): State {
    if k in s then s[k] else Created(ConfigOf(o, k), now)
  }

  predicate Passes(o: Options, s: Limiters, k: Key, now: int, n: nat) {
    Admits(ConfigOf(o, k), Looked(ConfigOf(o, k), StateOf(o, s, k, now), now), n)
  }

  function Charge(o: Options, s: Limiters, k: Key, now: int, n: nat): Limiters {
    s[k := AfterConsume(ConfigOf(o, k), StateOf(o, s, k, now), now, n)]
  }

  /** Consults the limiters one by one; the first that refuses ends it. */
  function Consult(o: Options, s: Limiters, keys: seq<Key>, now: int, n: nat): (Limiters, Option<Key>)
    decreases |keys|
  {
    if keys == [] then (s, None)
    else if Passes(o, s, keys[0], now, n) then Consult(o, Charge(o, s, keys[0], now, n), keys[1..], now, n)
    else (Charge(o, s, keys[0], now, n), Some(keys[0]))
  }

  class GranularRateLimiter {
    const options: Options
    const globalLimiter: RateLimiter
    var peerLimiters: map<string, RateLimiter>
    var skillLimiters: map<string, RateLimiter>

    constructor (options: Options, now: int)
      ensures Valid() && this.options == options
      ensures View() == map[Global := Created(options.global, now)]
      ensures forall l :: l in Repr() ==> fresh(l)
    {
      this.options := options;
      globalLimiter := new RateLimiter(options.global, now);
      peerLimiters, skillLimiters := map[], map[];
      new;
      hide Valid, Known, Repr, View, RateLimiter.View;
      OnlyGlobal();
    }

    /** A new limiter has nothing but the global one. */
    lemma OnlyGlobal()
      requires peerLimiters == map[] && skillLimiters == map[] && globalLimiter.config == options.global
      ensures Known() == {Global} && Repr() == {globalLimiter} && Valid()
      ensures View() == map[Global := globalLimiter.View()]
    {
      hide RateLimiter.View;
      assert Known() == {Global};
      assert Limiter(Global) == globalLimiter;
    }

    ghost function Known(): set<Key>
      reads this
    {
      {Global} + (set p | p in peerLimiters :: Peer(p)) + (set k | k in skillLimiters :: Skill(k))
    }

    ghost function Limiter(k: Key): RateLimiter
      requires k in Known()
      reads this
    {
      match k
      case Global => globalLimiter
      case Peer(p) => peerLimiters[p]
      case Skill(s) => skillLimiters[s]
    }

    ghost function Repr(): set<RateLimiter>
      reads this
    {
      set k | k in Known() :: Limiter(k)
    }

    /** Different keys never share a limiter. */
    ghost predicate Valid()
      reads this
    {
      && (forall j, k :: j in Known() && k in Known() && j != k ==> Limiter(j) != Limiter(k))
      && (forall k :: k in Known() ==> Limiter(k).config == ConfigOf(options, k))
    }

    ghost function View(): Limiters
      reads this, Repr()
    {
      map k | k in Known() :: Limiter(k).View()
    }

    method GetPeerLimiter(peerId: string, now: int) returns (limiter: RateLimiter)
      requires Valid()
      modifies this
      ensures Valid() && Peer(peerId) in Known() && limiter == Limiter(Peer(peerId))
      ensures View() == old(View())[Peer(peerId) := StateOf(options, old(View()), Peer(peerId), now)]
      ensures Repr() == old(Repr()) + {limiter} && (limiter in old(Repr()) || fresh(limiter))
    {
      hide Valid, RateLimiter.View;
      if peerId in peerLimiters {
        limiter := peerLimiters[peerId];
        Known1(Peer(peerId));
      } else {
        var config := if peerId in options.peerOverrides then options.peerOverrides[peerId] else options.peerDefaults;
        limiter := new RateLimiter(config, now);
        peerLimiters := peerLimiters[peerId := limiter];
        Registered(Peer(peerId), limiter);
      }
    }

    method GetSkillLimiter(skillId: string, now: int) returns (limiter: RateLimiter)
      requires Valid()
      modifies this
      ensures Valid() && Skill(skillId) in Known() && limiter == Limiter(Skill(skillId))
      ensures View() == old(View())[Skill(skillId) := StateOf(options, old(View()), Skill(skillId), now)]
      ensures Repr() == old(Repr()) + {limiter} && (limiter in old(Repr()) || fresh(limiter))
    {
      hide Valid, RateLimiter.View;
      if skillId in skillLimiters {
        limiter := skillLimiters[skillId];
        Known1(Skill(skillId));
      } else {
        var config :=
          if skillId in options.skillOverrides then options.skillOverrides[skillId] else options.skillDefaults;
        limiter := new RateLimiter(config, now);
        skillLimiters := skillLimiters[skillId := limiter];
        Registered(Skill(skillId), limiter);
      }
    }

    lemma Known1(k: Key)
      requires k in Known()
      ensures Limiter(k) in Repr() && Repr() == Repr() + {Limiter(k)}
      ensures k in View() && View()[k] == Limiter(k).View() && View() == View()[k := View()[k]]
    {
    }

    /** A new limiter under a new key joins the others and changes none of them. */
    twostate lemma Registered(k: Key, new l: RateLimiter)
      requires old(Valid()) && k !in old(Known())
      requires Known() == old(Known()) + {k} && Limiter(k) == l && l.config == ConfigOf(options, k)
      requires forall j :: j in old(Known()) ==> Limiter(j) == old(Limiter(j)) && l != Limiter(j)
      requires forall j :: j in old(Known()) ==> Limiter(j).View() == old(Limiter(j).View())
      ensures Valid() && Repr() == old(Repr()) + {l}
      ensures View() == old(View())[k := l.View()]
    {
      hide Known, Limiter;
    }

    /** Only one limiter worked. */
    twostate lemma OneLimiterChanged(k: Key)
      requires old(Valid()) && peerLimiters == old(peerLimiters) && skillLimiters == old(skillLimiters)
      requires k in Known()
      requires forall l: RateLimiter :: l in Repr() && l != Limiter(k) ==> l.View() == old(l.View())
      ensures Valid() && View() == old(View())[k := Limiter(k).View()]
    {
      forall j | j in Known() && j != k ensures Limiter(j).View() == old(Limiter(j).View()) {
        assert j in old(Known()) && k in old(Known());
        assert old(Limiter(j)) != old(Limiter(k)) && Limiter(j) == old(Limiter(j)) && Limiter(k) == old(Limiter(k));
        assert Limiter(j) in Repr();
      }
    }

    /** Charges the limiter of one key. */
    method ConsumeAt(ghost k: Key, limiter: RateLimiter, now: int, n: nat) returns (allowed: bool)
      requires Valid() && k in Known() && limiter == Limiter(k)
      modifies limiter
      ensures Valid() && Known() == old(Known())
      ensures View() == Charge(options, old(View()), k, now, n)
      ensures allowed <==> Passes(options, old(View()), k, now, n)
    {
      hide View, RateLimiter.View, AfterConsume, Admits, Looked;
      Known1(k);
      assert limiter.config == ConfigOf(options, k);
      allowed := limiter.TryConsume(now, n);
      OneLimiterChanged(k);
    }

    /** None means allowed; otherwise the limiter that refused. */
    method TryConsume(request: Request, now: int) returns (refusedBy: Option<Key>)
      requires Valid()
      modifies this, Repr()
      ensures Valid()
      ensures (View(), refusedBy) == Consult(options, old(View()), Consulted(request), now, request.tokens)
    {
      hide Valid, View, Charge, Passes, RateLimiter.View, Consult, Consulted;
      var tokens := request.tokens;
      ghost var ofSkill := if request.skillId != "" then [Skill(request.skillId)] else [];
      ghost var ofPeer := if request.peerId != "" then [Peer(request.peerId)] else [];
      ConsultedParts(request, ofPeer, ofSkill);
      ConsultNext(options, View(), Global, ofPeer + ofSkill, now, tokens);
      Known1(Global);
      var globalAllowed := ConsumeAt(Global, globalLimiter, now, tokens);
      if !globalAllowed {
        return Some(Global);
      }

      if request.peerId != "" {
        ghost var k, s1 := Peer(request.peerId), View();
        ConsultNext(options, s1, k, ofSkill, now, tokens);
        var peerLimiter := GetPeerLimiter(request.peerId, now);
        var peerAllowed := ConsumeAt(k, peerLimiter, now, tokens);
        CreatedThenCharged(options, s1, k, now, tokens);
        if !peerAllowed {
          return Some(Peer(request.peerId));
        }
      }

      if request.skillId != "" {
        ghost var k, s2 := Skill(request.skillId), View();
        ConsultNext(options, s2, k, [], now, tokens);
        var skillLimiter := GetSkillLimiter(request.skillId, now);
        var skillAllowed := ConsumeAt(k, skillLimiter, now, tokens);
        CreatedThenCharged(options, s2, k, now, tokens);
        if !skillAllowed {
          return Some(Skill(request.skillId));
        }
      }
      ConsultNone(options, View(), now, tokens);
      return None;
    }
  }

  lemma ConsultedParts(r: Request, ofPeer: seq<Key>, ofSkill: seq<Key>)
    requires ofPeer == (if r.peerId != "" then [Peer(r.peerId)] else [])
    requires ofSkill == (if r.skillId != "" then [Skill(r.skillId)] else [])
    ensures Consulted(r) == [Global] + (ofPeer + ofSkill)
    ensures ofPeer == [] ==> ofPeer + ofSkill == ofSkill
    ensures forall k: Key :: [k] + [] == [k]
  {
  }

  lemma ConsultNext(o: Options, s: Limiters, k: Key, rest: seq<Key>, now: int, n: nat)
    ensures Consult(o, s, [k] + rest, now, n) ==
      if Passes(o, s, k, now, n) then Consult(o, Charge(o, s, k, now, n), rest, now, n)
      else (Charge(o, s, k, now, n), Some(k))
  {
    hide Passes, Charge;
    assert ([k] + rest)[1..] == rest;
  }

  lemma ConsultNone(o: Options, s: Limiters, now: int, n: nat)
    ensures Consult(o, s, [], now, n) == (s, None)
  {
  }

  lemma CreatedThenCharged(o: Options, s: Limiters, k: Key, now: int, n: nat)
    ensures var s' := s[k := StateOf(o, s, k, now)];
      Charge(o, s', k, now, n) == Charge(o, s, k, now, n) && (Passes(o, s', k, now, n) <==> Passes(o, s, k, now, n))
  {
  }

  // ----- One request -----

  /** A request is allowed exactly when every limiter it consults would admit it. */
  lemma {:induction false} AllowedIffAllPass(o: Options, s: Limiters, keys: seq<Key>, now: int, n: nat)
    requires NoDup(keys)
    ensures Consult(o, s, keys, now, n).1.None? <==> forall k :: k in keys ==> Passes(o, s, k, now, n)
    decreases |keys|
  {
    if keys != [] && Passes(o, s, keys[0], now, n) {
      var s' := Charge(o, s, keys[0], now, n);
      AllowedIffAllPass(o, s', keys[1..], now, n);
      assert forall k :: k in keys[1..] ==> k != keys[0];
      assert forall k :: k in keys[1..] ==> (Passes(o, s', k, now, n) <==> Passes(o, s, k, now, n));
      assert forall k :: k in keys <==> k == keys[0] || k in keys[1..];
    } else if keys != [] {
      assert keys[0] in keys;
    }
  }

  /** A limiter changes only on requests that consult it: no peer touches another peer's state. */
  lemma {:induction false} OthersUntouched(o: Options, s: Limiters, keys: seq<Key>, now: int, n: nat, k: Key)
    requires k !in keys
    ensures var s' := Consult(o, s, keys, now, n).0;
      (k in s' <==> k in s) && (k in s ==> s'[k] == s[k])
    decreases |keys|
  {
    if keys != [] && Passes(o, s, keys[0], now, n) {
      OthersUntouched(o, Charge(o, s, keys[0], now, n), keys[1..], now, n, k);
    }
  }

  /** A refusal is not free: the limiters consulted before the one that refused keep the charge,
      the ones after it are not consulted at all. */
  lemma {:induction false} RefusalChargesEarlier(o: Options, s: Limiters, keys: seq<Key>, now: int, n: nat)
    returns (i: nat)
    requires NoDup(keys) && Consult(o, s, keys, now, n).1.Some?
    ensures i < |keys| && Consult(o, s, keys, now, n).1 == Some(keys[i])
    ensures !Passes(o, s, keys[i], now, n) && forall j :: 0 <= j < i ==> Passes(o, s, keys[j], now, n)
    ensures var s' := Consult(o, s, keys, now, n).0;
      && (forall j :: 0 <= j <= i ==> keys[j] in s' && s'[keys[j]] == Charge(o, s, keys[j], now, n)[keys[j]])
      && (forall j :: i < j < |keys| ==>
        (keys[j] in s' <==> keys[j] in s) && (keys[j] in s ==> s'[keys[j]] == s[keys[j]]))
    decreases |keys|
  {
    hide AfterConsume;
    if Passes(o, s, keys[0], now, n) {
      var s1 := Charge(o, s, keys[0], now, n);
      var m := RefusalChargesEarlier(o, s1, keys[1..], now, n);
      i := m + 1;
      OthersUntouched(o, s1, keys[1..], now, n, keys[0]);
      assert forall j :: 0 < j < |keys| ==> keys[j] == keys[1..][j - 1];
    } else {
      i := 0;
    }
  }

  // ----- Whole runs -----

  /** Every token each limiter ever admitted. */
  type Histories = map<Key, seq<int>>

  function HistoryOf(h: Histories, k: Key): seq<int> {
    if k in h then h[k] else []
  }

  function Admitting(h: Histories, k: Key, now: int, n: nat): Histories {
    h[k := HistoryOf(h, k) + Stamps(now, n)]
  }

  /** The histories after a request: each limiter that passed it adds its tokens, also when a later one refuses. */
  function Logged(o: Options, s: Limiters, h: Histories, keys: seq<Key>, now: int, n: nat): Histories
    decreases |keys|
  {
    if keys == [] || !Passes(o, s, keys[0], now, n) then h
    else Logged(o, Charge(o, s, keys[0], now, n), Admitting(h, keys[0], now, n), keys[1..], now, n)
  }

  datatype Arrival = Arrival(now: int, request: Request)

  /** `allowed` lists the requests that got through. */
  datatype Traffic = Traffic(limiters: Limiters, history: Histories, allowed: seq<Arrival>)

  function Serve(o: Options, w: Traffic, e: Arrival): Traffic {
    var keys := Consulted(e.request);
    var (s, refusedBy) := Consult(o, w.limiters, keys, e.now, e.request.tokens);
    Traffic(s, Logged(o, w.limiters, w.history, keys, e.now, e.request.tokens),
            if refusedBy.None? then w.allowed + [e] else w.allowed)
  }

  function ServeAll(o: Options, w: Traffic, arrivals: seq<Arrival>): Traffic
    decreases |arrivals|
  {
    if arrivals == [] then w else ServeAll(o, Serve(o, w, arrivals[0]), arrivals[1..])
  }

  ghost predicate Ordered(arrivals: seq<Arrival>, from: int) {
    arrivals != [] ==> from <= arrivals[0].now && Ordered(arrivals[1..], arrivals[0].now)
  }

  /** The request is for everybody, for that peer or for that skill. */
  predicate Concerns(r: Request, k: Key) {
    match k
    case Global => true
    case Peer(p) => p != "" && r.peerId == p
    case Skill(s) => s != "" && r.skillId == s
  }

  lemma ConcernsIsConsulted(r: Request, k: Key)
    ensures Concerns(r, k) <==> k in Consulted(r)
  {
  }

  /** One stamp for each token of an allowed request that concerns `k`. */
  function Carried(allowed: seq<Arrival>, k: Key): seq<int> {
    if allowed == [] then []
    else
      var last := allowed[|allowed| - 1];
      Carried(allowed[..|allowed| - 1], k) +
      if Concerns(last.request, k) then Stamps(last.now, last.request.tokens) else []
  }

  ghost predicate AllGoverned(o: Options, s: Limiters, h: Histories, clock: int) {
    && (forall k :: k in s ==> Governed(ConfigOf(o, k), s[k], HistoryOf(h, k), clock))
    && (forall k :: k !in s ==> HistoryOf(h, k) == [])
  }

  /** What got through is at most what the limiter admitted. */
  ghost predicate Dominated(allowed: seq<Arrival>, h: Histories) {
    forall k, lo, hi :: Count(Carried(allowed, k), lo, hi) <= Count(HistoryOf(h, k), lo, hi)
  }

  lemma GovernedLater(c: Config, s: State, h: seq<int>, clock: int, now: int)
    requires Governed(c, s, h, clock) && clock <= now
    ensures Governed(c, s, h, now)
  {
    hide KeepsWindow, WindowBound, BucketCovers, BucketTight, BucketBound, Credit;
    WaitKeeps(s.minuteTimestamps, h, clock, now, MINUTE);
    WaitKeeps(s.hourTimestamps, h, clock, now, HOUR);
  }

  lemma ChargeGoverned(o: Options, s: Limiters, h: Histories, k: Key, now: int, n: nat)
    requires SensibleOptions(o) && AllGoverned(o, s, h, now)
    ensures AllGoverned(o, Charge(o, s, k, now, n),
                        if Passes(o, s, k, now, n) then Admitting(h, k, now, n) else h, now)
  {
    hide Governed, AfterConsume, Admits, Looked, Stamps;
    var c, st := ConfigOf(o, k), StateOf(o, s, k, now);
    assert Sensible(c);
    CreatedGoverned(c, now);
    EventGoverned(c, st, HistoryOf(h, k), now, Event(now, RateLimiting.Consume(n)));
    var grown := HistoryOf(h, k) + Admitted(c, st, Event(now, RateLimiting.Consume(n)));
    assert HistoryOf(h, k) + [] == HistoryOf(h, k);
    assert HistoryOf(if Passes(o, s, k, now, n) then Admitting(h, k, now, n) else h, k) == grown;
  }

  lemma {:induction false} ConsultGoverned(o: Options, s: Limiters, h: Histories, keys: seq<Key>, now: int, n: nat)
    requires SensibleOptions(o) && AllGoverned(o, s, h, now)
    ensures AllGoverned(o, Consult(o, s, keys, now, n).0, Logged(o, s, h, keys, now, n), now)
    decreases |keys|
  {
    hide AllGoverned, Charge, Passes, Admitting;
    if keys != [] {
      ChargeGoverned(o, s, h, keys[0], now, n);
      if Passes(o, s, keys[0], now, n) {
        ConsultGoverned(o, Charge(o, s, keys[0], now, n), Admitting(h, keys[0], now, n), keys[1..], now, n);
      }
    }
  }

  /** Every limiter's history grows by nothing or by the request's tokens, and by the tokens if it is allowed. */
  lemma {:induction false} LoggedGrows(o: Options, s: Limiters, h: Histories, keys: seq<Key>, now: int, n: nat, k: Key)
    requires NoDup(keys)
    ensures var h' := HistoryOf(Logged(o, s, h, keys, now, n), k);
      && (h' == HistoryOf(h, k) || h' == HistoryOf(h, k) + Stamps(now, n))
      && (k in keys && Consult(o, s, keys, now, n).1.None? ==> h' == HistoryOf(h, k) + Stamps(now, n))
      && (k !in keys ==> h' == HistoryOf(h, k))
    decreases |keys|
  {
    hide Charge, Passes, Stamps;
    if keys != [] && Passes(o, s, keys[0], now, n) {
      assert k in keys <==> k == keys[0] || k in keys[1..];
      LoggedGrows(o, Charge(o, s, keys[0], now, n), Admitting(h, keys[0], now, n), keys[1..], now, n, k);
    }
  }

  lemma ServeKeeps(o: Options, w: Traffic, clock: int, e: Arrival)
    requires SensibleOptions(o) && AllGoverned(o, w.limiters, w.history, clock) && clock <= e.now
    requires Dominated(w.allowed, w.history)
    ensures var w' := Serve(o, w, e);
      AllGoverned(o, w'.limiters, w'.history, e.now) && Dominated(w'.allowed, w'.history)
  {
    hide Governed, Consult, Logged, Consulted, Count, SensibleOptions, Stamps;
    forall k | k in w.limiters ensures Governed(ConfigOf(o, k), w.limiters[k], HistoryOf(w.history, k), e.now) {
      GovernedLater(ConfigOf(o, k), w.limiters[k], HistoryOf(w.history, k), clock, e.now);
    }
    var keys, n := Consulted(e.request), e.request.tokens;
    ConsultGoverned(o, w.limiters, w.history, keys, e.now, n);
    var w' := Serve(o, w, e);
    forall k, lo, hi ensures Count(Carried(w'.allowed, k), lo, hi) <= Count(HistoryOf(w'.history, k), lo, hi) {
      ConcernsIsConsulted(e.request, k);
      LoggedGrows(o, w.limiters, w.history, keys, e.now, n, k);
      CountStamps(HistoryOf(w.history, k), e.now, n, lo, hi);
      CountStamps(Carried(w.allowed, k), e.now, n, lo, hi);
      assert (w.allowed + [e])[..|w.allowed|] == w.allowed;
      assert Carried(w.allowed, k) + [] == Carried(w.allowed, k);
    }
  }

  function LastTime(arrivals: seq<Arrival>, from: int): int {
    if arrivals == [] then from else arrivals[|arrivals| - 1].now
  }

  lemma {:induction false} ServeAllKeeps(o: Options, w: Traffic, clock: int, arrivals: seq<Arrival>)
    requires SensibleOptions(o) && AllGoverned(o, w.limiters, w.history, clock) && Ordered(arrivals, clock)
    requires Dominated(w.allowed, w.history)
    ensures var w' := ServeAll(o, w, arrivals);
      AllGoverned(o, w'.limiters, w'.history, LastTime(arrivals, clock)) && Dominated(w'.allowed, w'.history)
    decreases |arrivals|
  {
    hide AllGoverned, Dominated, Serve, SensibleOptions;
    if arrivals != [] {
      ServeKeeps(o, w, clock, arrivals[0]);
      ServeAllKeeps(o, Serve(o, w, arrivals[0]), arrivals[0].now, arrivals[1..]);
    }
  }

  function Fresh(o: Options, t0: int): Traffic {
    Traffic(map[Global := Created(o.global, t0)], map[], [])
  }

  lemma RunKeeps(o: Options, t0: int, arrivals: seq<Arrival>)
    requires SensibleOptions(o) && Ordered(arrivals, t0)
    ensures var w := ServeAll(o, Fresh(o, t0), arrivals);
      AllGoverned(o, w.limiters, w.history, LastTime(arrivals, t0)) && Dominated(w.allowed, w.history)
  {
    hide ServeAll, Count;
    assert Sensible(ConfigOf(o, Global));
    CreatedGoverned(o.global, t0);
    assert Dominated([], map[]);
    ServeAllKeeps(o, Fresh(o, t0), t0, arrivals);
  }

  /** Both windows and the bucket of a configuration are kept. */
  ghost predicate Obeys(c: Config, sent: seq<int>) {
    && (c.limitPerMinute.Some? ==> forall a :: Usage(sent, a, 60_000) <= c.limitPerMinute.value)
    && (c.limitPerHour.Some? ==> forall a :: Usage(sent, a, 3_600_000) <= c.limitPerHour.value)
    && forall a, b :: a <= b ==>
         Count(sent, a, b) as real <= c.maxTokens + (b - a) as real / 1000.0 * c.refillRatePerSec
  }

  lemma GovernedObeys(c: Config, s: State, h: seq<int>, clock: int)
    requires Governed(c, s, h, clock)
    ensures Obeys(c, h)
  {
    hide KeepsWindow, BucketCovers, BucketTight, Count, Credit, Sorted;
    CreditIs(c);
  }

  lemma LessObeys(c: Config, h: seq<int>, sent: seq<int>)
    requires Obeys(c, h) && forall lo, hi :: Count(sent, lo, hi) <= Count(h, lo, hi)
    ensures Obeys(c, sent)
  {
    hide Count;
    assert forall a, width :: Usage(sent, a, width) <= Usage(h, a, width);
    forall a, b | a <= b
      ensures Count(sent, a, b) as real <= c.maxTokens + (b - a) as real / 1000.0 * c.refillRatePerSec
    {
      assert Count(sent, a, b) <= Count(h, a, b);
    }
  }

  lemma KeyObeys(o: Options, t0: int, arrivals: seq<Arrival>, k: Key)
    requires SensibleOptions(o) && Ordered(arrivals, t0)
    ensures Obeys(ConfigOf(o, k), Carried(ServeAll(o, Fresh(o, t0), arrivals).allowed, k))
  {
    hide Governed, Obeys, Count, ServeAll, Carried;
    var c, w, clock := ConfigOf(o, k), ServeAll(o, Fresh(o, t0), arrivals), LastTime(arrivals, t0);
    RunKeeps(o, t0, arrivals);
    var h := HistoryOf(w.history, k);
    CreatedGoverned(c, clock);
    GovernedObeys(c, if k in w.limiters then w.limiters[k] else Created(c, clock), h, clock);
    LessObeys(c, h, Carried(w.allowed, k));
  }

  /** Over any run, the requests that got through obey in total the global limits, for each peer that peer's and for
      each skill that skill's: its override if there is one, else the default. */
  lemma TiersObeyLimits(o: Options, t0: int, arrivals: seq<Arrival>, p: string, s: string)
    requires SensibleOptions(o) && Ordered(arrivals, t0)
    ensures var allowed := ServeAll(o, Fresh(o, t0), arrivals).allowed;
      && Obeys(o.global, Carried(allowed, Global))
      && Obeys(if p in o.peerOverrides then o.peerOverrides[p] else o.peerDefaults, Carried(allowed, Peer(p)))
      && Obeys(if s in o.skillOverrides then o.skillOverrides[s] else o.skillDefaults, Carried(allowed, Skill(s)))
  {
    hide Obeys, ServeAll, Carried, SensibleOptions;
    KeyObeys(o, t0, arrivals, Global);
    KeyObeys(o, t0, arrivals, Peer(p));
    KeyObeys(o, t0, arrivals, Skill(s));
  }

  // ----- Exactly which requests are allowed -----

  lemma PassesIffHarmless(o: Options, s: Limiters, h: Histories, clock: int, k: Key, now: int, n: nat)
    requires SensibleOptions(o) && AllGoverned(o, s, h, clock) && clock <= now
    ensures Passes(o, s, k, now, n) <==> Harmless(ConfigOf(o, k), HistoryOf(h, k), now, n)
  {
    hide Governed, Harmless, Admits, Looked;
    var c, st := ConfigOf(o, k), StateOf(o, s, k, now);
    assert Sensible(c);
    CreatedGoverned(c, now);
    AdmitsExactlyTheHarmless(c, st, HistoryOf(h, k), if k in s then clock else now, now, n);
  }

  /** The first limiter, in the order given, that would refuse on what it has admitted so far. */
  ghost function FirstRefusal(o: Options, h: Histories, keys: seq<Key>, now: int, n: nat): Option<Key> {
    if keys == [] then None
    else if !Harmless(ConfigOf(o, keys[0]), HistoryOf(h, keys[0]), now, n) then Some(keys[0])
    else FirstRefusal(o, h, keys[1..], now, n)
  }

  lemma {:induction false} RefusalByHistory(o: Options, h: Histories, k: Key, keys: seq<Key>, now: int, n: nat)
    requires k !in keys
    ensures FirstRefusal(o, Admitting(h, k, now, n), keys, now, n) == FirstRefusal(o, h, keys, now, n)
  {
    hide Harmless;
    if keys != [] {
      RefusalByHistory(o, h, k, keys[1..], now, n);
    }
  }

  lemma {:induction false} ConsultRefuses(o: Options, s: Limiters, h: Histories, keys: seq<Key>, now: int, n: nat)
    requires SensibleOptions(o) && AllGoverned(o, s, h, now) && NoDup(keys)
    ensures Consult(o, s, keys, now, n).1 == FirstRefusal(o, h, keys, now, n)
    decreases |keys|
  {
    hide Harmless, AllGoverned, SensibleOptions, Charge, Passes, Admitting;
    if keys != [] {
      PassesIffHarmless(o, s, h, now, keys[0], now, n);
      ChargeGoverned(o, s, h, keys[0], now, n);
      if Passes(o, s, keys[0], now, n) {
        ConsultRefuses(o, Charge(o, s, keys[0], now, n), Admitting(h, keys[0], now, n), keys[1..], now, n);
        assert keys[0] !in keys[1..];
        RefusalByHistory(o, h, keys[0], keys[1..], now, n);
      }
    }
  }

  lemma AllGovernedLater(o: Options, s: Limiters, h: Histories, clock: int, now: int)
    requires AllGoverned(o, s, h, clock) && clock <= now
    ensures AllGoverned(o, s, h, now)
  {
    hide Governed;
    forall k | k in s ensures Governed(ConfigOf(o, k), s[k], HistoryOf(h, k), now) {
      GovernedLater(ConfigOf(o, k), s[k], HistoryOf(h, k), clock, now);
    }
  }

  /** After any run a request is allowed exactly when, on what each has admitted so far, it breaks no bound of the
      global limiter, none of its peer's if it names one, and none of its skill's if it names one; otherwise the answer
      names the first of the three that it would break. */
  lemma RequestIsAllowedIff(o: Options, t0: int, arrivals: seq<Arrival>, now: int, r: Request)
    requires SensibleOptions(o) && Ordered(arrivals, t0) && LastTime(arrivals, t0) <= now
    ensures var w := ServeAll(o, Fresh(o, t0), arrivals);
      var ofPeer := if r.peerId in o.peerOverrides then o.peerOverrides[r.peerId] else o.peerDefaults;
      var ofSkill := if r.skillId in o.skillOverrides then o.skillOverrides[r.skillId] else o.skillDefaults;
      Consult(o, w.limiters, Consulted(r), now, r.tokens).1 ==
      if !Harmless(o.global, HistoryOf(w.history, Global), now, r.tokens) then Some(Global)
      else if r.peerId != "" && !Harmless(ofPeer, HistoryOf(w.history, Peer(r.peerId)), now, r.tokens)
      then Some(Peer(r.peerId))
      else if r.skillId != "" && !Harmless(ofSkill, HistoryOf(w.history, Skill(r.skillId)), now, r.tokens)
      then Some(Skill(r.skillId))
      else None
  {
    hide *;
    var w := ServeAll(o, Fresh(o, t0), arrivals);
    RunKeeps(o, t0, arrivals);
    AllGovernedLater(o, w.limiters, w.history, LastTime(arrivals, t0), now);
    ConsultRefuses(o, w.limiters, w.history, Consulted(r), now, r.tokens);
    RefusalOfConsulted(o, w.history, r, now);
  }

  lemma RefusalOfConsulted(o: Options, h: Histories, r: Request, now: int)
    ensures var ofPeer := if r.peerId in o.peerOverrides then o.peerOverrides[r.peerId] else o.peerDefaults;
      var ofSkill := if r.skillId in o.skillOverrides then o.skillOverrides[r.skillId] else o.skillDefaults;
      FirstRefusal(o, h, Consulted(r), now, r.tokens) ==
      if !Harmless(o.global, HistoryOf(h, Global), now, r.tokens) then Some(Global)
      else if r.peerId != "" && !Harmless(ofPeer, HistoryOf(h, Peer(r.peerId)), now, r.tokens)
      then Some(Peer(r.peerId))
      else if r.skillId != "" && !Harmless(ofSkill, HistoryOf(h, Skill(r.skillId)), now, r.tokens)
      then Some(Skill(r.skillId))
      else None
  {
    hide Harmless, FirstRefusal, HistoryOf;
    var n := r.tokens;
    var ofSkill := if r.skillId != "" then [Skill(r.skillId)] else [];
    var ofPeer := if r.peerId != "" then [Peer(r.peerId)] else [];
    RefusalCons(o, h, Global, ofPeer + ofSkill, now, n);
    RefusalCons(o, h, Peer(r.peerId), ofSkill, now, n);
    RefusalCons(o, h, Skill(r.skillId), [], now, n);
    assert Consulted(r) == [Global] + (ofPeer + ofSkill);
    assert [] + ofSkill == ofSkill && [Skill(r.skillId)] + [] == [Skill(r.skillId)];
  }

  lemma RefusalCons(o: Options, h: Histories, k: Key, rest: seq<Key>, now: int, n: nat)
    ensures FirstRefusal(o, h, [k] + rest, now, n) ==
      if !Harmless(ConfigOf(o, k), HistoryOf(h, k), now, n) then Some(k) else FirstRefusal(o, h, rest, now, n)
    ensures FirstRefusal(o, h, [], now, n) == None
  {
    hide Harmless;
    assert ([k] + rest)[1..] == rest;
  }
}
