/** The economic gate every opportunity has to pass. */
module EconomicGate {
  import opened Collections
  import opened Rounding

  // ----- Inputs and decisions -----

  datatype Settings = Settings(
    minMargin: real,
    minProfitUsd: real,
    minReputation: real,
    maxConcurrent: int,
    minLeadMs: int,
    skillCosts: map<string, real>)

  /** An opportunity as it is judged; `deadlineMs` is None when the date cannot be read. */
  datatype Opportunity = Opportunity(skills: seq<string>, deadlineMs: Option<int>, payoutUsd: real, payloadLength: nat)

  /** The circumstances: clock, workload and the requester's reputation, 1.0 when there is none on record. */
  datatype Moment = Moment(now: int, workload: int, reputation: real)

  datatype Action = Accept | Reject | CounterOffer(price: int)

  datatype Decision = Decision(action: Action, permissionGranted: bool, cost: int)

  // ----- The grids: costs and profits in 0.0001 USD, prices in 0.001 USD -----

  function CostUsd(units: int): real {
    units as real / 10000.0
  }

  function PriceUsd(units: int): real {
    units as real / 1000.0
  }

  function Round4(x: real): int {
    Nearest((x + EPSILON) * 10000.0)
  }

  // ----- The estimate -----

  function SkillCost(s: Settings, skill: string): real {
    if skill in s.skillCosts then s.skillCosts[skill] else 0.005
  }

  function SkillsCost(s: Settings, skills: seq<string>): real {
    if skills == [] then 0.0
    else SkillsCost(s, skills[..|skills| - 1]) + SkillCost(s, skills[|skills| - 1])
  }

  function EstimatedCost(s: Settings, o: Opportunity): int {
    var base := SkillsCost(s, o.skills);
    var atLeast := if base == 0.0 then 0.005 else base;
    Round4(if o.payloadLength > 2000 then atLeast * 1.25 else atLeast)
  }

  // ----- The chain of checks -----

  predicate SkillsMatch(capabilities: set<string>, o: Opportunity) {
    forall skill :: skill in o.skills ==> skill in capabilities
  }

  predicate DeadlineFeasible(s: Settings, o: Opportunity, m: Moment) {
    o.deadlineMs.Some? && o.deadlineMs.value - m.now > s.minLeadMs
  }

  function Profit(o: Opportunity, cost: int): int {
    Round4(o.payoutUsd - CostUsd(cost))
  }

  function Margin(profit: int, cost: int): real {
    if cost > 0 then CostUsd(profit) / CostUsd(cost) else 0.0
  }

  function SurgePrice(s: Settings, cost: int): int {
    Nearest((CostUsd(cost) * (1.0 + s.minMargin * 1.5) + s.minProfitUsd) * 1000.0)
  }

  function TargetPrice(s: Settings, cost: int): int {
    Nearest((CostUsd(cost) * (1.0 + s.minMargin) + s.minProfitUsd + EPSILON) * 1000.0)
  }

  function Evaluate(s: Settings, capabilities: set<string>, o: Opportunity, m: Moment): Decision {
    var cost := EstimatedCost(s, o);
    var profit := Profit(o, cost);
    if !SkillsMatch(capabilities, o) then Decision(Reject, false, cost)
    else if !DeadlineFeasible(s, o, m) then Decision(Reject, false, cost)
    else if m.workload >= s.maxConcurrent then Decision(CounterOffer(SurgePrice(s, cost)), false, cost)
    else if m.reputation < s.minReputation then Decision(Reject, false, cost)
    else if o.payoutUsd <= 0.0 || profit < 0 then Decision(Reject, false, cost)
    else if CostUsd(profit) < s.minProfitUsd || Margin(profit, cost) < s.minMargin then
      if o.payoutUsd >= CostUsd(cost) then Decision(CounterOffer(TargetPrice(s, cost)), false, cost)
      else Decision(Reject, false, cost)
    else Decision(Accept, true, cost)
  }

  class EconomicBrain {
    const settings: Settings
    var capabilities: set<string>

    constructor (settings: Settings, capabilities: set<string>)
      ensures this.settings == settings && this.capabilities == capabilities
    {
      this.settings := settings;
      this.capabilities := capabilities;
    }

    method AddCapability(skill: string)
      modifies this
      ensures capabilities == old(capabilities) + {skill}
    {
      capabilities := capabilities + {skill};
    }

    method EstimateCost(o: Opportunity) returns (cost: int)
      ensures cost == EstimatedCost(settings, o)
    {
      var sum := 0.0;
      for i := 0 to |o.skills|
        invariant sum == SkillsCost(settings, o.skills[..i])
      {
        assert o.skills[..i + 1][..i] == o.skills[..i];
        sum := sum + SkillCost(settings, o.skills[i]);
      }
      assert o.skills[..|o.skills|] == o.skills;
      if sum == 0.0 {
        sum := 0.005;
      }
      if o.payloadLength > 2000 {
        sum := sum * 1.25;
      }
      cost := Round4(sum);
    }
  }

  // ----- What is accepted -----

  /** Everything but the money. */
  ghost predicate Eligible(s: Settings, capabilities: set<string>, o: Opportunity, m: Moment) {
    Feasible(s, capabilities, o, m) && m.workload < s.maxConcurrent && m.reputation >= s.minReputation
  }

  /** The agent has every skill, and more than the lead time is left. */
  ghost predicate Feasible(s: Settings, capabilities: set<string>, o: Opportunity, m: Moment) {
    && (forall i :: 0 <= i < |o.skills| ==> o.skills[i] in capabilities)
    && o.deadlineMs.Some? && o.deadlineMs.value > m.now + s.minLeadMs
  }

  /** The profit the margin demands, in USD. */
  function Demand(s: Settings, cost: int): real {
    if cost > 0 then s.minMargin * CostUsd(cost) else 0.0
  }

  /** The margin on a cost that rounds to nothing counts as zero. */
  predicate MarginReachable(s: Settings, cost: int) {
    cost > 0 || s.minMargin <= 0.0
  }

  /** The smallest profit that is good enough, in USD. */
  function Required(s: Settings, cost: int): real {
    Max(0.0, Max(s.minProfitUsd, Demand(s, cost)))
  }

  function Max(a: real, b: real): real {
    if a >= b then a else b
  }

  function Min(a: real, b: real): real {
    if a <= b then a else b
  }

  ghost predicate Accepted(s: Settings, capabilities: set<string>, o: Opportunity, m: Moment) {
    Evaluate(s, capabilities, o, m).action == Accept
  }

  lemma DivideAtLeast(p: real, c: real, r: real)
    requires c > 0.0
    ensures p / c >= r <==> p >= r * c
  {
    var q := p / c;
    assert p == q * c;
    if q >= r {
      assert (q - r) * c >= 0.0;
    } else {
      assert (r - q) * c > 0.0;
    }
  }

  lemma FeasibleIs(s: Settings, capabilities: set<string>, o: Opportunity, m: Moment)
    ensures Feasible(s, capabilities, o, m) <==> SkillsMatch(capabilities, o) && DeadlineFeasible(s, o, m)
  {
    forall i | 0 <= i < |o.skills| ensures o.skills[i] in o.skills {
    }
  }

  /** Accepted exactly when eligible and the rounded profit is enough. */
  lemma AcceptedIff(s: Settings, capabilities: set<string>, o: Opportunity, m: Moment)
    ensures var cost := EstimatedCost(s, o);
      Accepted(s, capabilities, o, m) <==>
        && Eligible(s, capabilities, o, m)
        && o.payoutUsd > 0.0
        && MarginReachable(s, cost)
        && CostUsd(Profit(o, cost)) >= Required(s, cost)
  {
    var cost := EstimatedCost(s, o);
    FeasibleIs(s, capabilities, o, m);
    MarginAtLeast(Profit(o, cost), cost, s.minMargin);
    UsdSign(Profit(o, cost));
    hide EstimatedCost, SkillsMatch, DeadlineFeasible, Feasible, Profit, CostUsd, Margin;
  }

  lemma MarginAtLeast(profit: int, cost: int, r: real)
    ensures Margin(profit, cost) >= r <==> if cost > 0 then CostUsd(profit) >= r * CostUsd(cost) else 0.0 >= r
  {
    if cost > 0 {
      DivideAtLeast(CostUsd(profit), CostUsd(cost), r);
    }
  }

  lemma UsdSign(units: int)
    ensures CostUsd(units) < 0.0 <==> units < 0
  {
  }

  lemma Round4Close(x: real)
    ensures EPSILON - 0.00005 < CostUsd(Round4(x)) - x <= EPSILON + 0.00005
  {
  }

  lemma Round4Exact(k: int)
    ensures Round4(CostUsd(k)) == k
  {
  }

  lemma Round4Monotone(x: real, y: real)
    requires x <= y
    ensures Round4(x) <= Round4(y)
  {
  }

  /** For payouts on the cost grid rounding plays no part: accepted exactly when eligible and the true profit is
      enough. */
  lemma GridPayoutAcceptedIff(s: Settings, capabilities: set<string>, o: Opportunity, m: Moment, payout: int)
    requires o.payoutUsd == CostUsd(payout)
    ensures var cost := EstimatedCost(s, o);
      Accepted(s, capabilities, o, m) <==>
        && Eligible(s, capabilities, o, m)
        && payout > 0
        && MarginReachable(s, cost)
        && CostUsd(payout) - CostUsd(cost) >= Required(s, cost)
  {
    var cost := EstimatedCost(s, o);
    AcceptedIff(s, capabilities, o, m);
    hide EstimatedCost, Accepted, Eligible, Required, Round4;
    assert CostUsd(payout) - CostUsd(cost) == CostUsd(payout - cost);
    Round4Exact(payout - cost);
  }

  /** For any payout: what is accepted pays off up to half a grid unit, and half a unit more is enough. */
  lemma AcceptedPaysOff(s: Settings, capabilities: set<string>, o: Opportunity, m: Moment)
    ensures var cost := EstimatedCost(s, o);
      Accepted(s, capabilities, o, m) ==> o.payoutUsd - CostUsd(cost) >= Required(s, cost) - 0.00005 - EPSILON
    ensures var cost := EstimatedCost(s, o);
      (&& Eligible(s, capabilities, o, m) && o.payoutUsd > 0.0 && MarginReachable(s, cost)
       && o.payoutUsd - CostUsd(cost) >= Required(s, cost) + 0.00005) ==> Accepted(s, capabilities, o, m)
  {
    var cost := EstimatedCost(s, o);
    AcceptedIff(s, capabilities, o, m);
    Round4Close(o.payoutUsd - CostUsd(cost));
    hide EstimatedCost, Accepted, Eligible, Round4;
  }

  /** More payout, more skills, a later deadline, less work and a better name never lose an acceptance. */
  lemma AcceptanceIsMonotone(
      s: Settings, capabilities: set<string>, more: set<string>,
      o: Opportunity, better: Opportunity, m: Moment, easier: Moment)
    requires Accepted(s, capabilities, o, m)
    requires capabilities <= more
    requires better.skills == o.skills && better.payloadLength == o.payloadLength && better.payoutUsd >= o.payoutUsd
    requires o.deadlineMs.Some? ==>
      better.deadlineMs.Some? && better.deadlineMs.value - easier.now >= o.deadlineMs.value - m.now
    requires easier.workload <= m.workload && easier.reputation >= m.reputation
    ensures Accepted(s, more, better, easier)
  {
    AcceptedIff(s, capabilities, o, m);
    AcceptedIff(s, more, better, easier);
    var cost := EstimatedCost(s, o);
    assert EstimatedCost(s, better) == cost;
    hide EstimatedCost, Accepted, Round4;
    Round4Monotone(o.payoutUsd - CostUsd(cost), better.payoutUsd - CostUsd(cost));
  }

  /** With a margin to reach, a task whose cost rounds to nothing is never accepted, whatever it pays. */
  lemma CostlessIsNeverAccepted(s: Settings, capabilities: set<string>, o: Opportunity, m: Moment)
    requires EstimatedCost(s, o) <= 0 && s.minMargin > 0.0
    ensures !Accepted(s, capabilities, o, m)
  {
    hide EstimatedCost;
  }

  // ----- The estimate is the sum of its skills -----

  /** The order of the skills does not matter, nor how they are grouped; a skill without a price counts as 0.005. */
  lemma {:induction false} SkillsCostAdds(s: Settings, a: seq<string>, b: seq<string>)
    ensures SkillsCost(s, a + b) == SkillsCost(s, a) + SkillsCost(s, b)
    ensures SkillsCost(s, []) == 0.0
    ensures forall x :: SkillsCost(s, [x]) == if x in s.skillCosts then s.skillCosts[x] else 0.005
  {
    forall x ensures SkillsCost(s, [x]) == if x in s.skillCosts then s.skillCosts[x] else 0.005 {
      assert [x][..0] == [];
    }
    if b == [] {
      assert a + b == a;
    } else {
      assert (a + b)[..|a + b| - 1] == a + b[..|b| - 1];
      SkillsCostAdds(s, a, b[..|b| - 1]);
    }
  }

  /** The estimate is that sum, or 0.005 when it is nothing, a quarter more for a payload of more than 2000 characters,
      up to half a grid unit and the epsilon. */
  lemma EstimateClose(s: Settings, o: Opportunity)
    ensures var sum := SkillsCost(s, o.skills);
      var exact := (if sum == 0.0 then 0.005 else sum) * (if o.payloadLength >= 2001 then 1.25 else 1.0);
      EPSILON - 0.00005 < CostUsd(EstimatedCost(s, o)) - exact <= EPSILON + 0.00005
  {
    var sum := SkillsCost(s, o.skills);
    var base := if sum == 0.0 then 0.005 else sum;
    Round4Close(base * 1.25);
    Round4Close(base);
    hide Round4, SkillsCost;
  }

  // ----- Counter-offers -----

  /** The same opportunity at the price of a counter-offer. */
  function AtPrice(o: Opportunity, price: int): Opportunity {
    o.(payoutUsd := PriceUsd(price))
  }

  /** What the counter-offer asks for before rounding to its grid: cost, margin and minimum profit together. */
  function AskUsd(s: Settings, cost: int, surge: real): real {
    CostUsd(cost) * (1.0 + s.minMargin * surge) + s.minProfitUsd
  }

  /** Taken up, a counter-offer is accepted exactly when its price covers the cost and the required profit. */
  lemma PriceAcceptedIff(s: Settings, capabilities: set<string>, o: Opportunity, m: Moment, price: int)
    requires EstimatedCost(s, o) > 0 && Eligible(s, capabilities, o, m)
    ensures var cost := EstimatedCost(s, o);
      Accepted(s, capabilities, AtPrice(o, price), m) <==> PriceUsd(price) >= CostUsd(cost) + Required(s, cost)
  {
    var cost := EstimatedCost(s, o);
    assert EstimatedCost(s, AtPrice(o, price)) == cost;
    assert PriceUsd(price) == CostUsd(10 * price);
    assert Eligible(s, capabilities, AtPrice(o, price), m);
    GridPayoutAcceptedIff(s, capabilities, AtPrice(o, price), m, 10 * price);
    hide EstimatedCost, Accepted, Eligible;
  }

  lemma AskParts(s: Settings, cost: int)
    requires cost > 0
    ensures AskUsd(s, cost, 1.0) == CostUsd(cost) + Demand(s, cost) + s.minProfitUsd
    ensures AskUsd(s, cost, 1.5) == CostUsd(cost) + 1.5 * Demand(s, cost) + s.minProfitUsd
  {
    hide CostUsd;
    var c, m := CostUsd(cost), s.minMargin;
    assert c * (1.0 + m * 1.0) == c + c * m;
    assert c * (1.0 + m * 1.5) == c + 1.5 * (c * m);
    assert c * m == m * c;
  }

  /** Two demands are both met when what is missing from their sum is no more than the smaller. */
  lemma BothDemandsMet(spare: real, a: real, b: real)
    requires a >= 0.0 && b >= 0.0
    ensures spare >= Max(0.0, Max(a, b)) <==> a + b - spare <= Min(a, b)
  {
  }

  lemma RequiredParts(s: Settings, cost: int)
    ensures Required(s, cost) == Max(0.0, Max(s.minProfitUsd, Demand(s, cost)))
  {
  }

  /** Any price that covers the ask up to a shortfall is accepted exactly when the shortfall is no more than the smaller
      demand. */
  lemma ShortfallAcceptedIff(s: Settings, capabilities: set<string>, o: Opportunity, m: Moment, price: int)
    requires EstimatedCost(s, o) > 0 && Demand(s, EstimatedCost(s, o)) >= 0.0 && s.minProfitUsd >= 0.0
    requires Eligible(s, capabilities, o, m)
    ensures var cost := EstimatedCost(s, o);
      Accepted(s, capabilities, AtPrice(o, price), m) <==>
        AskUsd(s, cost, 1.0) - PriceUsd(price) <= Min(s.minProfitUsd, Demand(s, cost))
  {
    hide *;
    var cost := EstimatedCost(s, o);
    var c, d := CostUsd(cost), Demand(s, cost);
    PriceAcceptedIff(s, capabilities, o, m, price);
    RequiredParts(s, cost);
    AskParts(s, cost);
    BothDemandsMet(PriceUsd(price) - c, s.minProfitUsd, d);
  }

  lemma TargetPriceClose(s: Settings, cost: int)
    ensures -0.0005 < PriceUsd(TargetPrice(s, cost)) - AskUsd(s, cost, 1.0) <= 0.0005 + EPSILON
  {
    var ask := AskUsd(s, cost, 1.0);
    assert s.minMargin * 1.0 == s.minMargin;
    assert TargetPrice(s, cost) == Nearest((ask + EPSILON) * 1000.0);
    hide TargetPrice, AskUsd, CostUsd;
  }

  lemma SurgePriceClose(s: Settings, cost: int)
    ensures -0.0005 < PriceUsd(SurgePrice(s, cost)) - AskUsd(s, cost, 1.5) <= 0.0005
  {
    var ask := AskUsd(s, cost, 1.5);
    assert SurgePrice(s, cost) == Nearest(ask * 1000.0);
    hide SurgePrice, AskUsd, CostUsd;
  }

  /** A counter-offer is made exactly when the agent could do the task in time but is busy, or is not busy and would be
      paid its cost by a requester of good name but not enough; the price is what it asks, with half as much margin
      again when busy.  Permission is granted exactly on acceptance. */
  lemma CounterOfferedIff(s: Settings, capabilities: set<string>, o: Opportunity, m: Moment)
    ensures var d, cost := Evaluate(s, capabilities, o, m), EstimatedCost(s, o);
      var busy := Feasible(s, capabilities, o, m) && m.workload >= s.maxConcurrent;
      var short := Eligible(s, capabilities, o, m) && o.payoutUsd > 0.0 && o.payoutUsd >= CostUsd(cost)
        && !Accepted(s, capabilities, o, m);
      && (d.action.CounterOffer? <==> busy || short)
      && (busy ==> -0.0005 < PriceUsd(d.action.price) - AskUsd(s, cost, 1.5) <= 0.0005)
      && (short ==> -0.0005 < PriceUsd(d.action.price) - AskUsd(s, cost, 1.0) <= 0.0005 + EPSILON)
      && (d.permissionGranted <==> d.action == Accept)
      && d.cost == cost
  {
    var cost := EstimatedCost(s, o);
    FeasibleIs(s, capabilities, o, m);
    SurgePriceClose(s, cost);
    TargetPriceClose(s, cost);
    Round4Exact(0);
    if o.payoutUsd >= CostUsd(cost) {
      Round4Monotone(CostUsd(0), o.payoutUsd - CostUsd(cost));
    }
    hide EstimatedCost, SkillsMatch, DeadlineFeasible, Feasible, SurgePrice, TargetPrice, Round4, Margin, AskUsd;
  }

  /** Neither kind of counter-offer falls short when both demands are at least half a price unit. */
  lemma CounterOffersHold(s: Settings, capabilities: set<string>, o: Opportunity, m: Moment)
    requires EstimatedCost(s, o) > 0 && s.minProfitUsd >= 0.0005 && Demand(s, EstimatedCost(s, o)) >= 0.0005
    requires Eligible(s, capabilities, o, m)
    ensures Accepted(s, capabilities, AtPrice(o, TargetPrice(s, EstimatedCost(s, o))), m)
    ensures Accepted(s, capabilities, AtPrice(o, SurgePrice(s, EstimatedCost(s, o))), m)
  {
    hide *;
    var cost := EstimatedCost(s, o);
    var d := Demand(s, cost);
    ShortfallAcceptedIff(s, capabilities, o, m, TargetPrice(s, cost));
    ShortfallAcceptedIff(s, capabilities, o, m, SurgePrice(s, cost));
    TargetPriceClose(s, cost);
    SurgePriceClose(s, cost);
    AskParts(s, cost);
    SmallerOfTwo(s.minProfitUsd, d);
  }

  lemma SmallerOfTwo(a: real, b: real)
    ensures a <= b ==> Min(a, b) == a
    ensures b <= a ==> Min(a, b) == b
  {
  }

  // ----- The settings as shipped -----

  /** The margin and profit that apply when nothing else is configured. */
  predicate ShippedThresholds(s: Settings) {
    s.minMargin == 0.2 && s.minProfitUsd == 0.05
  }

  /** The shipped table has no skill below 0.002 USD, and no task then costs less. */
  lemma {:induction false} NoTaskBelowTheCheapestSkill(s: Settings, o: Opportunity)
    requires forall skill :: skill in s.skillCosts ==> s.skillCosts[skill] >= 0.002
    ensures EstimatedCost(s, o) >= 20
  {
    SkillsCostAtLeast(s, o.skills);
    var base := SkillsCost(s, o.skills);
    Round4Exact(20);
    Round4Monotone(CostUsd(20), if base == 0.0 then 0.005 else base);
    Round4Monotone(CostUsd(20), (if base == 0.0 then 0.005 else base) * 1.25);
    hide Round4;
  }

  lemma {:induction false} SkillsCostAtLeast(s: Settings, skills: seq<string>)
    requires forall skill :: skill in s.skillCosts ==> s.skillCosts[skill] >= 0.002
    ensures SkillsCost(s, skills) >= if skills == [] then 0.0 else 0.002
  {
    if skills != [] {
      SkillsCostAtLeast(s, skills[..|skills| - 1]);
    }
  }

  /** With the shipped thresholds and a cost from 0.002 USD up, whoever takes up a counter-offer is accepted. */
  lemma ShippedCounterOffersHold(s: Settings, capabilities: set<string>, o: Opportunity, m: Moment)
    requires ShippedThresholds(s) && EstimatedCost(s, o) >= 20 && Eligible(s, capabilities, o, m)
    ensures Accepted(s, capabilities, AtPrice(o, TargetPrice(s, EstimatedCost(s, o))), m)
    ensures Accepted(s, capabilities, AtPrice(o, SurgePrice(s, EstimatedCost(s, o))), m)
  {
    var cost := EstimatedCost(s, o);
    if cost >= 25 {
      CounterOffersHold(s, capabilities, o, m);
    } else {
      ShippedPrices(s, cost);
      PriceAcceptedIff(s, capabilities, o, m, TargetPrice(s, cost));
      PriceAcceptedIff(s, capabilities, o, m, SurgePrice(s, cost));
      hide EstimatedCost, Accepted, Eligible, TargetPrice, SurgePrice;
    }
  }

  lemma ShippedPrices(s: Settings, cost: int)
    requires ShippedThresholds(s) && 20 <= cost < 25
    ensures TargetPrice(s, cost) == (if cost == 20 then 52 else 53) && SurgePrice(s, cost) >= 53
  {
  }

  /** Below that, a counter-offer can be refused by the very next evaluation, which offers the same price again, for
      ever. */
  lemma CounterOfferCanRepeat(s: Settings, capabilities: set<string>, o: Opportunity, m: Moment)
    requires ShippedThresholds(s) && EstimatedCost(s, o) == 12 && Eligible(s, capabilities, o, m)
    ensures var price := TargetPrice(s, 12);
      Evaluate(s, capabilities, AtPrice(o, price), m).action == CounterOffer(price)
  {
  }
}
