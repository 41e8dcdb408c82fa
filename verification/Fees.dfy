/** The fee schedule: which percentage applies, and the fee arithmetic with its rounding. Amounts are exact decimals. */
module Fees {
  import opened Wrappers
  import opened Sums

  /** Ledger amounts are integers of 1e-8 FARM; one cent is a million of them. */
  const CENT := 1_000_000
  const HALF_CENT := 500_000
  const FARM := 100_000_000

  predicate WholeCents(units: int) { units % CENT == 0 }

  datatype FeeKey =
    | CreationFee | ReleaseFee | WithdrawalFee | InvestmentFee | TravelFee
    | MerchantFee | TransferFee | ListingFee | ReceivedFee | AgentFee

  /** A rule row. A `max` of 0 means no cap. */
  datatype FeeRule = FeeRule(percent: real, flat: real, min: real, max: real)

  function Percent(p: real): FeeRule { FeeRule(p, 0.0, 0.0, 0.0) }

  predicate Sane(rule: FeeRule)
  {
    rule.percent >= 0.0 && rule.flat >= 0.0 && rule.min >= 0.0 && rule.max >= 0.0
  }

  function BasePercent(key: FeeKey): real
  {
    match key
    case CreationFee => 1.5
    case ReleaseFee => 1.5
    case WithdrawalFee => 1.5
    case InvestmentFee => 3.0
    case TravelFee => 5.0
    case MerchantFee => 1.0
    case TransferFee => 0.0
    case ListingFee => 15.0
    case ReceivedFee => 0.0
    case AgentFee => 0.0
  }

  /** The configured override when it is a percentage, the built-in one otherwise. `None` is a missing or unreadable setting. */
  function DefaultPercent(key: FeeKey, setting: Option<real>): (p: real)
    ensures 0.0 <= p <= 100.0
    ensures setting.Some? && 0.0 <= setting.value <= 100.0 ==> p == setting.value
    ensures setting.Some? && (setting.value < 0.0 || setting.value > 100.0) ==> p == BasePercent(key)
  {
    if setting.Some? && 0.0 <= setting.value <= 100.0 then setting.value else BasePercent(key)
  }

  /** What the fee editor writes: a percentage and nothing else, or a rejection. */
  function EditedRule(value: real): (r: Option<FeeRule>)
    ensures r.Some? <==> 0.0 <= value <= 100.0
    ensures r.Some? ==> r.value.percent == value && r.value.flat == r.value.min == r.value.max == 0.0
  {
    if value < 0.0 || value > 100.0 then None else Some(Percent(value))
  }

  function Scale(dp: nat): (f: int)
    ensures f >= 1
  {
    if dp == 0 then 1 else 10 * Scale(dp - 1)
  }

  function HalfUp(x: real): int { (x + 0.5).Floor }

  function Limited(rule: FeeRule, fee: real): real
  {
    var floored := if rule.min > 0.0 && fee < rule.min then rule.min else fee;
    if rule.max > 0.0 && floored > rule.max then rule.max else floored
  }

  function RawFee(rule: FeeRule, amount: real): real
  {
    Limited(rule, amount * rule.percent / 100.0 + rule.flat)
  }

  /** The fee counted in steps of 10^-dp. */
  function FeeSteps(rule: FeeRule, amount: real, dp: nat): int
  {
    if amount <= 0.0 then 0
    else
      var n := HalfUp(RawFee(rule, amount) * Scale(dp) as real);
      if n < 0 then 0 else n
  }

  function ComputeFee(rule: FeeRule, amount: real, dp: nat): real
  {
    FeeSteps(rule, amount, dp) as real / Scale(dp) as real
  }

  /** The fee in ledger units, charged to the cent. */
  function FeeUnits(rule: FeeRule, units: int): (fee: int)
    ensures fee >= 0 && WholeCents(fee)
  {
    FeeSteps(rule, units as real / FARM as real, 2) * CENT
  }

  /** An amount rounded half up to the cent. */
  function ToCents(units: int): (cents: int)
    ensures WholeCents(cents) && cents - HALF_CENT <= units < cents + HALF_CENT
  {
    (units + CENT / 2) / CENT * CENT
  }

  // ---------- shape ----------

  lemma HalfUpMonotone(x: real, y: real)
    requires x <= y
    ensures HalfUp(x) <= HalfUp(y)
  {
  }

  lemma ProductMonotone(a: real, b: real, p: real)
    requires 0.0 <= a <= b && p >= 0.0
    ensures 0.0 <= a * p <= b * p
  {
    if p == 0.0 {
      assert a * p == 0.0 && b * p == 0.0;
    } else if a == 0.0 {
      assert a * p == 0.0 && (b == 0.0 ==> b * p == 0.0);
    } else {
      assert a * p > 0.0;
      assert a < b ==> (b - a) * p > 0.0;
      assert b * p == a * p + (b - a) * p;
    }
  }

  lemma RawFeeMonotone(rule: FeeRule, a: real, b: real)
    requires Sane(rule) && 0.0 <= a <= b
    ensures 0.0 <= RawFee(rule, a) <= RawFee(rule, b)
  {
    ProductMonotone(a, b, rule.percent);
    var x, y := a * rule.percent, b * rule.percent;
    LimitedMonotone(rule, x / 100.0 + rule.flat, y / 100.0 + rule.flat);
  }

  lemma LimitedMonotone(rule: FeeRule, x: real, y: real)
    requires Sane(rule) && 0.0 <= x <= y
    ensures 0.0 <= Limited(rule, x) <= Limited(rule, y)
  {
  }

  lemma ScaledMonotone(x: real, y: real, dp: nat)
    requires x <= y
    ensures x * Scale(dp) as real <= y * Scale(dp) as real
  {
  }

  /** n is x rounded, halves up. */
  predicate Nearest(n: int, x: real) { n as real - 0.5 <= x < n as real + 0.5 }

  /** A fee before rounding, kept between the minimum and the cap, the cap having the last word. */
  function Between(fee: real, min: real, max: real): real
  {
    if max > 0.0 && (fee > max || min > max) then max else if fee < min then min else fee
  }

  /** The exact fee is the percentage of the amount plus the flat part; it is kept between minimum and cap, and rounded to steps. */
  lemma FeeFollowsRule(rule: FeeRule, amount: real, dp: nat, exact: real)
    requires Sane(rule) && exact == amount * rule.percent / 100.0 + rule.flat
    ensures amount <= 0.0 ==> FeeSteps(rule, amount, dp) == 0
    ensures amount > 0.0 ==> Nearest(FeeSteps(rule, amount, dp), Between(exact, rule.min, rule.max) * Scale(dp) as real)
  {
    if amount > 0.0 {
      RawFeeBetween(rule, amount, exact);
      StepsNearest(rule, amount, dp, Between(exact, rule.min, rule.max));
    }
  }

  lemma StepsNearest(rule: FeeRule, amount: real, dp: nat, fee: real)
    requires amount > 0.0 && RawFee(rule, amount) == fee >= 0.0
    ensures Nearest(FeeSteps(rule, amount, dp), fee * Scale(dp) as real)
  {
    ScaledMonotone(0.0, fee, dp);
  }

  lemma RawFeeBetween(rule: FeeRule, amount: real, x: real)
    requires Sane(rule) && amount > 0.0 && x == amount * rule.percent / 100.0 + rule.flat
    ensures 0.0 <= RawFee(rule, amount) == Between(x, rule.min, rule.max)
  {
    ProductMonotone(0.0, amount, rule.percent);
  }

  /** The fee never falls when the amount grows, and is never negative. */
  lemma FeeMonotone(rule: FeeRule, a: real, b: real, dp: nat)
    requires Sane(rule) && a <= b
    ensures 0 <= FeeSteps(rule, a, dp) <= FeeSteps(rule, b, dp)
  {
    if a > 0.0 {
      RawFeeMonotone(rule, a, b);
      var x, y := RawFee(rule, a) * Scale(dp) as real, RawFee(rule, b) * Scale(dp) as real;
      ProductMonotone(RawFee(rule, a), RawFee(rule, b), Scale(dp) as real);
      assert 0.0 <= x <= y;
      HalfUpMonotone(0.0, x);
      HalfUpMonotone(x, y);
    }
  }

  /** The cap of a rule, rounded to steps. */
  function CapSteps(rule: FeeRule, dp: nat): int { HalfUp(rule.max * Scale(dp) as real) }

  /** A cap holds up to its own rounding. */
  lemma FeeWithinRoundedCap(rule: FeeRule, amount: real, dp: nat)
    requires Sane(rule) && rule.max > 0.0
    ensures FeeSteps(rule, amount, dp) <= CapSteps(rule, dp)
    ensures amount > 0.0 && amount * rule.percent == rule.max * 100.0 ==> FeeSteps(rule, amount, dp) == CapSteps(rule, dp)
  {
    var f := Scale(dp);
    ScaledMonotone(0.0, rule.max, dp);
    HalfUpMonotone(0.0, rule.max * f as real);
    if amount > 0.0 {
      ScaledMonotone(RawFee(rule, amount), rule.max, dp);
      HalfUpMonotone(RawFee(rule, amount) * f as real, rule.max * f as real);
    }
  }

  ghost predicate CapRespected(rule: FeeRule, dp: nat)
  {
    forall amount: real :: ComputeFee(rule, amount, dp) <= rule.max
  }

  /** The highest fee of a capped rule before rounding: a percentage reaches the cap, fixed fees may stay below it. */
  function TopFee(rule: FeeRule): real
  {
    var fixed := if rule.min > rule.flat then rule.min else rule.flat;
    if rule.percent > 0.0 || fixed > rule.max then rule.max else fixed
  }

  function TopSteps(rule: FeeRule, dp: nat): int { HalfUp(TopFee(rule) * Scale(dp) as real) }

  predicate TopSurvivesRounding(rule: FeeRule, dp: nat)
  {
    TopSteps(rule, dp) as real / Scale(dp) as real <= rule.max
  }

  lemma StepsOrdered(m: int, n: int, dp: nat)
    requires m <= n
    ensures m as real / Scale(dp) as real <= n as real / Scale(dp) as real
  {
  }

  lemma ReachingAmount(max: real, percent: real) returns (amount: real)
    requires max > 0.0 && percent > 0.0
    ensures amount > 0.0 && amount * percent == max * 100.0
  {
    amount := max * 100.0 / percent;
    if amount <= 0.0 {
      ProductMonotone(0.0, -amount, percent);
    }
  }

  lemma RawFeeWithinTop(rule: FeeRule, amount: real)
    requires Sane(rule) && rule.max > 0.0 && amount > 0.0
    ensures RawFee(rule, amount) <= TopFee(rule)
  {
    LimitedWithin(rule, amount * rule.percent / 100.0 + rule.flat);
    if rule.percent == 0.0 {
      assert amount * rule.percent == 0.0;
      assert RawFee(rule, amount) == Limited(rule, rule.flat);
    }
  }

  lemma LimitedWithin(rule: FeeRule, fee: real)
    requires rule.max > 0.0
    ensures Limited(rule, fee) <= rule.max
  {
  }

  lemma FeeWithinTop(rule: FeeRule, amount: real, dp: nat)
    requires Sane(rule) && rule.max > 0.0
    ensures 0 <= FeeSteps(rule, amount, dp) <= TopSteps(rule, dp)
  {
    ScaledMonotone(0.0, TopFee(rule), dp);
    HalfUpMonotone(0.0, TopFee(rule) * Scale(dp) as real);
    if amount > 0.0 {
      RawFeeMonotone(rule, 0.0, amount);
      RawFeeWithinTop(rule, amount);
      ScaledMonotone(RawFee(rule, amount), TopFee(rule), dp);
      HalfUpMonotone(RawFee(rule, amount) * Scale(dp) as real, TopFee(rule) * Scale(dp) as real);
    }
  }

  lemma TopRaw(rule: FeeRule) returns (amount: real)
    requires Sane(rule) && rule.max > 0.0
    ensures amount > 0.0 && RawFee(rule, amount) == TopFee(rule)
  {
    if rule.percent > 0.0 {
      amount := ReachingAmount(rule.max, rule.percent);
    } else {
      amount := 1.0;
    }
    var share := amount * rule.percent;
    assert RawFee(rule, amount) == Limited(rule, share / 100.0 + rule.flat);
    TopLimited(rule, share / 100.0 + rule.flat);
  }

  lemma TopLimited(rule: FeeRule, fee: real)
    requires Sane(rule) && rule.max > 0.0
    requires if rule.percent > 0.0 then fee >= rule.max else fee == rule.flat
    ensures Limited(rule, fee) == TopFee(rule)
  {
  }

  lemma TopReached(rule: FeeRule, dp: nat) returns (amount: real)
    requires Sane(rule) && rule.max > 0.0
    ensures FeeSteps(rule, amount, dp) == TopSteps(rule, dp)
  {
    amount := TopRaw(rule);
    ScaledMonotone(0.0, TopFee(rule), dp);
    HalfUpMonotone(0.0, TopFee(rule) * Scale(dp) as real);
  }

  /** The cap is respected for every amount exactly when rounding the highest fee does not take it above the cap. */
  lemma CapRespectedIff(rule: FeeRule, dp: nat)
    requires Sane(rule) && rule.max > 0.0
    ensures CapRespected(rule, dp) <==> TopSurvivesRounding(rule, dp)
  {
    if TopSurvivesRounding(rule, dp) {
      forall amount: real
        ensures ComputeFee(rule, amount, dp) <= rule.max
      {
        FeeWithinTop(rule, amount, dp);
        StepsOrdered(FeeSteps(rule, amount, dp), TopSteps(rule, dp), dp);
      }
    } else {
      var amount := TopReached(rule, dp);
      assert ComputeFee(rule, amount, dp) == TopSteps(rule, dp) as real / Scale(dp) as real;
    }
  }

  lemma PercentRaw(p: real, c: int, dp: nat)
    requires c > 0
    ensures c as real / Scale(dp) as real > 0.0
    ensures RawFee(Percent(p), c as real / Scale(dp) as real) * Scale(dp) as real == c as real * p / 100.0
  {
  }

  lemma PercentWithin(c: real, p: real)
    requires c >= 0.0 && 0.0 <= p <= 100.0
    ensures 0.0 <= c * p / 100.0 <= c
  {
  }

  /** A percentage of c steps, in steps. */
  lemma StepShare(p: real, c: int, dp: nat) returns (x: real)
    requires c > 0 && 0.0 <= p <= 100.0
    ensures c as real / Scale(dp) as real > 0.0 && 0.0 <= x <= c as real
    ensures RawFee(Percent(p), c as real / Scale(dp) as real) * Scale(dp) as real == x
  {
    x := c as real * p / 100.0;
    PercentRaw(p, c, dp);
    PercentWithin(c as real, p);
  }

  lemma StepsBetween(rule: FeeRule, amount: real, dp: nat, x: real, c: int)
    requires amount > 0.0 && RawFee(rule, amount) * Scale(dp) as real == x && 0.0 <= x <= c as real
    ensures 0 <= FeeSteps(rule, amount, dp) <= c
  {
  }

  /** An edited rule never charges more than the amount, when the amount is a whole number of steps. */
  lemma FeeAtMostAmount(value: real, c: int, dp: nat)
    requires EditedRule(value).Some? && c >= 0
    ensures 0 <= FeeSteps(EditedRule(value).value, c as real / Scale(dp) as real, dp) <= c
  {
    if c > 0 {
      assert EditedRule(value) == Some(Percent(value));
      var x := StepShare(value, c, dp);
      StepsBetween(Percent(value), c as real / Scale(dp) as real, dp, x, c);
    }
  }

  /** An edited rule leaves something for the payee exactly when the unpaid percentage of the amount is worth more than half a step. */
  lemma FeeBelowAmountIff(value: real, c: int, dp: nat)
    requires EditedRule(value).Some? && c > 0
    ensures FeeSteps(EditedRule(value).value, c as real / Scale(dp) as real, dp) < c <==> c as real * (100.0 - value) > 50.0
  {
    PercentRaw(value, c, dp);
    var x := c as real * value / 100.0;
    assert c as real * (100.0 - value) == (c as real - x) * 100.0 by {
      assert x * 100.0 == c as real * value;
    }
    assert HalfUp(x) < c <==> x + 0.5 < c as real;
    assert c as real * value >= 0.0;
  }

  /** The same, for a fee charged in ledger units on a whole number of cents. */
  lemma FeeUnitsBelowAmountIff(value: real, units: int)
    requires EditedRule(value).Some? && units > 0 && WholeCents(units)
    ensures FeeUnits(Percent(value), units) < units <==> (units / CENT) as real * (100.0 - value) > 50.0
  {
    var c := units / CENT;
    assert Scale(2) == 100;
    assert units as real / FARM as real == c as real / 100.0;
    FeeBelowAmountIff(value, c, 2);
  }

  /** Below half, a percentage always leaves something, however small the amount: all built-in percentages do. */
  lemma BuiltInFeeBelowAmount(key: FeeKey, units: int)
    requires units > 0 && WholeCents(units)
    ensures FeeUnits(Percent(DefaultPercent(key, None)), units) < units
  {
    var value := BasePercent(key);
    var c := units / CENT;
    FeeUnitsBelowAmountIff(value, units);
    assert c as real >= 1.0;
    assert 100.0 - value >= 85.0;
    assert c as real * (100.0 - value) >= 1.0 * (100.0 - value);
  }

  /** Off whole cents the fee can exceed the amount: half a cent at 100 percent is charged a whole cent. */
  lemma SubCentFeeExceedsAmount()
    ensures !WholeCents(CENT / 2) && FeeUnits(Percent(100.0), CENT / 2) > CENT / 2
  {
    assert Scale(2) == 100;
    assert HALF_CENT as real / FARM as real == 0.005;
    assert RawFee(Percent(100.0), 0.005) == 0.005;
    assert HalfUp(0.5) == 1;
  }

  // ---------- the size of a fee in ledger units ----------

  lemma BetweenScaled(fee: real, min: real, max: real, k: int)
    requires k > 0
    ensures Between(fee * k as real, min * k as real, max * k as real) == Between(fee, min, max) * k as real
  {
    assert max > 0.0 <==> max * k as real > 0.0;
    assert fee > max <==> fee * k as real > max * k as real;
    assert min > max <==> min * k as real > max * k as real;
    assert fee < min <==> fee * k as real < min * k as real;
  }

  /** Percentage and flat part, in FARM and in ledger units. */
  lemma InFarm(units: int, amount: real, percent: real, flat: real, exact: real, x: real)
    requires amount == units as real / FARM as real && x == exact / FARM as real
    requires exact == units as real * percent / 100.0 + flat * FARM as real
    ensures x == amount * percent / 100.0 + flat
  {
    assert units as real == amount * FARM as real;
    assert units as real * percent == amount * percent * FARM as real;
  }

  lemma StepsOfUnits(rule: FeeRule, units: int, exact: real)
    requires Sane(rule) && units > 0 && exact == units as real * rule.percent / 100.0 + rule.flat * FARM as real
    ensures Nearest(FeeSteps(rule, units as real / FARM as real, 2), Between(exact / FARM as real, rule.min, rule.max) * 100.0)
  {
    var amount, x := units as real / FARM as real, exact / FARM as real;
    InFarm(units, amount, rule.percent, rule.flat, exact, x);
    assert Scale(2) == 100;
    FeeFollowsRule(rule, amount, 2, x);
  }

  /**
   * Any rule on a ledger amount: the exact fee, which is the percentage plus the flat part, kept between minimum and cap, to
   * the cent, halves up.
   */
  lemma FeeUnitsFollowRule(rule: FeeRule, units: int, exact: real)
    requires Sane(rule) && units > 0 && exact == units as real * rule.percent / 100.0 + rule.flat * FARM as real
    ensures var kept := Between(exact, rule.min * FARM as real, rule.max * FARM as real);
            FeeUnits(rule, units) as real - HALF_CENT as real <= kept < FeeUnits(rule, units) as real + HALF_CENT as real
  {
    StepsOfUnits(rule, units, exact);
    UnitsFromSteps(FeeSteps(rule, units as real / FARM as real, 2), exact / FARM as real, exact, rule.min, rule.max);
  }

  lemma UnitsFromSteps(n: int, x: real, y: real, min: real, max: real)
    requires Nearest(n, Between(x, min, max) * 100.0) && y == x * FARM as real
    ensures var exact := Between(y, min * FARM as real, max * FARM as real);
            (n * CENT) as real - HALF_CENT as real <= exact < (n * CENT) as real + HALF_CENT as real
  {
    StepsToUnits(n, Between(x, min, max));
    BetweenScaled(x, min, max, FARM);
  }

  lemma StepsToUnits(n: int, y: real)
    requires Nearest(n, y * 100.0)
    ensures (n * CENT) as real - HALF_CENT as real <= y * FARM as real < (n * CENT) as real + HALF_CENT as real
  {
  }

  /** A percentage of a ledger amount, rounded to the cent, halves up. */
  lemma FeeUnitsNear(p: real, units: int)
    requires p >= 0.0 && units > 0
    ensures var fee, exact := FeeUnits(Percent(p), units) as real, units as real * p / 100.0;
            fee - HALF_CENT as real <= exact < fee + HALF_CENT as real
  {
    var exact := units as real * p / 100.0;
    FeeUnitsFollowRule(Percent(p), units, exact);
    ProductMonotone(0.0, units as real, p);
  }

  lemma FeeUnitsMonotone(rule: FeeRule, a: int, b: int)
    requires Sane(rule) && a <= b
    ensures 0 <= FeeUnits(rule, a) <= FeeUnits(rule, b)
  {
    FeeMonotone(rule, a as real / FARM as real, b as real / FARM as real, 2);
  }

  /** What the built-in percentages charge on 100 FARM, in cents. */
  lemma BuiltInFeesOnHundred(key: FeeKey)
    ensures FeeUnits(Percent(DefaultPercent(key, None)), 100 * FARM)
         == CENT * match key
                   case CreationFee => 150
                   case ReleaseFee => 150
                   case WithdrawalFee => 150
                   case InvestmentFee => 300
                   case TravelFee => 500
                   case MerchantFee => 100
                   case ListingFee => 1500
                   case _ => 0
  {
    FeeUnitsNear(DefaultPercent(key, None), 100 * FARM);
  }

  function UnitShare(p: real, units: int): real { units as real * p / 100.0 }

  function UnitFees(p: real, parts: seq<int>): int
  {
    if parts == [] then 0 else UnitFees(p, parts[..|parts| - 1]) + FeeUnits(Percent(p), parts[|parts| - 1])
  }

  function UnitSum(parts: seq<int>): int
  {
    if parts == [] then 0 else UnitSum(parts[..|parts| - 1]) + parts[|parts| - 1]
  }

  predicate PositiveUnits(parts: seq<int>)
  {
    forall i :: 0 <= i < |parts| ==> parts[i] > 0
  }

  predicate Within(fees: int, exact: real, n: nat)
  {
    fees as real - (n * HALF_CENT) as real <= exact <= fees as real + (n * HALF_CENT) as real
  }

  lemma WithinAdd(f: int, x: real, n: nat, g: int, y: real)
    requires Within(f, x, n) && Within(g, y, 1)
    ensures Within(f + g, x + y, n + 1)
  {
  }

  lemma OneWithin(p: real, units: int)
    requires p >= 0.0 && units > 0
    ensures Within(FeeUnits(Percent(p), units), UnitShare(p, units), 1)
  {
    FeeUnitsNear(p, units);
  }

  lemma ShareOfSum(p: real, a: int, b: int)
    ensures UnitShare(p, a + b) == UnitShare(p, a) + UnitShare(p, b)
  {
    assert (a + b) as real * p == a as real * p + b as real * p;
  }

  lemma PositiveSum(parts: seq<int>)
    requires PositiveUnits(parts)
    ensures UnitSum(parts) >= 0 && (parts != [] ==> UnitSum(parts) > 0)
  {
  }

  /** Escrow fees on n parts are together within n / 2 cents of the exact percentage of their sum. */
  lemma {:induction false} UnitFeesNear(p: real, parts: seq<int>)
    requires p >= 0.0 && PositiveUnits(parts)
    ensures Within(UnitFees(p, parts), UnitShare(p, UnitSum(parts)), |parts|)
  {
    if parts == [] {
      assert UnitShare(p, 0) == 0.0;
    } else {
      var before, last := parts[..|parts| - 1], parts[|parts| - 1];
      UnitFeesNear(p, before);
      OneWithin(p, last);
      WithinAdd(UnitFees(p, before), UnitShare(p, UnitSum(before)), |before|, FeeUnits(Percent(p), last), UnitShare(p, last));
      ShareOfSum(p, UnitSum(before), last);
    }
  }

  lemma WithinBoth(f: int, g: int, x: real, n: nat)
    requires Within(f, x, n) && Within(g, x, 1)
    ensures -(n + 1) * HALF_CENT <= f - g <= (n + 1) * HALF_CENT
  {
    assert f as real - g as real == (f - g) as real;
  }

  /** Escrow fees on n parts of an amount are together within (n + 1) / 2 cents of the fee on the whole. */
  lemma UnitSplittingBound(p: real, parts: seq<int>)
    requires p >= 0.0 && PositiveUnits(parts) && parts != []
    ensures var apart := UnitFees(p, parts) - FeeUnits(Percent(p), UnitSum(parts));
            -(|parts| as int + 1) * HALF_CENT <= apart <= (|parts| as int + 1) * HALF_CENT
  {
    UnitFeesNear(p, parts);
    PositiveSum(parts);
    OneWithin(p, UnitSum(parts));
    WithinBoth(UnitFees(p, parts), FeeUnits(Percent(p), UnitSum(parts)), UnitShare(p, UnitSum(parts)), |parts|);
  }

  // ---------- splitting ----------

  function PartFees(rule: FeeRule, parts: seq<real>, dp: nat): int
  {
    if parts == [] then 0
    else PartFees(rule, parts[..|parts| - 1], dp) + FeeSteps(rule, parts[|parts| - 1], dp)
  }

  function Sum(parts: seq<real>): real
  {
    if parts == [] then 0.0 else Sum(parts[..|parts| - 1]) + parts[|parts| - 1]
  }

  /** The exact fee of a pure percentage, in steps. */
  function Share(p: real, amount: real, dp: nat): real
  {
    amount * p / 100.0 * Scale(dp) as real
  }

  lemma ShareAdd(p: real, a: real, b: real, dp: nat)
    ensures Share(p, a + b, dp) == Share(p, a, dp) + Share(p, b, dp)
  {
  }

  lemma FeeNearShare(p: real, amount: real, dp: nat)
    requires p >= 0.0 && amount > 0.0
    ensures Share(p, amount, dp) - 0.5 <= FeeSteps(Percent(p), amount, dp) as real <= Share(p, amount, dp) + 0.5
  {
  }

  predicate Positive(parts: seq<real>)
  {
    forall i :: 0 <= i < |parts| ==> parts[i] > 0.0
  }

  lemma {:induction false} SumPositive(parts: seq<real>)
    requires Positive(parts)
    ensures Sum(parts) >= 0.0 && (parts != [] ==> Sum(parts) > 0.0)
  {
    if parts == [] {
    } else {
      SumPositive(parts[..|parts| - 1]);
    }
  }

  lemma {:induction false} PartsNearShare(p: real, parts: seq<real>, dp: nat)
    requires p >= 0.0 && Positive(parts)
    ensures Share(p, Sum(parts), dp) - |parts| as real / 2.0 <= PartFees(Percent(p), parts, dp) as real
    ensures PartFees(Percent(p), parts, dp) as real <= Share(p, Sum(parts), dp) + |parts| as real / 2.0
  {
    if parts == [] {
      assert Share(p, 0.0, dp) == 0.0;
    } else {
      var n := |parts| - 1;
      PartsNearShare(p, parts[..n], dp);
      FeeNearShare(p, parts[n], dp);
      ShareAdd(p, Sum(parts[..n]), parts[n], dp);
    }
  }

  /** Paying in n parts changes the total fee by at most (n + 1) / 2 steps, so the payee is at most that far from a single release. */
  lemma SplittingBound(p: real, parts: seq<real>, dp: nat)
    requires p >= 0.0 && Positive(parts)
    ensures var apart := PartFees(Percent(p), parts, dp) - FeeSteps(Percent(p), Sum(parts), dp);
            -(|parts| as int + 1) <= 2 * apart <= |parts| as int + 1
  {
    PartsNearShare(p, parts, dp);
    SumPositive(parts);
    if parts != [] {
      FeeNearShare(p, Sum(parts), dp);
    }
  }
}
