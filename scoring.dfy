/** The stock score of `calculate_score`: five banded sub-scores summed and
    capped at 100. The sub-scores are defined here from their banding
    tables; the method `CalculateScore` follows the branches of the
    source one by one and is proved to compute the same total. */
module Scoring {
  import opened Fundamentals
  import opened Tiers

  // Valuation: P/E below 10, 20, 30; any other number; not a number.
  const PeTiers: seq<Tier> := [Tier(10.0, 25), Tier(20.0, 20), Tier(30.0, 10)]
  const PeHigh := 5
  const PeMissing := 10

  // Profitability: net margin above 15%, 8%, 3%; any other margin; no margin.
  const MarginTiers: seq<Tier> := [Tier(0.15, 25), Tier(0.08, 20), Tier(0.03, 10)]
  const MarginLow := 5
  const MarginMissing := 0

  // Financial strength: positive net income, or anything else.
  const Profitable := 10
  const NotProfitable := 5

  // Growth: revenue above 10e9, 2e9, 500e6; any other int; not an int.
  const RevenueTiers: seq<Tier> :=
    [Tier(10_000_000_000.0, 20), Tier(2_000_000_000.0, 15), Tier(500_000_000.0, 10)]
  const RevenueSmall := 5
  const RevenueMissing := 5

  // Market opportunity: market cap below 2e9, 10e9; any other int; not an int.
  const CapTiers: seq<Tier> := [Tier(2_000_000_000.0, 15), Tier(10_000_000_000.0, 10)]
  const CapLarge := 5
  const CapMissing := 5

  // The range every total falls in, and the cap applied to it.
  const MinTotal := 20
  const MaxTotal := 95
  const Cap := 100

  // Python's `int / int` rounds the exact quotient to the nearest double and
  // raises OverflowError when that would pass the largest double, that is
  // for every quotient from 2^1024 - 2^970 on.
  const FloatOverflow: real := 179769313486231580793728971405303415079934132710037826936173778980444968292764750946649017977587207096330286416692887910946555547851940402630657488671505820681908902000708383676273854845817711531764475730270069855571366959622842914819860834936475292719074168444365510704342711559699508093042880177904174497792.0
  const OverflowText := "N/A (integer division result too large for a float)"

  /** Valuation points for a P/E ratio. */
  function Valuation(pe: Value): (r: int)
    ensures 5 <= r <= 25
    ensures !pe.IsNumber() ==> r == PeMissing
  {
    if pe.IsNumber() then
      PointsBelowBounds(pe.AsReal(), PeTiers, PeHigh);
      PointsBelow(pe.AsReal(), PeTiers, PeHigh)
    else PeMissing
  }

  /** Net income divided by revenue, computed exactly. */
  function Margin(netIncome: int, revenue: int): (m: real)
    requires revenue > 0
    ensures m * revenue as real == netIncome as real
    ensures m > 0.0 <==> netIncome > 0
  {
    netIncome as real / revenue as real
  }

  /** Profitability points for net income and revenue. */
  function Profitability(netIncome: Value, revenue: Value): (r: int)
    ensures 0 <= r <= 25
    // points are awarded exactly when both are positive ints
    ensures r > 0 <==> netIncome.IsPositiveInt() && revenue.IsPositiveInt()
  {
    if netIncome.IsPositiveInt() && revenue.IsPositiveInt() then
      PointsAboveBounds(Margin(netIncome.i, revenue.i), MarginTiers, MarginLow);
      PointsAbove(Margin(netIncome.i, revenue.i), MarginTiers, MarginLow)
    else MarginMissing
  }

  /** Financial-strength points for net income. */
  function Strength(netIncome: Value): (r: int)
    ensures r == Profitable <==> netIncome.IsPositiveInt()
    ensures r == NotProfitable <==> !netIncome.IsPositiveInt()
  {
    if netIncome.IsPositiveInt() then Profitable else NotProfitable
  }

  /** Growth points for revenue. */
  function Growth(revenue: Value): (r: int)
    ensures 5 <= r <= 20
    ensures !revenue.IntV? ==> r == RevenueMissing
  {
    if revenue.IntV? then
      PointsAboveBounds(revenue.i as real, RevenueTiers, RevenueSmall);
      PointsAbove(revenue.i as real, RevenueTiers, RevenueSmall)
    else RevenueMissing
  }

  /** Market-opportunity points for market capitalisation. */
  function Opportunity(marketCap: Value): (r: int)
    ensures 5 <= r <= 15
    ensures !marketCap.IntV? ==> r == CapMissing
  {
    if marketCap.IntV? then
      PointsBelowBounds(marketCap.i as real, CapTiers, CapLarge);
      PointsBelow(marketCap.i as real, CapTiers, CapLarge)
    else CapMissing
  }

  /** The margin that `calculate_score` computes for s cannot be
      represented as a float. */
  predicate Overflows(s: Summary) {
    && s.netIncome.IsPositiveInt() && s.revenue.IsPositiveInt()
    && Margin(s.netIncome.i, s.revenue.i) >= FloatOverflow
  }

  /** The sum of the five sub-scores. */
  function Total(s: Summary): (t: int)
    ensures MinTotal <= t <= MaxTotal
  {
    Valuation(s.peRatio) + Profitability(s.netIncome, s.revenue) + Strength(s.netIncome)
      + Growth(s.revenue) + Opportunity(s.marketCap)
  }

  /** The scorer as written: an accumulator increased branch by branch,
      then `min(round(score), 100)`. The one exception a `Summary` can raise
      is the float overflow of the margin division, which ends in the
      "N/A (…)" text; every other summary gets its total, which the cap
      never changes. */
  method CalculateScore(s: Summary) returns (r: ScoreResult)
    ensures r.Score? <==> !Overflows(s)
    ensures r.Score? ==> r.points == Total(s) && MinTotal <= r.points <= MaxTotal < Cap
    ensures r.Unavailable? ==> r.text == OverflowText
  {
    var score := 0;
    var pe, cap, netIncome, revenue := s.peRatio, s.marketCap, s.netIncome, s.revenue;

    // valuation
    if pe.IsNumber() {
      var x := pe.AsReal();
      ValuationTiers(pe);
      if x < 10.0 {
        score := score + 25;
      } else if x < 20.0 {
        score := score + 20;
      } else if x < 30.0 {
        score := score + 10;
      } else {
        score := score + 5;
      }
    } else {
      score := score + 10;
    }
    assert score == Valuation(pe);

    // profitability
    if netIncome.IsPositiveInt() && revenue.IsPositiveInt() {
      var margin := Margin(netIncome.i, revenue.i);
      if margin >= FloatOverflow {
        // the division raises; the except clause turns it into text
        return Unavailable(OverflowText);
      }
      ProfitabilityTiers(netIncome.i, revenue.i);
      if margin > 0.15 {
        score := score + 25;
      } else if margin > 0.08 {
        score := score + 20;
      } else if margin > 0.03 {
        score := score + 10;
      } else {
        score := score + 5;
      }
    } else {
      score := score + 0;
    }
    assert score == Valuation(pe) + Profitability(netIncome, revenue);

    // financial strength
    if netIncome.IsPositiveInt() {
      score := score + 10;
    } else {
      score := score + 5;
    }
    assert score == Valuation(pe) + Profitability(netIncome, revenue) + Strength(netIncome);

    // growth
    if revenue.IntV? {
      GrowthTiers(revenue.i);
      if revenue.i > 10_000_000_000 {
        score := score + 20;
      } else if revenue.i > 2_000_000_000 {
        score := score + 15;
      } else if revenue.i > 500_000_000 {
        score := score + 10;
      } else {
        score := score + 5;
      }
    } else {
      score := score + 5;
    }
    assert score == Valuation(pe) + Profitability(netIncome, revenue) + Strength(netIncome) + Growth(revenue);

    // market opportunity
    if cap.IntV? {
      OpportunityTiers(cap.i);
      if cap.i < 2_000_000_000 {
        score := score + 15;
      } else if cap.i < 10_000_000_000 {
        score := score + 10;
      } else {
        score := score + 5;
      }
    } else {
      score := score + 5;
    }

    // round() of an int is the int itself
    r := Score(if Cap < score then Cap else score);
  }

  /** The valuation bands of a numeric P/E. An int and a float with the
      same value score alike. */
  lemma ValuationTiers(pe: Value)
    requires pe.IsNumber()
    ensures pe.AsReal() < 10.0 ==> Valuation(pe) == 25
    ensures 10.0 <= pe.AsReal() < 20.0 ==> Valuation(pe) == 20
    ensures 20.0 <= pe.AsReal() < 30.0 ==> Valuation(pe) == 10
    ensures 30.0 <= pe.AsReal() ==> Valuation(pe) == 5
  {
  }

  /** An int P/E and a float P/E of the same value earn the same points. */
  lemma ValuationIntFloat(n: int)
    ensures Valuation(IntV(n)) == Valuation(FloatV(n as real))
  {
  }

  /** The profitability bands, with the margin comparisons written as the
      cross-multiplied integer comparisons they are equivalent to. */
  lemma ProfitabilityTiers(netIncome: int, revenue: int)
    requires netIncome > 0 && revenue > 0
    ensures Margin(netIncome, revenue) > 0.15 <==> 100 * netIncome > 15 * revenue
    ensures Margin(netIncome, revenue) > 0.08 <==> 100 * netIncome > 8 * revenue
    ensures Margin(netIncome, revenue) > 0.03 <==> 100 * netIncome > 3 * revenue
    ensures 100 * netIncome > 15 * revenue ==> Profitability(IntV(netIncome), IntV(revenue)) == 25
    ensures 8 * revenue < 100 * netIncome <= 15 * revenue ==> Profitability(IntV(netIncome), IntV(revenue)) == 20
    ensures 3 * revenue < 100 * netIncome <= 8 * revenue ==> Profitability(IntV(netIncome), IntV(revenue)) == 10
    ensures 100 * netIncome <= 3 * revenue ==> Profitability(IntV(netIncome), IntV(revenue)) == 5
  {
    var m := Margin(netIncome, revenue);
    var n, d := netIncome as real, revenue as real;
    assert m * d == n;
    MarginAbove(m, d, n, 0.15);
    MarginAbove(m, d, n, 0.08);
    MarginAbove(m, d, n, 0.03);
    assert MarginTiers[0].bound == 0.15 && MarginTiers[1].bound == 0.08 && MarginTiers[2].bound == 0.03;
  }

  /** For a positive denominator, a quotient exceeds t exactly when the
      numerator exceeds t times the denominator. */
  lemma MarginAbove(m: real, d: real, n: real, t: real)
    requires d > 0.0 && m * d == n
    ensures m > t <==> n > t * d
  {
    if m > t {
      assert m * d > t * d;
    } else {
      assert m * d <= t * d;
    }
  }

  /** The growth bands of an int revenue. */
  lemma GrowthTiers(revenue: int)
    ensures revenue > 10_000_000_000 ==> Growth(IntV(revenue)) == 20
    ensures 2_000_000_000 < revenue <= 10_000_000_000 ==> Growth(IntV(revenue)) == 15
    ensures 500_000_000 < revenue <= 2_000_000_000 ==> Growth(IntV(revenue)) == 10
    ensures revenue <= 500_000_000 ==> Growth(IntV(revenue)) == 5
  {
  }

  /** The market-opportunity bands of an int market cap. */
  lemma OpportunityTiers(marketCap: int)
    ensures marketCap < 2_000_000_000 ==> Opportunity(IntV(marketCap)) == 15
    ensures 2_000_000_000 <= marketCap < 10_000_000_000 ==> Opportunity(IntV(marketCap)) == 10
    ensures 10_000_000_000 <= marketCap ==> Opportunity(IntV(marketCap)) == 5
  {
  }

  /** A higher P/E never earns more valuation points. */
  lemma ValuationNonIncreasing(pe1: Value, pe2: Value)
    requires pe1.IsNumber() && pe2.IsNumber() && pe1.AsReal() <= pe2.AsReal()
    ensures Valuation(pe1) >= Valuation(pe2)
  {
    PointsBelowAntitone(pe1.AsReal(), pe2.AsReal(), PeTiers, PeHigh);
  }

  /** A higher margin never earns fewer profitability points, whatever the
      sign of the net incomes: a loss or a zero earns none. */
  lemma ProfitabilityNonDecreasing(netIncome1: int, revenue1: int, netIncome2: int, revenue2: int)
    requires revenue1 > 0 && revenue2 > 0
    requires Margin(netIncome1, revenue1) <= Margin(netIncome2, revenue2)
    ensures Profitability(IntV(netIncome1), IntV(revenue1)) <= Profitability(IntV(netIncome2), IntV(revenue2))
  {
    if netIncome1 > 0 {
      assert netIncome2 > 0;
      PointsAboveMonotone(Margin(netIncome1, revenue1), Margin(netIncome2, revenue2), MarginTiers, MarginLow);
    }
  }

  /** A larger int revenue never earns fewer growth points. */
  lemma GrowthNonDecreasing(revenue1: int, revenue2: int)
    requires revenue1 <= revenue2
    ensures Growth(IntV(revenue1)) <= Growth(IntV(revenue2))
  {
    PointsAboveMonotone(revenue1 as real, revenue2 as real, RevenueTiers, RevenueSmall);
  }

  /** A larger int market cap never earns more opportunity points. */
  lemma OpportunityNonIncreasing(marketCap1: int, marketCap2: int)
    requires marketCap1 <= marketCap2
    ensures Opportunity(IntV(marketCap1)) >= Opportunity(IntV(marketCap2))
  {
    PointsBelowAntitone(marketCap1 as real, marketCap2 as real, CapTiers, CapLarge);
  }

  /** Profitability points imply the full financial-strength points. */
  lemma ProfitableIsStrong(netIncome: Value, revenue: Value)
    ensures Profitability(netIncome, revenue) > 0 ==> Strength(netIncome) == Profitable
  {
  }

  /** Both ends of the range of totals are reached. */
  lemma TotalBoundsAttained()
    ensures exists s :: Total(s) == MinTotal
    ensures exists s :: Total(s) == MaxTotal
  {
    var low := Summary(Other, FloatV(40.0), Other, Other);
    ValuationTiers(low.peRatio);
    assert Valuation(low.peRatio) == 5 && Profitability(low.netIncome, low.revenue) == 0;
    assert Total(low) == MinTotal;
    var high := Summary(IntV(1_000_000_000), IntV(5), IntV(11_000_000_000), IntV(2_000_000_000));
    ValuationTiers(high.peRatio);
    ProfitabilityTiers(2_000_000_000, 11_000_000_000);
    GrowthTiers(11_000_000_000);
    OpportunityTiers(1_000_000_000);
    assert Valuation(high.peRatio) == 25;
    assert Profitability(high.netIncome, high.revenue) == 25;
    assert Growth(high.revenue) == 20 && Opportunity(high.marketCap) == 15;
    assert Total(high) == MaxTotal;
  }

  /** The overflow needs a net income beyond about 1.8e308, so any figure a
      company reports is scored. */
  lemma OverflowNeedsHugeIncome(s: Summary)
    requires Overflows(s)
    ensures s.netIncome.i as real >= FloatOverflow
  {
    var m := Margin(s.netIncome.i, s.revenue.i);
    var d := s.revenue.i as real;
    assert m * d >= m * 1.0;
  }

  /** The overflow path is reachable: a net income of 10^309 against a
      revenue of 1 raises. */
  lemma OverflowReachable()
    ensures exists s :: Overflows(s)
  {
    var huge := 1000000000000000000000000000000000000000000000000000000000000000000000000000000000000000000000000000000000000000000000000000000000000000000000000000000000000000000000000000000000000000000000000000000000000000000000000000000000000000000000000000000000000000000000000000000000000000000000000000000000000000000000;
    var s := Summary(Other, Other, IntV(1), IntV(huge));
    assert Margin(huge, 1) == huge as real;
    assert Overflows(s);
  }
}
