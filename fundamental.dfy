/**
 * backend/app/services/fundamental.py: market-cap classification and the
 * fundamental quality score, six step functions of the provider's info
 * fields whose maxima add up to 100.
 */
module Fundamental {
  import opened Wrappers
  import opened Models

  datatype MarketCapCategory = LargeCap | MidCap | SmallCap

  const LargeCapMin: real := 200_000_000_000.0
  const MidCapMin: real := 50_000_000_000.0

  /** Position of a category on the size scale. */
  function Rank(c: MarketCapCategory): nat {
    match c
    case SmallCap => 0
    case MidCap => 1
    case LargeCap => 2
  }

  /** `_classify_market_cap`. */
  function ClassifyMarketCap(marketCap: real): (c: MarketCapCategory)
    ensures c == LargeCap <==> marketCap >= LargeCapMin
    ensures c == MidCap <==> MidCapMin <= marketCap < LargeCapMin
    ensures c == SmallCap <==> marketCap < MidCapMin
  {
    if marketCap >= LargeCapMin then LargeCap
    else if marketCap >= MidCapMin then MidCap
    else SmallCap
  }

  /** A larger market cap never falls into a smaller category. */
  lemma ClassifyMonotone(x: real, y: real)
    requires x <= y
    ensures Rank(ClassifyMarketCap(x)) <= Rank(ClassifyMarketCap(y))
  {
  }

  /**
   * `data.get(key, default) or default`: a missing key, a null and a zero
   * all read as `default`; any other value is taken as it is.
   */
  function Field(info: Info, key: string, default: real): (x: real)
    ensures x == default <==> key !in info || info[key].None? || info[key] == Some(0.0) || info[key] == Some(default)
    ensures x != default ==> key in info && info[key] == Some(x)
  {
    if key in info && info[key].Some? && info[key].value != 0.0 then info[key].value else default
  }

  /** Earnings growth: 20, 15, 10 or 5 above 25%, 15%, 10% and 0; nothing otherwise. */
  function EarningsPoints(growth: real): (p: nat)
    ensures p <= 20 && p % 5 == 0
    ensures p == 20 <==> growth > 0.25
    ensures p == 0 <==> growth <= 0.0
  {
    if growth > 0.25 then 20
    else if growth > 0.15 then 15
    else if growth > 0.10 then 10
    else if growth > 0.0 then 5
    else 0
  }

  /** Revenue growth: 15, 10 or 5 above 20%, 10% and 0. */
  function RevenuePoints(growth: real): (p: nat)
    ensures p <= 15 && p % 5 == 0
    ensures p == 15 <==> growth > 0.20
    ensures p == 0 <==> growth <= 0.0
  {
    if growth > 0.20 then 15
    else if growth > 0.10 then 10
    else if growth > 0.0 then 5
    else 0
  }

  /** Return on equity: 20, 15, 10 or 5 above 20%, 15%, 10% and 0. */
  function RoePoints(roe: real): (p: nat)
    ensures p <= 20 && p % 5 == 0
    ensures p == 20 <==> roe > 0.20
    ensures p == 0 <==> roe <= 0.0
  {
    if roe > 0.20 then 20
    else if roe > 0.15 then 15
    else if roe > 0.10 then 10
    else if roe > 0.0 then 5
    else 0
  }

  /** Debt to equity, lower is better: 15, 10 or 5 below 30, 50 and 100. */
  function DebtPoints(ratio: real): (p: nat)
    ensures p <= 15 && p % 5 == 0
    ensures p == 15 <==> ratio < 30.0
    ensures p == 0 <==> ratio >= 100.0
  {
    if ratio < 30.0 then 15
    else if ratio < 50.0 then 10
    else if ratio < 100.0 then 5
    else 0
  }

  /** Profit margin: 15, 10 or 5 above 15%, 10% and 5%. */
  function MarginPoints(margin: real): (p: nat)
    ensures p <= 15 && p % 5 == 0
    ensures p == 15 <==> margin > 0.15
    ensures p == 0 <==> margin <= 0.05
  {
    if margin > 0.15 then 15
    else if margin > 0.10 then 10
    else if margin > 0.05 then 5
    else 0
  }

  /** Current ratio: 15, 10 or 5 above 2, 1.5 and 1. */
  function CurrentRatioPoints(ratio: real): (p: nat)
    ensures p <= 15 && p % 5 == 0
    ensures p == 15 <==> ratio > 2.0
    ensures p == 0 <==> ratio <= 1.0
  {
    if ratio > 2.0 then 15
    else if ratio > 1.5 then 10
    else if ratio > 1.0 then 5
    else 0
  }

  /** Five of the components grow with their input and debt to equity shrinks with it. */
  lemma ComponentsMonotone(x: real, y: real)
    requires x <= y
    ensures EarningsPoints(x) <= EarningsPoints(y)
    ensures RevenuePoints(x) <= RevenuePoints(y)
    ensures RoePoints(x) <= RoePoints(y)
    ensures MarginPoints(x) <= MarginPoints(y)
    ensures CurrentRatioPoints(x) <= CurrentRatioPoints(y)
    ensures DebtPoints(x) >= DebtPoints(y)
  {
  }

  /** A value on a threshold falls to the tier below it. */
  lemma ThresholdsAreStrict()
    ensures EarningsPoints(0.25) == 15 && EarningsPoints(0.15) == 10 && EarningsPoints(0.10) == 5
    ensures EarningsPoints(0.0) == 0
    ensures RevenuePoints(0.20) == 10 && RevenuePoints(0.10) == 5 && RevenuePoints(0.0) == 0
    ensures RoePoints(0.20) == 15 && RoePoints(0.15) == 10 && RoePoints(0.10) == 5 && RoePoints(0.0) == 0
    ensures DebtPoints(30.0) == 10 && DebtPoints(50.0) == 5 && DebtPoints(100.0) == 0
    ensures MarginPoints(0.15) == 10 && MarginPoints(0.10) == 5 && MarginPoints(0.05) == 0
    ensures CurrentRatioPoints(2.0) == 10 && CurrentRatioPoints(1.5) == 5 && CurrentRatioPoints(1.0) == 0
  {
  }

  /** The six components of the quality score, read from the info fields with their defaults. */
  function RawQualityScore(info: Info): nat {
    EarningsPoints(Field(info, "earningsGrowth", 0.0))
    + RevenuePoints(Field(info, "revenueGrowth", 0.0))
    + RoePoints(Field(info, "returnOnEquity", 0.0))
    + DebtPoints(Field(info, "debtToEquity", 100.0))
    + MarginPoints(Field(info, "profitMargins", 0.0))
    + CurrentRatioPoints(Field(info, "currentRatio", 0.0))
  }

  function MinNat(x: nat, y: nat): nat { if x <= y then x else y }

  /** `_calculate_quality_score`: the components' sum, capped at 100. */
  function QualityScore(info: Info): (s: nat)
    ensures s <= 100
  {
    MinNat(RawQualityScore(info), 100)
  }

  lemma SumOfMultiples(x: nat, y: nat)
    requires x % 5 == 0 && y % 5 == 0
    ensures (x + y) % 5 == 0
  {
  }

  /**
   * The component maxima add up to exactly 100, so the cap never binds; the
   * score is a multiple of 5, and it is 100 exactly when every component is
   * at its top tier.
   */
  lemma QualityScoreBounds(info: Info)
    ensures QualityScore(info) == RawQualityScore(info)
    ensures QualityScore(info) % 5 == 0
    ensures QualityScore(info) == 100 <==>
              && Field(info, "earningsGrowth", 0.0) > 0.25
              && Field(info, "revenueGrowth", 0.0) > 0.20
              && Field(info, "returnOnEquity", 0.0) > 0.20
              && Field(info, "debtToEquity", 100.0) < 30.0
              && Field(info, "profitMargins", 0.0) > 0.15
              && Field(info, "currentRatio", 0.0) > 2.0
  {
    var a := EarningsPoints(Field(info, "earningsGrowth", 0.0));
    var b := RevenuePoints(Field(info, "revenueGrowth", 0.0));
    var c := RoePoints(Field(info, "returnOnEquity", 0.0));
    var d := DebtPoints(Field(info, "debtToEquity", 100.0));
    var e := MarginPoints(Field(info, "profitMargins", 0.0));
    var f := CurrentRatioPoints(Field(info, "currentRatio", 0.0));
    assert RawQualityScore(info) == a + b + c + d + e + f;
    SumOfMultiples(a, b);
    SumOfMultiples(a + b, c);
    SumOfMultiples(a + b + c, d);
    SumOfMultiples(a + b + c + d, e);
    SumOfMultiples(a + b + c + d + e, f);
  }

  /** Missing, null or zero fields earn nothing: an info with none of the six fields set scores 0. */
  lemma MissingFieldsScoreZero(info: Info)
    requires forall key :: key in ["earningsGrowth", "revenueGrowth", "returnOnEquity", "debtToEquity",
                                   "profitMargins", "currentRatio"] ==>
               key !in info || info[key].None? || info[key] == Some(0.0)
    ensures QualityScore(info) == 0
  {
    assert "earningsGrowth" in ["earningsGrowth", "revenueGrowth", "returnOnEquity", "debtToEquity",
                                "profitMargins", "currentRatio"];
    assert "debtToEquity" in ["earningsGrowth", "revenueGrowth", "returnOnEquity", "debtToEquity",
                              "profitMargins", "currentRatio"];
    assert "revenueGrowth" in ["earningsGrowth", "revenueGrowth", "returnOnEquity", "debtToEquity",
                               "profitMargins", "currentRatio"];
    assert "returnOnEquity" in ["earningsGrowth", "revenueGrowth", "returnOnEquity", "debtToEquity",
                                "profitMargins", "currentRatio"];
    assert "profitMargins" in ["earningsGrowth", "revenueGrowth", "returnOnEquity", "debtToEquity",
                               "profitMargins", "currentRatio"];
    assert "currentRatio" in ["earningsGrowth", "revenueGrowth", "returnOnEquity", "debtToEquity",
                              "profitMargins", "currentRatio"];
  }

  /** A zero debt to equity reads as the default 100 and earns nothing, like a missing one. */
  lemma ZeroDebtEarnsNothing(info: Info)
    requires "debtToEquity" !in info || info["debtToEquity"].None? || info["debtToEquity"] == Some(0.0)
    ensures DebtPoints(Field(info, "debtToEquity", 100.0)) == 0
  {
  }

  /** `_calculate_quality_score`, accumulating through the six if-ladders. */
  method CalculateQualityScore(info: Info) returns (score: int)
    ensures score == QualityScore(info)
    ensures 0 <= score <= 100 && score % 5 == 0
  {
    score := 0;
    var earningsGrowth := Field(info, "earningsGrowth", 0.0);
    if earningsGrowth > 0.25 {
      score := score + 20;
    } else if earningsGrowth > 0.15 {
      score := score + 15;
    } else if earningsGrowth > 0.10 {
      score := score + 10;
    } else if earningsGrowth > 0.0 {
      score := score + 5;
    }
    assert score == EarningsPoints(earningsGrowth);
    var revenueGrowth := Field(info, "revenueGrowth", 0.0);
    if revenueGrowth > 0.20 {
      score := score + 15;
    } else if revenueGrowth > 0.10 {
      score := score + 10;
    } else if revenueGrowth > 0.0 {
      score := score + 5;
    }
    assert score == EarningsPoints(earningsGrowth) + RevenuePoints(revenueGrowth);
    var roe := Field(info, "returnOnEquity", 0.0);
    if roe > 0.20 {
      score := score + 20;
    } else if roe > 0.15 {
      score := score + 15;
    } else if roe > 0.10 {
      score := score + 10;
    } else if roe > 0.0 {
      score := score + 5;
    }
    assert score == EarningsPoints(earningsGrowth) + RevenuePoints(revenueGrowth) + RoePoints(roe);
    var deRatio := Field(info, "debtToEquity", 100.0);
    if deRatio < 30.0 {
      score := score + 15;
    } else if deRatio < 50.0 {
      score := score + 10;
    } else if deRatio < 100.0 {
      score := score + 5;
    }
    assert score == EarningsPoints(earningsGrowth) + RevenuePoints(revenueGrowth) + RoePoints(roe)
                    + DebtPoints(deRatio);
    var profitMargin := Field(info, "profitMargins", 0.0);
    if profitMargin > 0.15 {
      score := score + 15;
    } else if profitMargin > 0.10 {
      score := score + 10;
    } else if profitMargin > 0.05 {
      score := score + 5;
    }
    assert score == EarningsPoints(earningsGrowth) + RevenuePoints(revenueGrowth) + RoePoints(roe)
                    + DebtPoints(deRatio) + MarginPoints(profitMargin);
    var currentRatio := Field(info, "currentRatio", 0.0);
    if currentRatio > 2.0 {
      score := score + 15;
    } else if currentRatio > 1.5 {
      score := score + 10;
    } else if currentRatio > 1.0 {
      score := score + 5;
    }
    assert score == RawQualityScore(info);
    score := MinNat(score, 100);
    QualityScoreBounds(info);
  }
}
