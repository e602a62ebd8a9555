/**
 * The pure helpers of backend/app/services/data_fetcher.py: Yahoo symbol
 * normalisation, simple moving averages, relative strength against a
 * benchmark and the cross-sectional RS percentile. Fetching, caching and the
 * wall clock are not part of this module: series arrive as parameters.
 */
module DataFetcher {
  import opened Wrappers
  import opened Series

  predicate EndsWith(s: string, suffix: string) {
    |suffix| <= |s| && s[|s| - |suffix|..] == suffix
  }

  const NseSuffix: string := ".NS"

  /** `_get_yf_symbol`: appends the NSE suffix unless the symbol already carries it. */
  function YfSymbol(symbol: string): (r: string)
    ensures EndsWith(r, NseSuffix)
    ensures symbol <= r
    ensures EndsWith(symbol, NseSuffix) <==> r == symbol
    ensures !EndsWith(symbol, NseSuffix) ==> r == symbol + NseSuffix
  {
    if !EndsWith(symbol, NseSuffix) then symbol + NseSuffix else symbol
  }

  /** Normalising twice changes nothing. */
  lemma YfSymbolIdempotent(symbol: string)
    ensures YfSymbol(YfSymbol(symbol)) == YfSymbol(symbol)
  {
  }

  /** The value of `rolling(period).mean()` at position `i`: the mean of the `period` values ending at `i`. */
  function SmaAt(xs: seq<real>, period: nat, i: nat): real
    requires 1 <= period && period - 1 <= i < |xs|
  {
    Mean(xs[i + 1 - period..i + 1])
  }

  /** A moving average lies between the smallest and the largest value of its window. */
  lemma SmaBetween(xs: seq<real>, period: nat, i: nat)
    requires 1 <= period && period - 1 <= i < |xs|
    ensures Min(xs[i + 1 - period..i + 1]) <= SmaAt(xs, period, i) <= Max(xs[i + 1 - period..i + 1])
  {
    MeanBetween(xs[i + 1 - period..i + 1]);
  }

  /** A moving average of non-negative values (a volume SMA) is non-negative. */
  lemma SmaNonNegative(xs: seq<real>, period: nat, i: nat)
    requires 1 <= period && period - 1 <= i < |xs|
    requires forall k :: 0 <= k < |xs| ==> 0.0 <= xs[k]
    ensures 0.0 <= SmaAt(xs, period, i)
  {
    var w := xs[i + 1 - period..i + 1];
    assert forall k :: 0 <= k < |w| ==> w[k] == xs[i + 1 - period + k];
    MeanNonNegative(w);
  }

  /**
   * `calculate_sma`: the whole rolling-mean series. Positions before the first
   * full window are pandas NaN, here `None`.
   */
  function Sma(xs: seq<real>, period: nat): (r: seq<Option<real>>)
    requires 1 <= period
    ensures |r| == |xs|
    ensures forall i :: 0 <= i < |xs| ==> (r[i].Some? <==> i + 1 >= period)
    ensures forall i :: 0 <= i < |xs| && i + 1 >= period ==>
              r[i].value == Sum(xs[i + 1 - period..i + 1]) / (period as real)
  {
    seq(|xs|, i requires 0 <= i < |xs| => if i + 1 >= period then Some(SmaAt(xs, period, i)) else None)
  }

  /** Percentage change of a close series over `period` bars: `(close[-1] / close[-period] - 1) * 100`. */
  function PeriodReturn(bars: seq<Bar>, period: nat): real
    requires 1 <= period <= |bars|
    requires ValidBars(bars)
  {
    (bars[|bars| - 1].close / bars[|bars| - period].close - 1.0) * 100.0
  }

  const RsPeriod: nat := 252

  /**
   * `calculate_relative_strength`: the stock's return minus the benchmark's,
   * or 0 when either series is too short. The source's separate branch for a
   * zero benchmark return gives the same difference.
   */
  function RelativeStrength(stock: seq<Bar>, benchmark: seq<Bar>, period: nat): (rs: real)
    requires 1 <= period
    requires ValidBars(stock) && ValidBars(benchmark)
    ensures |stock| < period || |benchmark| < period ==> rs == 0.0
    ensures |stock| >= period && |benchmark| >= period ==>
              rs == PeriodReturn(stock, period) - PeriodReturn(benchmark, period)
  {
    if |stock| < period || |benchmark| < period then 0.0
    else
      var stockReturn := PeriodReturn(stock, period);
      var benchmarkReturn := PeriodReturn(benchmark, period);
      if benchmarkReturn == 0.0 then stockReturn
      else stockReturn - benchmarkReturn
  }

  /** Number of values strictly below `x`. */
  function CountBelow(xs: seq<real>, x: real): (c: nat)
    ensures c <= |xs|
  {
    if xs == [] then 0
    else CountBelow(xs[..|xs| - 1], x) + (if xs[|xs| - 1] < x then 1 else 0)
  }

  /** A larger value has at least as many values below it. */
  lemma {:induction false} CountBelowMonotone(xs: seq<real>, x: real, y: real)
    requires x <= y
    ensures CountBelow(xs, x) <= CountBelow(xs, y)
  {
    if xs != [] {
      CountBelowMonotone(xs[..|xs| - 1], x, y);
    }
  }

  /** The percentile of a relative strength among a universe of them; 50 for an empty universe. */
  function Percentile(universe: seq<real>, x: real): real {
    if |universe| == 0 then 50.0
    else 100.0 * (CountBelow(universe, x) as real) / (|universe| as real)
  }

  /** A percentile lies in [0, 100]. */
  lemma PercentileBounds(universe: seq<real>, x: real)
    ensures 0.0 <= Percentile(universe, x) <= 100.0
  {
    if |universe| > 0 {
      var c, n := CountBelow(universe, x) as real, |universe| as real;
      assert 0.0 <= c <= n;
      DivideBounds(100.0 * c, n, 0.0, 100.0);
    }
  }

  /** The percentile does not decrease as the stock's relative strength grows. */
  lemma PercentileMonotone(universe: seq<real>, x: real, y: real)
    requires x <= y
    ensures Percentile(universe, x) <= Percentile(universe, y)
  {
    if |universe| > 0 {
      CountBelowMonotone(universe, x, y);
      var cx, cy, n := CountBelow(universe, x) as real, CountBelow(universe, y) as real, |universe| as real;
      assert 100.0 * cx <= 100.0 * cy;
      DivideMonotone(100.0 * cx, 100.0 * cy, n);
    }
  }

  lemma ScaleCommutes(c: real, n: real)
    requires n > 0.0
    ensures c / n * 100.0 == 100.0 * c / n
  {
  }

  lemma DivideMonotone(a: real, b: real, n: real)
    requires a <= b && n > 0.0
    ensures a / n <= b / n
  {
  }

  /** Relative strength of every series of the universe, in iteration order. */
  function UniverseRs(universe: seq<seq<Bar>>, benchmark: seq<Bar>, period: nat): (r: seq<real>)
    requires 1 <= period
    requires ValidBars(benchmark) && forall k :: 0 <= k < |universe| ==> ValidBars(universe[k])
    ensures |r| == |universe|
    ensures forall k :: 0 <= k < |universe| ==> r[k] == RelativeStrength(universe[k], benchmark, period)
  {
    seq(|universe|, k requires 0 <= k < |universe| => RelativeStrength(universe[k], benchmark, period))
  }

  /**
   * `calculate_rs_percentile`: collects the relative strength of every stock of
   * the universe, then counts those strictly below the stock's own.
   */
  method RsPercentile(stock: seq<Bar>, universe: seq<seq<Bar>>, benchmark: seq<Bar>, period: nat)
    returns (percentile: real)
    requires 1 <= period
    requires ValidBars(stock) && ValidBars(benchmark)
    requires forall k :: 0 <= k < |universe| ==> ValidBars(universe[k])
    ensures percentile == Percentile(UniverseRs(universe, benchmark, period),
                                     RelativeStrength(stock, benchmark, period))
    ensures 0.0 <= percentile <= 100.0
    ensures |universe| == 0 ==> percentile == 50.0
  {
    var allRs: seq<real> := [];
    for k := 0 to |universe|
      invariant |allRs| == k
      invariant forall j :: 0 <= j < k ==> allRs[j] == RelativeStrength(universe[j], benchmark, period)
    {
      allRs := allRs + [RelativeStrength(universe[k], benchmark, period)];
    }
    assert allRs == UniverseRs(universe, benchmark, period);
    var stockRs := RelativeStrength(stock, benchmark, period);
    if |allRs| == 0 {
      percentile := 50.0;
    } else {
      var countBelow := 0;
      for k := 0 to |allRs|
        invariant countBelow == CountBelow(allRs[..k], stockRs)
      {
        assert allRs[..k + 1][..k] == allRs[..k];
        if allRs[k] < stockRs {
          countBelow := countBelow + 1;
        }
      }
      assert allRs[..|allRs|] == allRs;
      percentile := (countBelow as real) / (|allRs| as real) * 100.0;
      ScaleCommutes(countBelow as real, |allRs| as real);
    }
    PercentileBounds(allRs, stockRs);
  }
}
