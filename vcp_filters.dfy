/**
 * The window filters of backend/app/services/vcp_scanner.py: liquidity,
 * uptrend near the 100-bar high, higher lows and 20-bar volume-SMA
 * contraction. Each returns a verdict with the reason of the first failing
 * condition, in the order the source checks them.
 */
module VcpFilters {
  import opened Wrappers
  import opened Series
  import opened Models
  import DataFetcher

  const MinMarketCap: real := 2000000000.0
  const RsPercentileMin: real := 70.0
  const NearPivotMaxPct: real := 7.0
  const VolumeSmaPeriod: nat := 20
  const ComparisonPoints: seq<nat> := [5, 10, 15, 20, 25, 30]

  datatype Reason =
    | MarketCapBelowThreshold
      /** `marketCap` present but null: comparing it raises, and the scan of the stock is abandoned. */
    | MarketCapNotANumber
    | PriceBelowSma20
    | RsPercentileBelowMin
    | InsufficientData
    | AlreadyBrokenOut
    | TooFarFromPivot
    | HigherLow10Failed
    | HigherLow20Failed
    | HigherLow30Failed

  datatype Check = Passed | Failed(reason: Reason)

  function LastClose(bars: seq<Bar>): real
    requires |bars| > 0
  {
    bars[|bars| - 1].close
  }

  /** Mean of the closes of the last `period` bars: `close.rolling(period).mean().iloc[-1]`. */
  function CloseSma(bars: seq<Bar>, period: nat): real
    requires 1 <= period <= |bars|
  {
    DataFetcher.SmaAt(Closes(bars), period, |bars| - 1)
  }

  /** Python truthiness of the optional info dict: present and non-empty. */
  predicate InfoPresent(info: Option<Info>) {
    info.Some? && |info.value| > 0
  }

  /** `info.get('marketCap', 0)`: a missing key reads as 0, a null as `None`. */
  function MarketCapField(info: Info): Option<real> {
    if "marketCap" in info then info["marketCap"] else Some(0.0)
  }

  /** The market-cap condition holds: no info to judge by, or a market cap at or above the minimum. */
  predicate MarketCapAccepted(info: Option<Info>) {
    !InfoPresent(info) || (MarketCapField(info.value).Some? && MarketCapField(info.value).value >= MinMarketCap)
  }

  /** `check_liquidity_filter`. */
  function LiquidityFilter(bars: seq<Bar>, info: Option<Info>, rsPercentile: real): (r: Check)
    requires |bars| >= 20
    ensures r.Passed? <==>
              MarketCapAccepted(info) && LastClose(bars) > CloseSma(bars, 20) && rsPercentile >= RsPercentileMin
    ensures r in {Failed(MarketCapBelowThreshold), Failed(MarketCapNotANumber)} <==> !MarketCapAccepted(info)
    ensures r == Failed(MarketCapNotANumber) <==> InfoPresent(info) && MarketCapField(info.value).None?
    ensures r == Failed(PriceBelowSma20) <==> MarketCapAccepted(info) && LastClose(bars) <= CloseSma(bars, 20)
    ensures r == Failed(RsPercentileBelowMin) <==>
              MarketCapAccepted(info) && LastClose(bars) > CloseSma(bars, 20) && rsPercentile < RsPercentileMin
  {
    if InfoPresent(info) && MarketCapField(info.value).None? then Failed(MarketCapNotANumber)
    else if InfoPresent(info) && MarketCapField(info.value).value < MinMarketCap then Failed(MarketCapBelowThreshold)
    else if LastClose(bars) <= CloseSma(bars, 20) then Failed(PriceBelowSma20)
    else if rsPercentile < RsPercentileMin then Failed(RsPercentileBelowMin)
    else Passed
  }

  /** Percentage by which the current close sits below the pivot `PivotHigh(bars)`. */
  function DistanceFromPivot(bars: seq<Bar>): real
    requires |bars| >= 101 && ValidBars(bars)
  {
    var pivot := PivotHigh(bars);
    assert bars[|bars| - 2].high <= pivot;
    (pivot - LastClose(bars)) / pivot * 100.0
  }

  /** Within `NearPivotMaxPct` percent below the pivot means at or above 93% of it. */
  lemma DistanceWithinLimit(bars: seq<Bar>)
    requires |bars| >= 101 && ValidBars(bars)
    ensures DistanceFromPivot(bars) <= NearPivotMaxPct <==> LastClose(bars) >= 0.93 * PivotHigh(bars)
    ensures LastClose(bars) <= PivotHigh(bars) ==> 0.0 <= DistanceFromPivot(bars)
  {
    var pivot, close := PivotHigh(bars), LastClose(bars);
    assert bars[|bars| - 2].high <= pivot;
    var d := (pivot - close) / pivot;
    assert DistanceFromPivot(bars) == d * 100.0;
    DivideAtMost(pivot - close, pivot, 0.07);
    if close <= pivot {
      DivideBounds(pivot - close, pivot, 0.0, 1.0);
    }
  }

  /** `check_uptrend_near_breakout`. */
  function NearBreakout(bars: seq<Bar>): (r: Check)
    requires ValidBars(bars)
    ensures r.Passed? <==> |bars| >= 101 && 0.93 * PivotHigh(bars) <= LastClose(bars) <= PivotHigh(bars)
    ensures r.Passed? ==> 0.0 <= DistanceFromPivot(bars) <= NearPivotMaxPct
    ensures r == Failed(InsufficientData) <==> |bars| < 101
    ensures r == Failed(AlreadyBrokenOut) <==> |bars| >= 101 && LastClose(bars) > PivotHigh(bars)
    ensures r.Failed? ==> r.reason in {InsufficientData, AlreadyBrokenOut, TooFarFromPivot}
  {
    if |bars| < 101 then Failed(InsufficientData)
    else if LastClose(bars) > PivotHigh(bars) then Failed(AlreadyBrokenOut)
    else
      DistanceWithinLimit(bars);
      if DistanceFromPivot(bars) > NearPivotMaxPct then Failed(TooFarFromPivot)
      else Passed
  }

  /** Lowest low of `bars[from..to]`. */
  function MinLow(bars: seq<Bar>, from: nat, to: nat): real
    requires from < to <= |bars|
  {
    Min(Lows(bars[from..to]))
  }

  /** Every low of `bars[from..to]` is above `m`. */
  predicate LowsAbove(bars: seq<Bar>, from: nat, to: nat, m: real)
    requires from <= to <= |bars|
  {
    forall j :: from <= j < to ==> bars[j].low > m
  }

  /** All lows of a window are above `m` exactly when the window's lowest low is. */
  lemma LowsAboveMin(bars: seq<Bar>, from: nat, to: nat, m: real)
    requires from < to <= |bars|
    ensures LowsAbove(bars, from, to, m) <==> MinLow(bars, from, to) > m
  {
    var lows := Lows(bars[from..to]);
    MinAbove(lows, m);
    assert forall i :: 0 <= i < |lows| ==> lows[i] == bars[from + i].low;
    if !LowsAbove(bars, from, to, m) {
      var j :| from <= j < to && bars[j].low <= m;
      assert lows[j - from] == bars[j].low;
    }
  }

  /** Every low of the last `k` bars is above the lowest low of the `k` bars before them. */
  predicate RisesAbove(bars: seq<Bar>, k: nat)
    requires 1 <= k && 2 * k <= |bars|
  {
    var n := |bars|;
    LowsAbove(bars, n - k, n, MinLow(bars, n - 2 * k, n - k))
  }

  /** Window minima compare as `RisesAbove` says: the recent minimum is above the past one. */
  lemma RisesAboveMin(bars: seq<Bar>, k: nat)
    requires 1 <= k && 2 * k <= |bars|
    ensures RisesAbove(bars, k) <==> MinLow(bars, |bars| - k, |bars|) > MinLow(bars, |bars| - 2 * k, |bars| - k)
  {
    var n := |bars|;
    LowsAboveMin(bars, n - k, n, MinLow(bars, n - 2 * k, n - k));
  }

  /** `check_higher_lows`. */
  function HigherLows(bars: seq<Bar>): (r: Check)
    ensures r.Passed? <==> |bars| >= 60 && RisesAbove(bars, 10) && RisesAbove(bars, 20) && RisesAbove(bars, 30)
    ensures r == Failed(InsufficientData) <==> |bars| < 60
    ensures r == Failed(HigherLow10Failed) <==> |bars| >= 60 && !RisesAbove(bars, 10)
    ensures r == Failed(HigherLow20Failed) <==> |bars| >= 60 && RisesAbove(bars, 10) && !RisesAbove(bars, 20)
    ensures r == Failed(HigherLow30Failed) <==>
              |bars| >= 60 && RisesAbove(bars, 10) && RisesAbove(bars, 20) && !RisesAbove(bars, 30)
  {
    var n := |bars|;
    if n < 60 then Failed(InsufficientData)
    else
      RisesAboveMin(bars, 10);
      RisesAboveMin(bars, 20);
      RisesAboveMin(bars, 30);
      if MinLow(bars, n - 10, n) <= MinLow(bars, n - 20, n - 10) then Failed(HigherLow10Failed)
      else if MinLow(bars, n - 20, n) <= MinLow(bars, n - 40, n - 20) then Failed(HigherLow20Failed)
      else if MinLow(bars, n - 30, n) <= MinLow(bars, n - 60, n - 30) then Failed(HigherLow30Failed)
      else Passed
  }

  /** The 20-bar volume SMA at position `i`. */
  function VolumeSma(bars: seq<Bar>, i: nat): real
    requires VolumeSmaPeriod - 1 <= i < |bars|
  {
    DataFetcher.SmaAt(Volumes(bars), VolumeSmaPeriod, i)
  }

  /** The previous bar's volume SMA is below the one `offset + 1` bars back. */
  predicate ContractedAt(bars: seq<Bar>, offset: nat)
    requires |bars| >= 50 && offset <= 30
  {
    var n := |bars|;
    |bars| > offset && VolumeSma(bars, n - 2) < VolumeSma(bars, n - (offset + 1))
  }

  /** Number of contractions among the first `k` comparison points. */
  function ContractionsUpTo(bars: seq<Bar>, k: nat): (c: nat)
    requires |bars| >= 50 && k <= |ComparisonPoints|
    ensures c <= k
    ensures c > 0 <==> exists j :: 0 <= j < k && ContractedAt(bars, ComparisonPoints[j])
  {
    if k == 0 then 0
    else
      var c := ContractionsUpTo(bars, k - 1) + (if ContractedAt(bars, ComparisonPoints[k - 1]) then 1 else 0);
      c
  }

  /** The 30 volume SMAs of `vol_sma.iloc[-31:-1]`, the last of which is the previous bar's. */
  function SmaWindow(bars: seq<Bar>): (w: seq<real>)
    requires |bars| >= 50
    ensures |w| == 30 && w[29] == VolumeSma(bars, |bars| - 2)
  {
    seq(30, k requires 0 <= k < 30 => VolumeSma(bars, |bars| - 31 + k))
  }

  datatype VolumeCheck = VolumeCheck(contracting: bool, dryUp: real)

  /** The result of `check_volume_contracting`, as a function of the series. */
  function VolumeContraction(bars: seq<Bar>): (r: VolumeCheck)
    ensures r.contracting <==>
              |bars| >= 50 && exists j :: 0 <= j < |ComparisonPoints| && ContractedAt(bars, ComparisonPoints[j])
    ensures !r.contracting ==> r.dryUp == 0.0
  {
    if |bars| < 50 then VolumeCheck(false, 0.0)
    else if ContractionsUpTo(bars, |ComparisonPoints|) == 0 then VolumeCheck(false, 0.0)
    else if |bars| > 30 && Max(SmaWindow(bars)) > 0.0 then
      var maxPast := Max(SmaWindow(bars));
      VolumeCheck(true, (maxPast - VolumeSma(bars, |bars| - 2)) / maxPast * 100.0)
    else VolumeCheck(true, 0.0)
  }

  /** With non-negative volumes the dry-up is a percentage in [0, 100]. */
  lemma DryUpBounds(bars: seq<Bar>)
    requires ValidBars(bars)
    ensures 0.0 <= VolumeContraction(bars).dryUp <= 100.0
  {
    if |bars| >= 50 && ContractionsUpTo(bars, |ComparisonPoints|) != 0 && Max(SmaWindow(bars)) > 0.0 {
      var w := SmaWindow(bars);
      var m, current := Max(w), w[29];
      assert current <= m;
      DataFetcher.SmaNonNegative(Volumes(bars), VolumeSmaPeriod, |bars| - 2);
      DivideBounds(m - current, m, 0.0, 1.0);
    }
  }

  /** The counting loop of `check_volume_contracting` over the six offsets. */
  method CountContractions(bars: seq<Bar>, current: real) returns (contractions: nat)
    requires |bars| >= 50 && current == VolumeSma(bars, |bars| - 2)
    ensures contractions == ContractionsUpTo(bars, |ComparisonPoints|)
  {
    var n := |bars|;
    contractions := 0;
    for k := 0 to |ComparisonPoints|
      invariant contractions == ContractionsUpTo(bars, k)
    {
      var offset := ComparisonPoints[k];
      if n > offset {
        var past := VolumeSma(bars, n - (offset + 1));
        if current < past {
          contractions := contractions + 1;
        }
      }
    }
  }

  /** `check_volume_contracting`: counts the contractions over the six offsets, then measures the dry-up. */
  method VolumeContracting(bars: seq<Bar>) returns (contracting: bool, dryUp: real)
    requires ValidBars(bars)
    ensures VolumeCheck(contracting, dryUp) == VolumeContraction(bars)
    ensures contracting ==> 0.0 <= dryUp <= 100.0
  {
    DryUpBounds(bars);
    if |bars| < 50 {
      return false, 0.0;
    }
    var n := |bars|;
    var current := VolumeSma(bars, n - 2);
    var contractions := CountContractions(bars, current);
    if contractions == 0 {
      return false, 0.0;
    }
    if n > 30 {
      var maxPast := Max(SmaWindow(bars));
      if maxPast > 0.0 {
        return true, (maxPast - current) / maxPast * 100.0;
      }
    }
    return true, 0.0;
  }
}
