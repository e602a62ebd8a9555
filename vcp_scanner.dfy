/**
 * `scan_stock` and `scan_universe` of backend/app/services/vcp_scanner.py:
 * a stock becomes a VCP setup when it passes the four filters, shows at least
 * three legs and a base no deeper than 15%; the universe scan collects the
 * setups and orders them by score, highest first.
 */
module VcpScanner {
  import opened Wrappers
  import opened Series
  import opened Models
  import opened Config
  import opened VcpFilters
  import DataFetcher
  import VcpLegs
  import VcpScoring
  import Sorting

  const MinScanBars: nat := 100

  /** What the data provider may return: positive bars whenever a series is present. */
  predicate ValidFetched(f: Fetched) {
    f.bars.Some? ==> ValidBars(f.bars.value)
  }

  predicate ValidBenchmark(b: Option<seq<Bar>>) {
    b.Some? ==> ValidBars(b.value)
  }

  /** The single-stock RS percentile estimate `min(max(50 + rs, 0), 100)`. */
  function ClampedRsPercentile(rs: real): (p: real)
    ensures 0.0 <= p <= 100.0
    ensures 0.0 <= 50.0 + rs <= 100.0 ==> p == 50.0 + rs
    ensures 50.0 + rs < 0.0 ==> p == 0.0
    ensures 50.0 + rs > 100.0 ==> p == 100.0
  {
    var raised := if 50.0 + rs >= 0.0 then 50.0 + rs else 0.0;
    if raised <= 100.0 then raised else 100.0
  }

  /** The RS percentile `scan_stock` filters on: 50 without a benchmark. */
  function StockRsPercentile(bars: seq<Bar>, benchmark: Option<seq<Bar>>): (p: real)
    requires ValidBars(bars) && ValidBenchmark(benchmark)
    ensures 0.0 <= p <= 100.0
    ensures benchmark.None? ==> p == 50.0
  {
    if benchmark.None? then 50.0
    else ClampedRsPercentile(DataFetcher.RelativeStrength(bars, benchmark.value, DataFetcher.RsPeriod))
  }

  /** Total number of bars the legs span. */
  function BaseDuration(legs: seq<VcpLeg>): (d: int)
    ensures (forall k :: 0 <= k < |legs| ==> legs[k].durationDays > 0) ==> d >= |legs|
  {
    if legs == [] then 0 else BaseDuration(legs[..|legs| - 1]) + legs[|legs| - 1].durationDays
  }

  /** The setup record `scan_stock` builds once every check has passed. */
  function SetupRecord(symbol: string, bars: seq<Bar>, benchmark: Option<seq<Bar>>, rsPercentile: real,
                       volumeDryUp: real, legs: seq<VcpLeg>, baseDepth: real): VcpSetup
    requires ValidBars(bars) && ValidBenchmark(benchmark) && |bars| >= 101
  {
    var price := LastClose(bars);
    var sma20 := CloseSma(bars, 20);
    var sma50 := CloseSma(bars, 50);
    var sma200 := if |bars| >= 200 && CloseSma(bars, 200) != 0.0 then Some(CloseSma(bars, 200)) else None;
    var distance := DistanceFromPivot(bars);
    var rs := if benchmark.Some? then DataFetcher.RelativeStrength(bars, benchmark.value, DataFetcher.RsPeriod)
              else 0.0;
    VcpSetup(symbol, price, legs, baseDepth, BaseDuration(legs), PivotHigh(bars), distance, rs, rsPercentile,
             volumeDryUp, price > sma20 && sma20 > sma50,
             VcpScoring.VcpScore(legs, baseDepth, volumeDryUp, rsPercentile, distance), sma20, sma50, sma200)
  }

  /** `scan_stock`: the setup of one stock, or `None` when data is missing or a check fails. */
  function SetupOf(symbol: string, fetched: Fetched, benchmark: Option<seq<Bar>>): Option<VcpSetup>
    requires ValidFetched(fetched) && ValidBenchmark(benchmark)
  {
    if fetched.bars.None? || |fetched.bars.value| < MinScanBars then None
    else
      var bars := fetched.bars.value;
      var rsPercentile := StockRsPercentile(bars, benchmark);
      if LiquidityFilter(bars, fetched.info, rsPercentile).Failed? then None
      else if NearBreakout(bars).Failed? then None
      else if HigherLows(bars).Failed? then None
      else if !VolumeContraction(bars).contracting then None
      else
        var legs := VcpLegs.Legs(bars);
        if |legs| < MinLegs then None
        else
          VcpLegs.LegsPositive(bars);
          var baseDepth := VcpLegs.BaseDepth(legs);
          if baseDepth > FinalBaseDepthMaxPct then None
          else Some(SetupRecord(symbol, bars, benchmark, rsPercentile, VolumeContraction(bars).dryUp, legs, baseDepth))
  }

  /** What every reported setup satisfies, whatever the stock. */
  predicate SoundSetup(s: VcpSetup) {
    && MinLegs <= |s.legs| <= VcpLegs.MaxLegs
    && (forall k :: 0 <= k < |s.legs| ==> s.legs[k].legNumber == k + 1)
    && (forall k :: 0 < k < |s.legs| ==> s.legs[k].pullbackDepth < s.legs[k - 1].pullbackDepth)
    && 0.0 < s.totalBaseDepth <= FinalBaseDepthMaxPct
    && s.baseDurationDays == BaseDuration(s.legs) >= |s.legs|
    && s.currentPrice <= s.pivotPrice
    && 0.0 <= s.distanceFromPivot <= NearPivotMaxPct
    && RsPercentileMin <= s.rsPercentile <= 100.0
    && 0.0 <= s.volumeDryUp <= 100.0
    && s.currentPrice > s.sma20
    && (s.trendAlignment <==> s.currentPrice > s.sma20 && s.sma20 > s.sma50)
    && 0.0 <= s.score <= 100.0
  }

  /** What the measurements of a series that passed the checks satisfy. */
  predicate RecordReady(bars: seq<Bar>, rsPercentile: real, volumeDryUp: real, legs: seq<VcpLeg>, baseDepth: real) {
    && ValidBars(bars) && |bars| >= 101
    && LastClose(bars) > CloseSma(bars, 20) && RsPercentileMin <= rsPercentile <= 100.0
    && NearBreakout(bars).Passed?
    && 0.0 <= volumeDryUp <= 100.0
    && MinLegs <= |legs| <= VcpLegs.MaxLegs
    && (forall k :: 0 <= k < |legs| ==> legs[k].legNumber == k + 1 && legs[k].durationDays > 0)
    && (forall k :: 0 < k < |legs| ==> legs[k].pullbackDepth < legs[k - 1].pullbackDepth)
    && 0.0 < baseDepth <= FinalBaseDepthMaxPct
  }

  /** The record built from legs and measurements that passed the checks is sound. */
  lemma SetupRecordSound(symbol: string, bars: seq<Bar>, benchmark: Option<seq<Bar>>, rsPercentile: real,
                         volumeDryUp: real, legs: seq<VcpLeg>, baseDepth: real)
    requires ValidBenchmark(benchmark) && RecordReady(bars, rsPercentile, volumeDryUp, legs, baseDepth)
    ensures var s := SetupRecord(symbol, bars, benchmark, rsPercentile, volumeDryUp, legs, baseDepth);
      s.symbol == symbol && s.legs == legs && SoundSetup(s)
  {
    var s := SetupRecord(symbol, bars, benchmark, rsPercentile, volumeDryUp, legs, baseDepth);
    VcpScoring.VcpScoreBounds(legs, baseDepth, volumeDryUp, rsPercentile, s.distanceFromPivot);
  }

  /** The legs of a series that meet the leg and depth conditions, with everything the record lemma needs. */
  lemma DetectedLegsFacts(bars: seq<Bar>)
    requires ValidBars(bars) && |VcpLegs.Legs(bars)| >= MinLegs
    ensures var legs := VcpLegs.Legs(bars);
      && VcpLegs.PositiveLegs(legs)
      && |legs| <= VcpLegs.MaxLegs
      && (forall k :: 0 <= k < |legs| ==> legs[k].legNumber == k + 1 && legs[k].durationDays > 0)
      && (forall k :: 0 < k < |legs| ==> legs[k].pullbackDepth < legs[k - 1].pullbackDepth)
      && 0.0 < VcpLegs.BaseDepth(legs)
  {
    var legs := VcpLegs.Legs(bars);
    VcpLegs.LegsAccepted(bars);
    VcpLegs.LegsPositive(bars);
    VcpLegs.BaseDepthBounds(legs);
    var a := VcpLegs.AnalysisWindow(bars);
    assert forall k :: 0 <= k < |legs| ==> VcpLegs.FromSwings(a, legs[k]);
  }

  /** The conditions under which `scan_stock` builds a setup from a series. */
  predicate Accepted(bars: seq<Bar>, info: Option<Info>, benchmark: Option<seq<Bar>>)
    requires ValidBars(bars) && ValidBenchmark(benchmark)
  {
    && |bars| >= MinScanBars
    && LiquidityFilter(bars, info, StockRsPercentile(bars, benchmark)).Passed?
    && NearBreakout(bars).Passed? && HigherLows(bars).Passed?
    && VolumeContraction(bars).contracting
    && |VcpLegs.Legs(bars)| >= MinLegs
    && (VcpLegs.LegsPositive(bars); VcpLegs.BaseDepth(VcpLegs.Legs(bars)) <= FinalBaseDepthMaxPct)
  }

  /** The measurements of an accepted series are ready for the record. */
  lemma AcceptedReady(bars: seq<Bar>, info: Option<Info>, benchmark: Option<seq<Bar>>)
    requires ValidBars(bars) && ValidBenchmark(benchmark) && Accepted(bars, info, benchmark)
    ensures VcpLegs.PositiveLegs(VcpLegs.Legs(bars))
    ensures RecordReady(bars, StockRsPercentile(bars, benchmark), VolumeContraction(bars).dryUp,
                        VcpLegs.Legs(bars), VcpLegs.BaseDepth(VcpLegs.Legs(bars)))
  {
    assert LiquidityFilter(bars, info, StockRsPercentile(bars, benchmark)).Passed?;
    DryUpBounds(bars);
    DetectedLegsFacts(bars);
  }

  /**
   * A stock yields a setup exactly when its series is present and passes the
   * conditions above; the setup is then the record built from the series.
   */
  lemma SetupOfAccepts(symbol: string, fetched: Fetched, benchmark: Option<seq<Bar>>)
    requires ValidFetched(fetched) && ValidBenchmark(benchmark)
    ensures SetupOf(symbol, fetched, benchmark).Some? <==>
              fetched.bars.Some? && Accepted(fetched.bars.value, fetched.info, benchmark)
    ensures SetupOf(symbol, fetched, benchmark).Some? ==>
              var bars := fetched.bars.value;
              (VcpLegs.LegsPositive(bars);
               SetupOf(symbol, fetched, benchmark).value ==
                 SetupRecord(symbol, bars, benchmark, StockRsPercentile(bars, benchmark), VolumeContraction(bars).dryUp,
                             VcpLegs.Legs(bars), VcpLegs.BaseDepth(VcpLegs.Legs(bars))))
  {
  }

  /** Every setup a scan returns is a sound setup for the scanned symbol. */
  lemma SetupOfSound(symbol: string, fetched: Fetched, benchmark: Option<seq<Bar>>)
    requires ValidFetched(fetched) && ValidBenchmark(benchmark)
    ensures SetupOf(symbol, fetched, benchmark).Some? ==>
              var s := SetupOf(symbol, fetched, benchmark).value;
              s.symbol == symbol && SoundSetup(s)
  {
    SetupOfAccepts(symbol, fetched, benchmark);
    if SetupOf(symbol, fetched, benchmark).Some? {
      var bars := fetched.bars.value;
      AcceptedReady(bars, fetched.info, benchmark);
      SetupRecordSound(symbol, bars, benchmark, StockRsPercentile(bars, benchmark), VolumeContraction(bars).dryUp,
                       VcpLegs.Legs(bars), VcpLegs.BaseDepth(VcpLegs.Legs(bars)));
    }
  }

  /** Whether `scan_stock` gets past its length check and so calls `_load_benchmark`. */
  predicate LoadsBenchmark(fetched: Fetched) {
    fetched.bars.Some? && |fetched.bars.value| >= MinScanBars
  }

  /** The benchmark after `_load_benchmark`: fetched only when none is held yet. */
  function Loaded(held: Option<seq<Bar>>, fetched: Option<seq<Bar>>): Option<seq<Bar>> {
    if held.None? then fetched else held
  }

  /**
   * The benchmark held after `scan_stock` ran on `fetched`: a stock whose
   * series is missing or short returns before the benchmark is loaded; any
   * other asks the provider, whose answer is `fetchedBenchmark`.
   */
  function AfterScan(held: Option<seq<Bar>>, fetched: Fetched, fetchedBenchmark: Option<seq<Bar>>): Option<seq<Bar>> {
    if LoadsBenchmark(fetched) then Loaded(held, fetchedBenchmark) else held
  }

  predicate ValidBenchmarks(fetches: seq<Option<seq<Bar>>>) {
    forall i :: 0 <= i < |fetches| ==> ValidBenchmark(fetches[i])
  }

  /**
   * The benchmark held once the first `k` symbols have been scanned, starting
   * from `held`, when the provider answers the load of the `i`-th scan with
   * `fetches[i]`. A failed load leaves it `None`, and a later scan retries.
   */
  function HeldAfter(held: Option<seq<Bar>>, symbols: seq<string>, market: string -> Fetched,
                     fetches: seq<Option<seq<Bar>>>, k: nat): (b: Option<seq<Bar>>)
    requires k <= |symbols| == |fetches|
    requires ValidBenchmark(held) && ValidBenchmarks(fetches)
    ensures ValidBenchmark(b)
    ensures held.Some? ==> b == held
    decreases k
  {
    if k == 0 then held
    else AfterScan(HeldAfter(held, symbols, market, fetches, k - 1), market(symbols[k - 1]), fetches[k - 1])
  }

  /**
   * No benchmark is held after `k` scans exactly when none was held at the
   * start and every scan among them that loaded got no answer.
   */
  lemma {:induction false} HeldAfterNone(held: Option<seq<Bar>>, symbols: seq<string>, market: string -> Fetched,
                                         fetches: seq<Option<seq<Bar>>>, k: nat)
    requires k <= |symbols| == |fetches|
    requires ValidBenchmark(held) && ValidBenchmarks(fetches)
    ensures HeldAfter(held, symbols, market, fetches, k).None? <==>
              held.None? && forall j :: 0 <= j < k && LoadsBenchmark(market(symbols[j])) ==> fetches[j].None?
  {
    if k > 0 {
      HeldAfterNone(held, symbols, market, fetches, k - 1);
    }
  }

  /** Once a load succeeds the benchmark is kept for every later scan. */
  lemma {:induction false} BenchmarkKept(held: Option<seq<Bar>>, symbols: seq<string>, market: string -> Fetched,
                                         fetches: seq<Option<seq<Bar>>>, j: nat, k: nat)
    requires j <= k <= |symbols| == |fetches|
    requires ValidBenchmark(held) && ValidBenchmarks(fetches)
    requires HeldAfter(held, symbols, market, fetches, j).Some?
    ensures HeldAfter(held, symbols, market, fetches, k) == HeldAfter(held, symbols, market, fetches, j)
  {
    if j < k {
      BenchmarkKept(held, symbols, market, fetches, j, k - 1);
    }
  }

  /** The benchmark each scan of `symbols` uses: the one held once that scan has loaded it. */
  function ScanBenchmarks(held: Option<seq<Bar>>, symbols: seq<string>, market: string -> Fetched,
                          fetches: seq<Option<seq<Bar>>>): (bs: seq<Option<seq<Bar>>>)
    requires |symbols| == |fetches| && ValidBenchmark(held) && ValidBenchmarks(fetches)
    ensures |bs| == |symbols| && ValidBenchmarks(bs)
    ensures forall i :: 0 <= i < |symbols| ==> bs[i] == HeldAfter(held, symbols, market, fetches, i + 1)
    ensures held.Some? ==> forall i :: 0 <= i < |symbols| ==> bs[i] == held
  {
    seq(|symbols|, i requires 0 <= i < |symbols| => HeldAfter(held, symbols, market, fetches, i + 1))
  }

  /** The outcome of scanning each symbol in turn, the `i`-th against `benchmarks[i]`. */
  function Outcomes(symbols: seq<string>, market: string -> Fetched, benchmarks: seq<Option<seq<Bar>>>)
    : (r: seq<Option<VcpSetup>>)
    requires forall i :: 0 <= i < |symbols| ==> ValidFetched(market(symbols[i]))
    requires |benchmarks| == |symbols| && ValidBenchmarks(benchmarks)
    ensures |r| == |symbols|
  {
    seq(|symbols|, i requires 0 <= i < |symbols| => SetupOf(symbols[i], market(symbols[i]), benchmarks[i]))
  }

  /** The `i`-th outcome is the scan of the `i`-th symbol. */
  lemma OutcomeAt(symbols: seq<string>, market: string -> Fetched, benchmarks: seq<Option<seq<Bar>>>, i: nat)
    requires forall i :: 0 <= i < |symbols| ==> ValidFetched(market(symbols[i]))
    requires |benchmarks| == |symbols| && ValidBenchmarks(benchmarks)
    requires i < |symbols|
    ensures Outcomes(symbols, market, benchmarks)[i] == SetupOf(symbols[i], market(symbols[i]), benchmarks[i])
  {
  }

  /** Every collected setup is the sound setup of one of the scanned symbols. */
  lemma SetupsSound(symbols: seq<string>, market: string -> Fetched, benchmarks: seq<Option<seq<Bar>>>)
    requires forall i :: 0 <= i < |symbols| ==> ValidFetched(market(symbols[i]))
    requires |benchmarks| == |symbols| && ValidBenchmarks(benchmarks)
    ensures forall s :: s in Present(Outcomes(symbols, market, benchmarks)) ==> SoundSetup(s) && s.symbol in symbols
  {
    var outcomes := Outcomes(symbols, market, benchmarks);
    PresentMembers(outcomes);
    forall s | s in Present(outcomes) ensures SoundSetup(s) && s.symbol in symbols {
      var i :| 0 <= i < |outcomes| && outcomes[i] == Some(s);
      SetupOfSound(symbols[i], market(symbols[i]), benchmarks[i]);
    }
  }

  /** The sort key of `scan_universe`: the setup's score. */
  function ScoreOf(s: VcpSetup): real { s.score }

  /** `scan_universe`'s symbol list: the demonstration universe when none is given. */
  function Universe(symbols: Option<seq<string>>): seq<string> {
    if symbols.None? then Nifty500Symbols else symbols.value
  }

  /** The scanner, holding the benchmark series once it has been loaded. */
  class Scanner {
    var benchmark: Option<seq<Bar>>

    constructor ()
      ensures benchmark == None
    {
      benchmark := None;
    }

    /** `_load_benchmark`: asks the provider (whose answer is `fetched`) only while no benchmark is held. */
    method LoadBenchmark(fetched: Option<seq<Bar>>)
      modifies this
      ensures benchmark == Loaded(old(benchmark), fetched)
      ensures old(benchmark).Some? ==> benchmark == old(benchmark)
    {
      if benchmark.None? {
        benchmark := fetched;
      }
    }

    /**
     * `scan_stock`: a stock with a missing or short series is rejected before
     * anything else; otherwise the benchmark is loaded if needed and the
     * stock is scanned against it.
     */
    method ScanStock(symbol: string, fetched: Fetched, fetchedBenchmark: Option<seq<Bar>>)
      returns (setup: Option<VcpSetup>)
      requires ValidFetched(fetched) && ValidBenchmark(benchmark) && ValidBenchmark(fetchedBenchmark)
      modifies this
      ensures benchmark == AfterScan(old(benchmark), fetched, fetchedBenchmark)
      ensures setup == SetupOf(symbol, fetched, benchmark)
      ensures setup.Some? ==> setup.value.symbol == symbol && SoundSetup(setup.value)
    {
      if !LoadsBenchmark(fetched) {
        return None;
      }
      LoadBenchmark(fetchedBenchmark);
      setup := SetupOf(symbol, fetched, benchmark);
      SetupOfSound(symbol, fetched, benchmark);
    }

    /**
     * The loop of `scan_universe`: scans each symbol in turn and keeps the
     * setups found; the load made by the `i`-th scan gets `fetches[i]`.
     */
    method CollectSetups(universe: seq<string>, market: string -> Fetched, fetches: seq<Option<seq<Bar>>>)
      returns (found: seq<VcpSetup>)
      requires forall i :: 0 <= i < |universe| ==> ValidFetched(market(universe[i]))
      requires |fetches| == |universe| && ValidBenchmark(benchmark) && ValidBenchmarks(fetches)
      modifies this
      ensures benchmark == HeldAfter(old(benchmark), universe, market, fetches, |universe|)
      ensures found == Present(Outcomes(universe, market, ScanBenchmarks(old(benchmark), universe, market, fetches)))
    {
      ghost var held := benchmark;
      ghost var outcomes := Outcomes(universe, market, ScanBenchmarks(held, universe, market, fetches));
      found := [];
      for i := 0 to |universe|
        invariant benchmark == HeldAfter(held, universe, market, fetches, i)
        invariant found == Present(outcomes[..i])
      {
        var setup := ScanNext(universe, market, fetches, held, i);
        PresentStep(outcomes, i);
        if setup.Some? {
          found := found + [setup.value];
        }
      }
      assert outcomes[..|universe|] == outcomes;
    }

    /** The `i`-th scan of the loop of `scan_universe`, the benchmark held being the one before it. */
    method ScanNext(universe: seq<string>, market: string -> Fetched, fetches: seq<Option<seq<Bar>>>,
                    ghost held: Option<seq<Bar>>, i: nat)
      returns (setup: Option<VcpSetup>)
      requires forall i :: 0 <= i < |universe| ==> ValidFetched(market(universe[i]))
      requires |fetches| == |universe| && ValidBenchmark(held) && ValidBenchmarks(fetches) && i < |universe|
      requires benchmark == HeldAfter(held, universe, market, fetches, i)
      modifies this
      ensures benchmark == HeldAfter(held, universe, market, fetches, i + 1)
      ensures setup == Outcomes(universe, market, ScanBenchmarks(held, universe, market, fetches))[i]
    {
      ghost var benchmarks := ScanBenchmarks(held, universe, market, fetches);
      setup := ScanStock(universe[i], market(universe[i]), fetches[i]);
      OutcomeAt(universe, market, benchmarks, i);
    }

    /**
     * `scan_universe`: loads the benchmark (the provider answering
     * `initialFetch`), scans every symbol (the demonstration universe when
     * none is given) and returns the setups found, highest score first.
     */
    method ScanUniverse(symbols: Option<seq<string>>, market: string -> Fetched, initialFetch: Option<seq<Bar>>,
                        fetches: seq<Option<seq<Bar>>>)
      returns (results: seq<VcpSetup>)
      requires forall i :: 0 <= i < |Universe(symbols)| ==> ValidFetched(market(Universe(symbols)[i]))
      requires |fetches| == |Universe(symbols)|
      requires ValidBenchmark(benchmark) && ValidBenchmark(initialFetch) && ValidBenchmarks(fetches)
      modifies this
      ensures benchmark == HeldAfter(Loaded(old(benchmark), initialFetch), Universe(symbols), market, fetches,
                                     |Universe(symbols)|)
      ensures var benchmarks := ScanBenchmarks(Loaded(old(benchmark), initialFetch), Universe(symbols), market, fetches);
        && results == Sorting.SortDesc(Present(Outcomes(Universe(symbols), market, benchmarks)), ScoreOf)
        && multiset(results) == multiset(Present(Outcomes(Universe(symbols), market, benchmarks)))
      ensures Sorting.SortedDesc(results, ScoreOf)
      ensures forall s :: s in results ==> SoundSetup(s) && s.symbol in Universe(symbols)
    {
      var universe := Universe(symbols);
      LoadBenchmark(initialFetch);
      ghost var held := benchmark;
      var found := CollectSetups(universe, market, fetches);
      results := Sorting.SortDesc(found, ScoreOf);
      SetupsSound(universe, market, ScanBenchmarks(held, universe, market, fetches));
      assert forall s :: s in results ==> s in multiset(found);
    }
  }
}
