# VCP trading platform backend — verified model of the scanning and scoring core

This project models the decision logic of a Python backend for Indian equities (NSE, NIFTY 500). The backend
finds Volatility Contraction Patterns (VCP) and breakouts in daily OHLCV series and scores them. It also
grades fundamentals and news sentiment and combines the three into one recommendation.
The model covers:

- **VCP scanner** (`VcpFilters`, `VcpLegs`, `VcpScoring`, `VcpScanner`):
  - the liquidity filter;
  - the "near the 100-bar high" filter;
  - higher lows over 10/20/30-bar windows;
  - the 20-bar volume-SMA contraction count and dry-up;
  - the swing-based leg segmenter (5-bar centred local maxima and minima; a leg is kept only while depths shrink);
  - the additive 0–100 VCP score;
  - the accept/reject pipeline of `scan_stock`;
  - `scan_universe`, which loads the benchmark into the scanner object, collects setups and sorts them by score.
- **Breakout finder** (`BreakoutFinder`):
  - the breakout test (close above the prior 100-bar high, relative volume of at least 1);
  - true range and ATR;
  - the four-part 0–100 confirmation score;
  - `find_breakout`, `scan_for_breakouts` and `scan_vcp_breakouts`.
- **Fundamentals** (`Fundamental`): the market-cap classification and the six-ladder quality score.
- **Sentiment** (`Sentiment`):
  - label classification;
  - `_clean_text` (tag removal, special-character replacement, whitespace collapse);
  - the per-article scoring and counting loop of `analyze`, over a polarity function given as a parameter.
- **Data-fetcher helpers** (`DataFetcher`): Yahoo symbol normalisation, SMA, relative strength and the RS percentile.
- **API routes** (`Routes`):
  - the symbol-list split and `[:limit]` truncation of the two scan endpoints;
  - the combined score of `get_full_analysis` and its recommendation ladder.

Shared shapes:

- `Series` holds the bar type and window helpers.
- `Models` holds the records of `backend/app/models/stock.py`.
- `Sorting` holds `list.sort(key=..., reverse=True)` as a descending insertion sort, stable by construction (not proved).
- `Wrappers` holds `Option` and `Present`, the filter both scan loops use (`if x: results.append(x)`).
- `Config` holds the constants of `backend/app/config.py`.

## Design decisions

The source's imperative parts are imperative here, each proved equal to a specification function:

- the scanner object whose `_load_benchmark` sets a field (`VcpScanner.Scanner`);
- the leg loop (`VcpLegs.DetectLegs`, `VcpLegs.SegmentLegs`);
- the contraction count (`VcpFilters.VolumeContracting`);
- the `score +=` accumulators (`VcpScoring.CalculateVcpScore`, `BreakoutFinder.CalculateConfirmationScore`,
  `Fundamental.CalculateQualityScore`);
- the append-and-count loops (`Sentiment.ScoreArticles`, `DataFetcher.RsPercentile`);
- the append-then-sort scans (`Scanner.ScanUniverse`, `BreakoutFinder.ScanForBreakouts`);
- the combined-score block (`Routes.CombinedScore`).

Pure window expressions are functions.

Network data arrives as parameters:

- `market: string -> Fetched` gives the bars and info a symbol would fetch, either of which may be missing;
- each call of `_load_benchmark` gets its own provider answer: `initialFetch` for the load `scan_universe` makes
  before its loop, and `fetches[i]` for the load the `i`-th `scan_stock` makes while no benchmark is held (a failed
  fetch leaves none held, so a later scan asks again);
- `feeds` is the list of RSS feeds' entries;
- `polarity` is TextBlob's polarity.

Other choices:

- Python exceptions that `scan_stock` and `find_breakout` swallow become `None`.
- A bar is well formed when `0 < low <= high`, `open > 0`, `close > 0` and `volume >= 0`. This is what the
  source's divisions need.
- When market data is present but `marketCap` is `null`, Python raises on `None < 2e9`. `scan_stock` swallows
  that error, and it is modelled as a separate failure reason (`MarketCapNotANumber`) of the liquidity filter.
- The RS percentile that `scan_stock` hands to the liquidity filter is `50 + rs` clamped to [0, 100], not the
  cross-sectional percentile (`backend/app/services/vcp_scanner.py:321-325`); `ClampedRsPercentile` follows the
  code. `calculate_rs_percentile` is modelled on its own, since `scan_stock` does not call it.

## Model

| member | source | states |
|---|---|---|
| Series.PivotHigh | backend/app/services/vcp_scanner.py:101 | the pivot is the largest high of the 100 bars before the last one, and one of those bars attains it |
| Series.Tail | backend/app/services/vcp_scanner.py:190 | `tail(n)` keeps the last min(n, len) elements in order |
| Sorting.SortDesc | backend/app/services/vcp_scanner.py:415 | the sorted list is a permutation of its input and is non-increasing in the key |
| Sorting.Insert | backend/app/services/breakout_finder.py:176 | one insertion step adds exactly the new element |
| Sorting.InsertSorted | backend/app/services/breakout_finder.py:176 | inserting into a non-increasing list keeps it non-increasing |
| Sorting.Take | backend/app/api/routes.py:37 | `results[:limit]` is a prefix of length min(limit, n); a negative limit drops that many from the end |
| Sorting.TakeSorted | backend/app/api/routes.py:54 | a prefix of a sorted list is sorted |
| Wrappers.Present | backend/app/services/vcp_scanner.py:406-413 | the collected results are never more than the outcomes scanned |
| Wrappers.PresentStep | backend/app/services/vcp_scanner.py:410-413 | one loop step appends the outcome's value when there is one, and nothing otherwise |
| Wrappers.PresentMembers | backend/app/services/breakout_finder.py:169-173 | a value is collected iff some outcome holds it |
| Wrappers.NothingPresent | backend/app/services/breakout_finder.py:186-189 | when every outcome is `None` nothing is collected |
| DataFetcher.YfSymbol | backend/app/services/data_fetcher.py:23-27 | the result ends with ".NS", extends the input, and equals the input exactly when the input already ends with ".NS" |
| DataFetcher.YfSymbolIdempotent | backend/app/services/data_fetcher.py:23-27 | normalising twice equals normalising once |
| DataFetcher.Sma | backend/app/services/data_fetcher.py:128-130 | the rolling mean is defined exactly from the first full window on, and there it is the window sum over `period` |
| DataFetcher.SmaBetween | backend/app/services/data_fetcher.py:128-130 | each SMA value lies between the minimum and maximum of its window |
| DataFetcher.SmaNonNegative | backend/app/services/data_fetcher.py:128-130 | an SMA of non-negative volumes is non-negative |
| DataFetcher.SmaAt | backend/app/services/data_fetcher.py:128-130 | defines the mean of the `period` values ending at a position; Sma, SmaBetween and SmaNonNegative characterise it |
| DataFetcher.RelativeStrength | backend/app/services/data_fetcher.py:132-152 | 0 when either series is shorter than the period; otherwise the stock's return minus the benchmark's, the zero-benchmark branch included |
| DataFetcher.PeriodReturn | backend/app/services/data_fetcher.py:146-147 | defines the percentage change of the close over `period` bars; RelativeStrength is stated through it |
| DataFetcher.CountBelowMonotone | backend/app/services/data_fetcher.py:174-176 | a larger RS has at least as many universe values strictly below it |
| DataFetcher.CountBelow | backend/app/services/data_fetcher.py:174-176 | counts the universe values strictly below the stock's RS, at most the universe size; CountBelowMonotone characterises it |
| DataFetcher.PercentileBounds | backend/app/services/data_fetcher.py:170-178 | the percentile lies in [0, 100] |
| DataFetcher.PercentileMonotone | backend/app/services/data_fetcher.py:170-178 | the percentile is non-decreasing in the stock's RS |
| DataFetcher.Percentile | backend/app/services/data_fetcher.py:170-178 | defines 100 × (count below) / n, and 50 for an empty universe; PercentileBounds and PercentileMonotone characterise it |
| DataFetcher.UniverseRs | backend/app/services/data_fetcher.py:162-166 | the collected list holds each universe member's RS, in order |
| DataFetcher.RsPercentile | backend/app/services/data_fetcher.py:154-178 | 50 for an empty universe; otherwise 100 × (count strictly below) / n, in [0, 100] |
| VcpFilters.LiquidityFilter | backend/app/services/vcp_scanner.py:60-87 | passes iff market cap is acceptable, close > SMA20 and RS percentile >= 70; each failure reason occurs exactly when the earlier checks pass and that one fails |
| VcpFilters.DistanceWithinLimit | backend/app/services/vcp_scanner.py:108-110 | distance <= 7% iff the close is at least 93% of the pivot; a close at or under the pivot gives a non-negative distance |
| VcpFilters.DistanceFromPivot | backend/app/services/vcp_scanner.py:108 | defines the percentage by which the close sits below the 100-bar pivot; DistanceWithinLimit and NearBreakout characterise it |
| VcpFilters.NearBreakout | backend/app/services/vcp_scanner.py:89-112 | fails on fewer than 101 bars; passes iff 0.93 × pivot <= close <= pivot; a pass has distance in [0, 7]; "already broken out" iff close > pivot |
| VcpFilters.LowsAboveMin | backend/app/services/vcp_scanner.py:125-134 | every low of a window exceeds m iff the window's minimum low does |
| VcpFilters.RisesAboveMin | backend/app/services/vcp_scanner.py:125-134 | "higher low" over k bars is exactly min(last k lows) > min(the k lows before them) |
| VcpFilters.MinLow | backend/app/services/vcp_scanner.py:125-134 | defines the lowest low of a window; LowsAboveMin and RisesAboveMin characterise it |
| VcpFilters.HigherLows | backend/app/services/vcp_scanner.py:114-143 | fails on fewer than 60 bars; passes iff the 10-, 20- and 30-bar comparisons all hold; the reported failure is the first that fails |
| VcpFilters.ContractionsUpTo | backend/app/services/vcp_scanner.py:156-163 | the count is at most the number of offsets examined, and positive iff some offset's volume SMA exceeds the one before it |
| VcpFilters.SmaWindow | backend/app/services/vcp_scanner.py:170-172 | the dry-up window has 30 volume SMAs and ends with the current one |
| VcpFilters.VolumeContraction | backend/app/services/vcp_scanner.py:145-176 | contracting iff there are at least 50 bars and some of the 6 offsets contracted; a dry-up is reported only when contracting |
| VcpFilters.DryUpBounds | backend/app/services/vcp_scanner.py:170-176 | the dry-up lies in [0, 100] because the window maximum includes the current SMA |
| VcpFilters.CountContractions | backend/app/services/vcp_scanner.py:156-163 | the counting loop computes the specified contraction count |
| VcpFilters.VolumeContracting | backend/app/services/vcp_scanner.py:145-176 | the method returns exactly the specified (contracting, dry-up), with dry-up in [0, 100] when contracting |
| VcpFilters.VolumeSma | backend/app/services/vcp_scanner.py:153 | defines the 20-bar volume SMA at a position; ContractionsUpTo, SmaWindow, VolumeContraction and DryUpBounds are stated through it |
| VcpLegs.SwingHighIsRollingMax | backend/app/services/vcp_scanner.py:198-200 | a swing high is a bar whose high equals the max of its centred 5-bar window |
| VcpLegs.SwingLowIsRollingMin | backend/app/services/vcp_scanner.py:201-203 | a swing low is a bar whose low equals the min of its centred 5-bar window |
| VcpLegs.SwingPositions | backend/app/services/vcp_scanner.py:198-203 | the swing list holds exactly the swing positions, strictly increasing |
| VcpLegs.FirstAfter | backend/app/services/vcp_scanner.py:212-216 | the result is the earliest swing low strictly after the high, or none when there is none |
| VcpLegs.SegmentStep | backend/app/services/vcp_scanner.py:208-251 | one loop iteration: the loop stops at a high with no later swing low; otherwise it accepts the leg iff its depth is > 2 and below the previous depth, and moves on |
| VcpLegs.SwingListsOf | backend/app/services/vcp_scanner.py:198-203 | the computed swing lists meet the invariant the segmenter relies on |
| VcpLegs.NextLegFromSwings | backend/app/services/vcp_scanner.py:212-249 | a leg built from a swing high and its first later swing low is well formed |
| VcpLegs.MakeLeg | backend/app/services/vcp_scanner.py:238-249 | defines the leg from a swing high to a swing low: its prices, its depth in percent of the high and its duration; NextLegFromSwings shows it well formed |
| VcpLegs.AppendAccepted | backend/app/services/vcp_scanner.py:225-251 | appending a shallower leg numbered n+1 keeps the accepted-legs invariant |
| VcpLegs.AcceptStep | backend/app/services/vcp_scanner.py:225-251 | an accepted leg records its depth as the new previous depth and keeps its start before the next high |
| VcpLegs.SegmentAccepted | backend/app/services/vcp_scanner.py:208-251 | every leg list the loop produces satisfies the accepted-legs invariant |
| VcpLegs.Segment | backend/app/services/vcp_scanner.py:208-251 | defines the leg-acceptance loop from one swing high on; SegmentStep and SegmentAccepted characterise it and SegmentLegs computes it |
| VcpLegs.LegsAccepted | backend/app/services/vcp_scanner.py:186-251 | the legs are numbered 1..n, at most 5, start at swing highs (never the last one), end at the first later swing low, and have strictly shrinking depths > 2; no legs with fewer than 60 bars or fewer than 2 swing highs or lows |
| VcpLegs.AcceptedLegsPositive | backend/app/services/vcp_scanner.py:238-249 | accepted legs have positive prices with low < high |
| VcpLegs.LegsPositive | backend/app/services/vcp_scanner.py:238-249 | every detected leg has positive prices with low < high |
| VcpLegs.Legs | backend/app/services/vcp_scanner.py:186-251 | defines the legs found in the last 126 bars; LegsAccepted and LegsPositive characterise them |
| VcpLegs.BaseDepthBounds | backend/app/services/vcp_scanner.py:253-261 | the total depth lies in (0, 100) and is at least each leg's own depth |
| VcpLegs.BaseDepth | backend/app/services/vcp_scanner.py:253-261 | defines the total depth from the highest leg high to the lowest leg low, in percent of that high; BaseDepthBounds bounds it |
| VcpLegs.SegmentLegs | backend/app/services/vcp_scanner.py:208-251 | the while loop computes the specified segmentation |
| VcpLegs.DetectLegs | backend/app/services/vcp_scanner.py:178-261 | returns the specified legs and total depth: 0 with no legs, otherwise in (0, 100) |
| VcpScoring.LegCountScore | backend/app/services/vcp_scanner.py:275 | in [0, 20], and 20 iff at least 4 legs |
| VcpScoring.ContractionsBelow | backend/app/services/vcp_scanner.py:279-283 | counts adjacent shrinking depths; the count is maximal iff every depth shrinks |
| VcpScoring.ContractionScore | backend/app/services/vcp_scanner.py:279-283 | in [0, 25], and 25 when every depth shrinks |
| VcpScoring.DepthScore | backend/app/services/vcp_scanner.py:286-288 | in [0, 20]; 0 outside [10, 20]; 20 exactly at 12.5 |
| VcpScoring.DepthScoreMonotone | backend/app/services/vcp_scanner.py:286-288 | inside [10, 20], a depth closer to 12.5 scores at least as much |
| VcpScoring.VolumeScore | backend/app/services/vcp_scanner.py:291 | at most 15, non-negative for non-negative dry-up, 15 iff dry-up >= 30 |
| VcpScoring.RsScore | backend/app/services/vcp_scanner.py:295 | at most 10, non-negative for non-negative percentile, 10 iff percentile >= 100 |
| VcpScoring.ProximityScore | backend/app/services/vcp_scanner.py:299-305 | in [0, 10]; 10 iff distance <= 5; 0 iff distance > 10 |
| VcpScoring.ProximityScoreMonotone | backend/app/services/vcp_scanner.py:299-305 | proximity score is non-increasing in distance |
| VcpScoring.VcpScoreBounds | backend/app/services/vcp_scanner.py:263-307 | the capped score is the raw sum capped at 100, and non-negative for non-negative dry-up and RS |
| VcpScoring.RawScore | backend/app/services/vcp_scanner.py:272-305 | defines the sum of the six components before the cap; VcpScoreBounds bounds it |
| VcpScoring.VcpScore | backend/app/services/vcp_scanner.py:263-307 | defines the component sum capped at 100; VcpScoreBounds bounds it and CalculateVcpScore computes it |
| VcpScoring.DetectedLegsContract | backend/app/services/vcp_scanner.py:279-283 | detected legs always earn the full contraction score |
| VcpScoring.CountLegContractions | backend/app/services/vcp_scanner.py:279-281 | the counting loop computes the specified count |
| VcpScoring.CalculateVcpScore | backend/app/services/vcp_scanner.py:263-307 | the accumulator equals the specified score: at most 100, non-negative for non-negative dry-up and RS |
| VcpScanner.ClampedRsPercentile | backend/app/services/vcp_scanner.py:321-325 | 50 + rs clamped to [0, 100] |
| VcpScanner.StockRsPercentile | backend/app/services/vcp_scanner.py:317-325 | in [0, 100], and 50 without a benchmark |
| VcpScanner.BaseDuration | backend/app/services/vcp_scanner.py:374 | the sum of leg durations is at least the leg count when every duration is positive |
| VcpScanner.SetupRecordSound | backend/app/services/vcp_scanner.py:353-386 | the built record carries the symbol and legs; it has 3–5 legs numbered 1..n with shrinking depths, base depth in (0, 15], base duration equal to the sum of leg durations, close at or under the pivot within 7%, RS percentile in [70, 100], dry-up in [0, 100], close above SMA20, trend alignment iff price > SMA20 > SMA50, and a score in [0, 100] |
| VcpScanner.SetupRecord | backend/app/services/vcp_scanner.py:353-386 | defines the record built once every check has passed; SetupRecordSound characterises it |
| VcpScanner.DetectedLegsFacts | backend/app/services/vcp_scanner.py:345-351 | three or more detected legs are numbered, have positive durations and contract |
| VcpScanner.AcceptedReady | backend/app/services/vcp_scanner.py:328-351 | a series that passes every filter meets everything the record's soundness rests on |
| VcpScanner.SetupOfAccepts | backend/app/services/vcp_scanner.py:309-390 | a setup is produced iff data exists, there are at least 100 bars, the liquidity, near-breakout, higher-lows and volume-contraction checks pass, at least 3 legs are found and the base depth is <= 15; the setup is then the record built from that series' measurements |
| VcpScanner.SetupOfSound | backend/app/services/vcp_scanner.py:353-386 | every produced setup is sound |
| VcpScanner.SetupOf | backend/app/services/vcp_scanner.py:309-390 | defines the outcome of `scan_stock`; SetupOfAccepts and SetupOfSound characterise it |
| VcpScanner.HeldAfter | backend/app/services/vcp_scanner.py:52-58 | the benchmark held after k scans is well formed, and a benchmark held at the start is never replaced |
| VcpScanner.HeldAfterNone | backend/app/services/vcp_scanner.py:314-320 | none is held after k scans iff none was held at the start and every one of those scans that reached `_load_benchmark` (data present, at least 100 bars) got no answer |
| VcpScanner.BenchmarkKept | backend/app/services/vcp_scanner.py:52-58 | once a load succeeds, every later scan uses that same benchmark |
| VcpScanner.ScanBenchmarks | backend/app/services/vcp_scanner.py:406-413 | the i-th scan uses the benchmark held once it has loaded; all scans use the initial one when one is held |
| VcpScanner.Outcomes | backend/app/services/vcp_scanner.py:406-413 | one scan outcome per symbol, each against the benchmark its scan used |
| VcpScanner.OutcomeAt | backend/app/services/vcp_scanner.py:410 | the i-th outcome is the scan of the i-th symbol against the i-th scan's benchmark |
| VcpScanner.SetupsSound | backend/app/services/vcp_scanner.py:406-413 | every collected setup is sound and belongs to a scanned symbol |
| VcpScanner.Scanner.constructor | backend/app/services/vcp_scanner.py:47-50 | a new scanner holds no benchmark |
| VcpScanner.Scanner.LoadBenchmark | backend/app/services/vcp_scanner.py:52-58 | takes the provider's answer only when none is held; a held benchmark is kept |
| VcpScanner.Scanner.ScanStock | backend/app/services/vcp_scanner.py:309-390 | rejects a missing or short series before touching the benchmark; otherwise loads it (asking the provider only when none is held) and returns the specified outcome; a setup carries the symbol and is sound |
| VcpScanner.Scanner.ScanNext | backend/app/services/vcp_scanner.py:410 | one loop step scans the next symbol and moves the held benchmark on by that scan |
| VcpScanner.Scanner.CollectSetups | backend/app/services/vcp_scanner.py:405-413 | the loop collects exactly the setups of the universe, in order, each scanned against the benchmark then held; afterwards the benchmark is the one held after every scan |
| VcpScanner.Scanner.ScanUniverse | backend/app/services/vcp_scanner.py:392-418 | the benchmark is loaded once before the loop and retried by the scans while none is held; the result is the collected setups sorted by score, non-increasing, as a permutation; each is sound and from the universe |
| BreakoutFinder.RelativeVolume | backend/app/services/breakout_finder.py:57-58 | current volume over the previous bar's 20-bar volume SMA, or 0 when that SMA is <= 0; never negative |
| BreakoutFinder.CheckBreakout | backend/app/services/breakout_finder.py:35-64 | (False, 0, 0) for fewer than 101 bars; pivot is the prior 100-bar high; (False, 0, pivot) when close <= pivot; a breakout iff close > pivot and relative volume >= 1 |
| BreakoutFinder.BreakoutClearsRange | backend/app/services/breakout_finder.py:50-54 | a breakout close exceeds every high of the prior 100 bars |
| BreakoutFinder.NearPivotExcludesBreakout | backend/app/services/breakout_finder.py:53-54 | a series that passes the VCP near-breakout filter is never a breakout |
| BreakoutFinder.TrueRange | backend/app/services/breakout_finder.py:109-113 | the true range is the largest of the three terms |
| BreakoutFinder.TrueRangesNonNegative | backend/app/services/breakout_finder.py:109-113 | true ranges of well-formed bars are non-negative |
| BreakoutFinder.TrueRanges | backend/app/services/breakout_finder.py:105-113 | one true range per bar; TrueRange and TrueRangesNonNegative characterise its elements |
| BreakoutFinder.Atr | backend/app/services/breakout_finder.py:103-116 | defined iff at least `period` bars |
| BreakoutFinder.AtrBounds | backend/app/services/breakout_finder.py:114 | the ATR, the mean of the last `period` true ranges, lies between their minimum and maximum and is non-negative for well-formed bars |
| BreakoutFinder.RangeScore | backend/app/services/breakout_finder.py:80-85 | at most 25, non-negative for a non-negative range, and 0 without a positive ATR |
| BreakoutFinder.ClosePositionScore | backend/app/services/breakout_finder.py:88-90 | in [0, 25] for a close within the bar; 25 at the high; 0 at the low or for a flat bar |
| BreakoutFinder.GapPositive | backend/app/services/breakout_finder.py:93-95 | the gap is positive iff the open exceeds the previous close |
| BreakoutFinder.GapPct | backend/app/services/breakout_finder.py:93 | defines the gap from the previous close to the open, in percent; GapPositive characterises its sign |
| BreakoutFinder.GapScore | backend/app/services/breakout_finder.py:93-95 | in [0, 25], 0 with no gap up, 25 iff the gap is >= 5% |
| BreakoutFinder.VolumeScore | backend/app/services/breakout_finder.py:98-99 | in [0, 25], 0 iff relative volume <= 1, 25 iff relative volume >= 3 |
| BreakoutFinder.ConfirmationBounds | backend/app/services/breakout_finder.py:66-101 | the total is at most 100, and non-negative for a close within the bar |
| BreakoutFinder.CalculateConfirmationScore | backend/app/services/breakout_finder.py:66-101 | the accumulator equals the specified capped score, at most 100 and non-negative for a close within the bar |
| BreakoutFinder.ConfirmationScore | backend/app/services/breakout_finder.py:66-101 | defines the four components summed and capped at 100; ConfirmationBounds bounds it and CalculateConfirmationScore computes it |
| BreakoutFinder.Truncate | backend/app/services/breakout_finder.py:148 | `int(x)` truncates toward zero |
| BreakoutFinder.FindBreakoutSound | backend/app/services/breakout_finder.py:118-158 | a candidate exists iff data exists and the breakout test passes; it then carries the symbol and the given setup, a close above a positive pivot, relative volume >= 1, a non-negative volume and a confirmation score <= 100 |
| BreakoutFinder.FindBreakout | backend/app/services/breakout_finder.py:118-158 | defines the outcome of `find_breakout`; FindBreakoutSound and SetupIsNotBreakout characterise it |
| BreakoutFinder.SetupIsNotBreakout | backend/app/services/breakout_finder.py:122-128 | the series of an accepted VCP setup never yields a breakout candidate |
| BreakoutFinder.BreakoutOutcomes | backend/app/services/breakout_finder.py:169-173 | one outcome per symbol |
| BreakoutFinder.CandidatesSound | backend/app/services/breakout_finder.py:169-173 | every collected candidate is sound and belongs to a scanned symbol |
| BreakoutFinder.ScanForBreakouts | backend/app/services/breakout_finder.py:160-179 | the result is the candidates sorted by confirmation score, non-increasing, as a permutation; each is sound and from the universe |
| BreakoutFinder.SetupOutcomes | backend/app/services/breakout_finder.py:186-189 | one outcome per setup |
| BreakoutFinder.SetupCandidatesSound | backend/app/services/breakout_finder.py:186-189 | each candidate is sound and carries one of the given setups |
| BreakoutFinder.ScanVcpBreakouts | backend/app/services/breakout_finder.py:181-190 | the loop collects exactly those candidates, each carrying its setup |
| BreakoutFinder.FreshSetupsNeverBreakOut | backend/app/services/breakout_finder.py:181-190 | re-checking setups on the series they were found on gives no breakouts |
| Fundamental.ClassifyMarketCap | backend/app/services/fundamental.py:29-36 | Large iff >= 2e11, Mid iff in [5e10, 2e11), Small iff < 5e10 |
| Fundamental.ClassifyMonotone | backend/app/services/fundamental.py:29-36 | the category is monotone in market cap |
| Fundamental.Field | backend/app/services/fundamental.py:46 | `x or default` yields the default exactly for a missing, null or zero value, and the stored value otherwise |
| Fundamental.EarningsPoints | backend/app/services/fundamental.py:46-54 | a multiple of 5 up to 20; 20 iff growth > 0.25; 0 iff growth <= 0 |
| Fundamental.RevenuePoints | backend/app/services/fundamental.py:57-63 | a multiple of 5 up to 15; 15 iff growth > 0.20; 0 iff growth <= 0 |
| Fundamental.RoePoints | backend/app/services/fundamental.py:66-74 | a multiple of 5 up to 20; 20 iff ROE > 0.20; 0 iff ROE <= 0 |
| Fundamental.DebtPoints | backend/app/services/fundamental.py:77-83 | a multiple of 5 up to 15; 15 iff ratio < 30; 0 iff ratio >= 100 |
| Fundamental.MarginPoints | backend/app/services/fundamental.py:86-92 | a multiple of 5 up to 15; 15 iff margin > 0.15; 0 iff margin <= 0.05 |
| Fundamental.CurrentRatioPoints | backend/app/services/fundamental.py:95-101 | a multiple of 5 up to 15; 15 iff ratio > 2; 0 iff ratio <= 1 |
| Fundamental.ComponentsMonotone | backend/app/services/fundamental.py:46-101 | every ladder is non-decreasing in its input, debt-to-equity non-increasing |
| Fundamental.ThresholdsAreStrict | backend/app/services/fundamental.py:47-101 | a value exactly on a threshold falls to the lower tier |
| Fundamental.QualityScore | backend/app/services/fundamental.py:38-103 | the score is at most 100 |
| Fundamental.QualityScoreBounds | backend/app/services/fundamental.py:38-103 | the cap never binds (the maxima sum to 100); the score is a multiple of 5, and 100 iff every ladder is at its top |
| Fundamental.RawQualityScore | backend/app/services/fundamental.py:43-101 | defines the sum of the six ladder points; QualityScoreBounds shows it never exceeds 100 |
| Fundamental.MissingFieldsScoreZero | backend/app/services/fundamental.py:46-101 | with every field missing or null the score is 0 |
| Fundamental.ZeroDebtEarnsNothing | backend/app/services/fundamental.py:78-83 | a missing, null or literal-zero debt-to-equity becomes 100 and earns 0 |
| Fundamental.CalculateQualityScore | backend/app/services/fundamental.py:38-103 | the accumulator equals the specified score, a multiple of 5 in [0, 100] |
| Sentiment.Classify | backend/app/services/sentiment.py:74-81 | positive iff > 0.1, negative iff < -0.1, neutral otherwise, so exactly ±0.1 is neutral |
| Sentiment.ClassifyMonotone | backend/app/services/sentiment.py:74-81 | the label is monotone in the score, and ±0.1 are neutral |
| Sentiment.IndexOf | backend/app/services/sentiment.py:56 | the first occurrence of a character, or none iff absent |
| Sentiment.SubsequenceOfSuffix | backend/app/services/sentiment.py:56 | a subsequence of a suffix of a text is a subsequence of the text |
| Sentiment.StripTags | backend/app/services/sentiment.py:56 | removing `<...>` spans only deletes characters: the result is a subsequence of the input |
| Sentiment.StripTagsUnchanged | backend/app/services/sentiment.py:56 | text without `<` is untouched |
| Sentiment.StripTagsKeepsHead | backend/app/services/sentiment.py:56 | a leading non-`<` character survives |
| Sentiment.StripTagsTagFree | backend/app/services/sentiment.py:56 | after removal no `<` is followed by a `>` |
| Sentiment.ReplaceSpecial | backend/app/services/sentiment.py:58 | each non-word, non-space character becomes a space and the rest are kept |
| Sentiment.TakeWord | backend/app/services/sentiment.py:60 | the longest prefix without whitespace |
| Sentiment.NonSpaceSplit | backend/app/services/sentiment.py:60 | a whitespace-free prefix is kept whole among the text's non-whitespace characters |
| Sentiment.Words | backend/app/services/sentiment.py:60 | the words are non-empty and whitespace-free, and laid end to end they are exactly the text's non-whitespace characters, in order |
| Sentiment.JoinNormalized | backend/app/services/sentiment.py:60 | joining word-character words with single spaces gives normalised text |
| Sentiment.JoinWordsOfNormalized | backend/app/services/sentiment.py:60 | collapsing whitespace in normalised text changes nothing |
| Sentiment.CleanTextNormalized | backend/app/services/sentiment.py:53-61 | the output is word characters separated by single spaces, with no leading or trailing space and no `<` |
| Sentiment.CleanTextIdempotent | backend/app/services/sentiment.py:53-61 | cleaning twice equals cleaning once |
| Sentiment.CleanTextKeepsNormalized | backend/app/services/sentiment.py:53-61 | text that is already word characters separated by single spaces is left unchanged |
| Sentiment.TakeWordBeforeSpace | backend/app/services/sentiment.py:60 | the first word of a word followed by whitespace is that word |
| Sentiment.TakeWordAll | backend/app/services/sentiment.py:60 | a text without whitespace is its own first word |
| Sentiment.WordsOfWord | backend/app/services/sentiment.py:60 | a non-empty text without whitespace splits into itself alone |
| Sentiment.WordsOfWordThenSpace | backend/app/services/sentiment.py:60 | a word, a space and more text split into the word and then the words of the rest |
| Sentiment.WordsOfJoin | backend/app/services/sentiment.py:60 | splitting words joined by single spaces gives back the words |
| Sentiment.CleanTextWords | backend/app/services/sentiment.py:53-61 | the cleaned text has exactly the words of the tag-stripped, special-replaced text, so the same non-whitespace characters in the same order |
| Sentiment.CleanText | backend/app/services/sentiment.py:53-61 | defines `_clean_text` as strip, replace, split and join; characterised by CleanTextNormalized, CleanTextIdempotent, CleanTextKeepsNormalized and CleanTextWords |
| Sentiment.Prefix | backend/app/services/sentiment.py:40 | `[:limit]` keeps the first min(limit, n) items |
| Sentiment.FeedEntries | backend/app/services/sentiment.py:35-46 | defines the first `limit` entries of each feed, feed after feed; FetchNews is stated through it |
| Sentiment.FetchNews | backend/app/services/sentiment.py:31-51 | at most `limit` articles, a prefix of the collected feed entries |
| Sentiment.Titles | backend/app/services/sentiment.py:124 | the titles of the articles, in order |
| Sentiment.Analyzer | backend/app/services/sentiment.py:63-72 | the analyser polarises the cleaned text |
| Sentiment.Scores | backend/app/services/sentiment.py:108-110 | one score per article, in order |
| Sentiment.Polarities | backend/app/services/sentiment.py:108-110 | the i-th score is the polarity of the i-th article's cleaned text |
| Sentiment.CountLabel | backend/app/services/sentiment.py:112-118 | a label count never exceeds the number of scores |
| Sentiment.CountLabelStep | backend/app/services/sentiment.py:112-118 | one more score raises exactly its own label's count |
| Sentiment.CountsPartition | backend/app/services/sentiment.py:112-118 | positive + negative + neutral = number of articles |
| Sentiment.AverageBounds | backend/app/services/sentiment.py:121 | the mean of scores in [-1, 1] stays in [-1, 1] |
| Sentiment.AverageScore | backend/app/services/sentiment.py:121 | defines the mean polarity, 0 without articles; AverageBounds bounds it |
| Sentiment.ScoreArticles | backend/app/services/sentiment.py:103-118 | the loop scores each article and counts each label exactly |
| Sentiment.Analyze | backend/app/services/sentiment.py:83-136 | the record carries the article count (<= 10), the mean score and its label, the three counts summing to the article count and the first 5 titles; with no articles it is the neutral zero record |
| Routes.Split | backend/app/api/routes.py:35 | `split(",")` gives at least one piece, none containing the separator |
| Routes.SplitJoin | backend/app/api/routes.py:35 | joining the pieces with "," restores the input, and there is one piece more than there are commas |
| Routes.SymbolList | backend/app/api/routes.py:35 | an absent or empty parameter means the default universe; otherwise the comma-separated pieces |
| Routes.ScanVcpPatterns | backend/app/api/routes.py:25-39 | the response is the first `limit` setups of the sorted scan, sorted, sound and from the requested symbols |
| Routes.ScanBreakouts | backend/app/api/routes.py:42-56 | the response is the first `limit` candidates of the sorted scan, sorted, sound and from the requested symbols |
| Routes.SentimentToScale | backend/app/api/routes.py:171 | (s + 1) × 50 maps [-1, 1] onto [0, 100] |
| Routes.Components | backend/app/api/routes.py:163-173 | at most 3, and 0 iff no analysis is present |
| Routes.CombinedScore | backend/app/api/routes.py:159-176 | the step-by-step accumulation yields the component count and the combined score as written |
| Routes.AsWrittenIsHundredfold | backend/app/api/routes.py:175-176 | the combined score as written is 100 times the 0–100 score |
| Routes.NoAnalysisMeansAvoid | backend/app/api/routes.py:160-161 | with no analysis the score stays 0 and the recommendation is AVOID |
| Routes.AsWrittenUnbounded | backend/app/api/routes.py:169-176 | a neutral sentiment alone scores 500 and is a STRONG BUY |
| Routes.AsWrittenScore | backend/app/api/routes.py:159-176 | defines the combined score as the endpoint computes it; AsWrittenIsHundredfold and AsWrittenUnbounded characterise it |
| Routes.IntendedScoreBounds | backend/app/api/routes.py:175-176 | without the factor of 100 the combined score lies in [0, 100 × components / 3] |
| Routes.WeightedSumBounds | backend/app/api/routes.py:163-173 | the weighted sum of in-range scores lies in [0, 100] |
| Routes.WeightedSum | backend/app/api/routes.py:163-173 | defines the weighted sum of the analyses present; WeightedSumBounds bounds it |
| Routes.ScaleByComponents | backend/app/api/routes.py:175-176 | rescaling by components / 3 keeps the score in [0, 100] |
| Routes.Rescale | backend/app/api/routes.py:175-176 | defines line 176 as written; ScaleByComponents and AsWrittenIsHundredfold characterise it |
| Routes.IntendedRecommendations | backend/app/api/routes.py:175-186 | on the 0–100 score, STRONG BUY needs all three analyses, and a single analysis always gives AVOID |
| Routes.Recommend | backend/app/api/routes.py:178-186 | >= 70 STRONG BUY, [55, 70) BUY, [40, 55) HOLD, < 40 AVOID |
| Routes.RecommendMonotone | backend/app/api/routes.py:178-186 | the recommendation is monotone in the score |
| Routes.FullAnalysisRecommendation | backend/app/api/routes.py:159-186 | with the corrected score, fewer than three analyses never give STRONG BUY, and no analysis at all gives AVOID |

## Left out

- Network I/O: yfinance (`get_stock_data`, `get_stock_info`, `get_benchmark_data`, `get_multiple_stocks`) and
  feedparser are not modelled. Their results arrive as the parameters `market`, `initialFetch`, `fetches` and `feeds`.
- The five-minute cache in the data fetcher and every wall-clock value (`detected_at`, `analyzed_at`,
  `breakout_date`, leg dates). A leg records its bar positions in the analysed window in place of dates.
- Display names (`longName`) and `round(x, n)` on outputs: reals are exact.
- Floating-point arithmetic: `0.4 + 0.3 + 0.3` is exactly 1 here.
- Pandas NaN propagation: windows are used only where the length guards make them fully defined. The liquidity SMA
  requires 20 bars, which the 100-bar guard of `scan_stock` always provides. An ATR over too few bars is `None`, and
  `RangeScore` gives it 0, as `NaN > 0` is false in the source.
- VcpScoring.DetectedLegsContract, VcpLegs.DetectLegs, VcpLegs.BaseDepth: the 2-decimal rounding of each leg's high,
  low and depth (`backend/app/services/vcp_scanner.py:242-244`) is not modelled. The total depth (lines 255-257) and
  the contraction count (lines 280-281) read those rounded values back, so these contracts hold for exact depths
  only; with rounding, two depths that differ by less than 0.005 can compare equal.
- The `\w` and `\s` classes of `_clean_text` are approximated by ASCII letters, digits, `_` and ASCII whitespace.
- `calculate_rs_percentile` sorts before counting. The model counts on the unsorted list, which gives the same count.
- The `all_stocks_data` prefetch in `scan_universe`: `scan_stock` never reads it.
- Sorting.SortDesc: `list.sort` works in place on the result list; the model is an insertion sort on values (stable by construction, not proved),
  so it does not capture the update in place or the sort's speed.
- The record assembly of `FundamentalAnalyzer.analyze`, `get_fundamental_summary` and `get_sentiment_summary`:
  these are formatting and I/O.
- The other API endpoints, the rest of `get_full_analysis`, FastAPI routing, `HTTPException`, async and CORS.
- TextBlob is an uninterpreted `polarity` parameter. Its range [-1, 1] is a hypothesis of the bounds, not an assumption.
- Exceptions are modelled as `None` results.
- `config.py` values are named constants; only those the core reads are modelled.

## Findings

| source | as written | input that shows it | evidently intended | confidence | as-written member | corrected member |
|---|---|---|---|---|---|---|
| backend/app/api/routes.py:175-176 | the weighted sum of 0–100 scores is rescaled and then multiplied by 100 | no VCP setup, no fundamentals, sentiment 0.0: combined score 500, STRONG BUY | a combined score in [0, 100] (the ladder's thresholds are 70/55/40) | not executed | Routes.AsWrittenUnbounded | Routes.IntendedScoreBounds |
