/**
 * The computational part of backend/app/api/routes.py: the symbol-list
 * parameter, the `[:limit]` truncation of the scan endpoints, and the
 * combined score and recommendation of the full-analysis endpoint.
 */
module Routes {
  import opened Wrappers
  import opened Series
  import opened Models
  import opened Config
  import Sorting
  import VcpScanner
  import BreakoutFinder

  // ------------------------------------------------------- symbol lists

  /** `s.split(sep)`: the pieces between separators, empty ones included. */
  function Split(s: string, sep: char): (pieces: seq<string>)
    ensures |pieces| >= 1
    ensures forall p :: p in pieces ==> sep !in p
  {
    if s == [] then [""]
    else
      var rest := Split(s[1..], sep);
      if s[0] == sep then [""] + rest
      else
        assert forall p :: p in rest[1..] ==> p in rest;
        [[s[0]] + rest[0]] + rest[1..]
  }

  /** `sep.join(pieces)`. */
  function JoinWith(pieces: seq<string>, sep: char): string
    requires |pieces| >= 1
  {
    if |pieces| == 1 then pieces[0] else pieces[0] + [sep] + JoinWith(pieces[1..], sep)
  }

  /** Number of occurrences of `c` in `s`. */
  function Occurrences(s: string, c: char): nat {
    if s == [] then 0 else (if s[0] == c then 1 else 0) + Occurrences(s[1..], c)
  }

  /** Splitting loses nothing: joining the pieces back gives the text, and there is one piece per separator plus one. */
  lemma {:induction false} SplitJoin(s: string, sep: char)
    ensures JoinWith(Split(s, sep), sep) == s
    ensures |Split(s, sep)| == Occurrences(s, sep) + 1
  {
    if s != [] {
      var rest := Split(s[1..], sep);
      SplitJoin(s[1..], sep);
      if s[0] == sep {
        assert ([""] + rest)[1..] == rest;
      } else {
        var pieces := [[s[0]] + rest[0]] + rest[1..];
        assert Split(s, sep) == pieces;
        if |rest| > 1 {
          assert pieces[1..] == rest[1..];
          assert JoinWith(pieces, sep) == [s[0]] + (rest[0] + [sep] + JoinWith(rest[1..], sep));
        }
      }
    }
  }

  /** The `symbols` query parameter: absent or empty means the default universe, otherwise split on commas. */
  function SymbolList(symbols: Option<string>): (r: seq<string>)
    ensures |r| >= 1
    ensures symbols.None? || symbols.value == "" ==> r == Nifty500Symbols
    ensures symbols.Some? && symbols.value != "" ==> JoinWith(r, ',') == symbols.value
  {
    if symbols.None? || symbols.value == "" then Nifty500Symbols
    else
      SplitJoin(symbols.value, ',');
      Split(symbols.value, ',')
  }

  const VcpScanLimit: int := 50
  const BreakoutScanLimit: int := 20

  /**
   * `scan_vcp_patterns`: the scan of the symbol list, cut to `limit`. The
   * result is a prefix of the full sorted scan, so it is sorted as well.
   */
  method ScanVcpPatterns(scanner: VcpScanner.Scanner, symbols: Option<string>, limit: int,
                         market: string -> Fetched, initialFetch: Option<seq<Bar>>, fetches: seq<Option<seq<Bar>>>)
    returns (results: seq<VcpSetup>)
    requires forall i :: 0 <= i < |SymbolList(symbols)| ==> VcpScanner.ValidFetched(market(SymbolList(symbols)[i]))
    requires |fetches| == |SymbolList(symbols)|
    requires VcpScanner.ValidBenchmark(scanner.benchmark) && VcpScanner.ValidBenchmark(initialFetch)
    requires VcpScanner.ValidBenchmarks(fetches)
    modifies scanner
    ensures scanner.benchmark == VcpScanner.HeldAfter(VcpScanner.Loaded(old(scanner.benchmark), initialFetch),
                                                      SymbolList(symbols), market, fetches, |SymbolList(symbols)|)
    ensures results == Sorting.Take(Sorting.SortDesc(Present(VcpScanner.Outcomes(SymbolList(symbols), market,
                                                       VcpScanner.ScanBenchmarks(VcpScanner.Loaded(old(scanner.benchmark),
                                                                                                   initialFetch),
                                                                                 SymbolList(symbols), market, fetches))),
                                                     VcpScanner.ScoreOf), limit)
    ensures Sorting.SortedDesc(results, VcpScanner.ScoreOf)
    ensures limit >= 0 ==> |results| <= limit
    ensures forall s :: s in results ==> VcpScanner.SoundSetup(s) && s.symbol in SymbolList(symbols)
  {
    var symbolList := SymbolList(symbols);
    var scanned := scanner.ScanUniverse(Some(symbolList), market, initialFetch, fetches);
    results := Sorting.Take(scanned, limit);
    Sorting.TakeSorted(scanned, limit, VcpScanner.ScoreOf);
    assert forall s :: s in results ==> s in scanned;
  }

  /** `scan_breakouts`: the breakout scan of the symbol list, cut to `limit`. */
  method ScanBreakouts(symbols: Option<string>, limit: int, market: string -> Fetched)
    returns (results: seq<BreakoutCandidate>)
    requires forall i :: 0 <= i < |SymbolList(symbols)| ==> VcpScanner.ValidFetched(market(SymbolList(symbols)[i]))
    ensures results == Sorting.Take(Sorting.SortDesc(Present(
                                                       BreakoutFinder.BreakoutOutcomes(SymbolList(symbols), market)),
                                                     BreakoutFinder.ConfirmationOf), limit)
    ensures Sorting.SortedDesc(results, BreakoutFinder.ConfirmationOf)
    ensures limit >= 0 ==> |results| <= limit
    ensures forall c :: c in results ==> BreakoutFinder.SoundBreakout(c) && c.symbol in SymbolList(symbols)
  {
    var symbolList := SymbolList(symbols);
    var scanned := BreakoutFinder.ScanForBreakouts(Some(symbolList), market);
    results := Sorting.Take(scanned, limit);
    Sorting.TakeSorted(scanned, limit, BreakoutFinder.ConfirmationOf);
    assert forall c :: c in results ==> c in scanned;
  }

  // ----------------------------------------------------- combined score

  const VcpWeight: real := 0.4
  const FundamentalWeight: real := 0.3
  const SentimentWeight: real := 0.3

  /** A news sentiment in [-1, 1] moved onto the 0-100 scale. */
  function SentimentToScale(sentiment: real): (s: real)
    ensures -1.0 <= sentiment <= 1.0 ==> 0.0 <= s <= 100.0
    ensures sentiment == -1.0 ==> s == 0.0
    ensures sentiment == 1.0 ==> s == 100.0
  {
    (sentiment + 1.0) * 50.0
  }

  /** Number of analyses that are present. */
  function Components(vcpScore: Option<real>, qualityScore: Option<real>, sentiment: Option<real>): (n: nat)
    ensures n <= 3
    ensures n == 0 <==> vcpScore.None? && qualityScore.None? && sentiment.None?
  {
    (if vcpScore.Some? then 1 else 0) + (if qualityScore.Some? then 1 else 0) + (if sentiment.Some? then 1 else 0)
  }

  /** The weighted sum of the analyses that are present. */
  function WeightedSum(vcpScore: Option<real>, qualityScore: Option<real>, sentiment: Option<real>): real {
    (if vcpScore.Some? then vcpScore.value * VcpWeight else 0.0)
    + (if qualityScore.Some? then qualityScore.value * FundamentalWeight else 0.0)
    + (if sentiment.Some? then SentimentToScale(sentiment.value) * SentimentWeight else 0.0)
  }

  /** Line 176 as written: the weighted sum over the total weight, times the share of analyses present, times 100. */
  function Rescale(weightedSum: real, components: nat): real {
    if components > 0 then weightedSum / (VcpWeight + FundamentalWeight + SentimentWeight)
                           * (components as real) / 3.0 * 100.0
    else weightedSum
  }

  /** The combined score as the endpoint computes it, with the final factor 100 on scores already on a 0-100 scale. */
  function AsWrittenScore(vcpScore: Option<real>, qualityScore: Option<real>, sentiment: Option<real>): real {
    Rescale(WeightedSum(vcpScore, qualityScore, sentiment), Components(vcpScore, qualityScore, sentiment))
  }

  /** The combined score on the 0-100 scale of its inputs and of the recommendation thresholds. */
  function IntendedScore(vcpScore: Option<real>, qualityScore: Option<real>, sentiment: Option<real>): real {
    ScaleDown(WeightedSum(vcpScore, qualityScore, sentiment), Components(vcpScore, qualityScore, sentiment))
  }

  /** The weighted sum over the total weight, times the share of analyses present; 0 without any. */
  function ScaleDown(weightedSum: real, components: nat): real {
    if components > 0 then weightedSum / (VcpWeight + FundamentalWeight + SentimentWeight) * (components as real) / 3.0
    else 0.0
  }

  /** Inputs on their documented scales: scores in [0, 100], news sentiment in [-1, 1]. */
  predicate InRange(vcpScore: Option<real>, qualityScore: Option<real>, sentiment: Option<real>) {
    && (vcpScore.Some? ==> 0.0 <= vcpScore.value <= 100.0)
    && (qualityScore.Some? ==> 0.0 <= qualityScore.value <= 100.0)
    && (sentiment.Some? ==> -1.0 <= sentiment.value <= 1.0)
  }

  /** The score as written is exactly 100 times the intended one. */
  lemma AsWrittenIsHundredfold(vcpScore: Option<real>, qualityScore: Option<real>, sentiment: Option<real>)
    ensures AsWrittenScore(vcpScore, qualityScore, sentiment) == 100.0 * IntendedScore(vcpScore, qualityScore, sentiment)
  {
  }

  /** Without any analysis the combined score stays 0 and the recommendation is to avoid. */
  lemma NoAnalysisMeansAvoid(vcpScore: Option<real>, qualityScore: Option<real>, sentiment: Option<real>)
    requires Components(vcpScore, qualityScore, sentiment) == 0
    ensures AsWrittenScore(vcpScore, qualityScore, sentiment) == 0.0
    ensures Recommend(AsWrittenScore(vcpScore, qualityScore, sentiment)) == Avoid
  {
  }

  /** A neutral news sentiment alone gives a combined score of 500 as written, and a strong buy. */
  lemma AsWrittenUnbounded()
    ensures AsWrittenScore(None, None, Some(0.0)) == 500.0
    ensures Recommend(AsWrittenScore(None, None, Some(0.0))) == StrongBuy
  {
  }

  /**
   * The intended score lies in [0, 100]; it is at most a third of 100 per
   * analysis present, so a strong buy needs all three.
   */
  lemma IntendedScoreBounds(vcpScore: Option<real>, qualityScore: Option<real>, sentiment: Option<real>)
    requires InRange(vcpScore, qualityScore, sentiment)
    ensures 0.0 <= IntendedScore(vcpScore, qualityScore, sentiment)
    ensures IntendedScore(vcpScore, qualityScore, sentiment)
              <= 100.0 * (Components(vcpScore, qualityScore, sentiment) as real) / 3.0
    ensures IntendedScore(vcpScore, qualityScore, sentiment) <= 100.0
  {
    WeightedSumBounds(vcpScore, qualityScore, sentiment);
    ScaleByComponents(WeightedSum(vcpScore, qualityScore, sentiment), Components(vcpScore, qualityScore, sentiment));
  }

  /** The weighted sum of in-range inputs lies in [0, 100], since the weights add up to 1. */
  lemma WeightedSumBounds(vcpScore: Option<real>, qualityScore: Option<real>, sentiment: Option<real>)
    requires InRange(vcpScore, qualityScore, sentiment)
    ensures 0.0 <= WeightedSum(vcpScore, qualityScore, sentiment) <= 100.0
  {
    var a := if vcpScore.Some? then vcpScore.value * VcpWeight else 0.0;
    var b := if qualityScore.Some? then qualityScore.value * FundamentalWeight else 0.0;
    var c := if sentiment.Some? then SentimentToScale(sentiment.value) * SentimentWeight else 0.0;
    assert 0.0 <= a <= 40.0 && 0.0 <= b <= 30.0 && 0.0 <= c <= 30.0;
  }

  lemma ScaleByComponents(w: real, n: nat)
    requires 0.0 <= w <= 100.0 && n <= 3
    ensures 0.0 <= ScaleDown(w, n) <= 100.0 * (n as real) / 3.0 <= 100.0
  {
    assert w / (VcpWeight + FundamentalWeight + SentimentWeight) == w;
    if n == 1 {
      assert (n as real) == 1.0;
    } else if n == 2 {
      assert (n as real) == 2.0;
    } else if n == 3 {
      assert (n as real) == 3.0;
    }
  }

  /** With the intended score, a strong buy needs all three analyses and a single one never rises above avoid. */
  lemma IntendedRecommendations(vcpScore: Option<real>, qualityScore: Option<real>, sentiment: Option<real>)
    requires InRange(vcpScore, qualityScore, sentiment)
    ensures Recommend(IntendedScore(vcpScore, qualityScore, sentiment)) == StrongBuy ==>
              Components(vcpScore, qualityScore, sentiment) == 3
    ensures Components(vcpScore, qualityScore, sentiment) <= 1 ==>
              Recommend(IntendedScore(vcpScore, qualityScore, sentiment)) == Avoid
  {
    IntendedScoreBounds(vcpScore, qualityScore, sentiment);
  }

  /**
   * The accumulation of `get_full_analysis` as written: each analysis that
   * is present adds its weighted score and one component.
   */
  method CombinedScore(vcpScore: Option<real>, qualityScore: Option<real>, sentiment: Option<real>)
    returns (combinedScore: real, components: nat)
    ensures components == Components(vcpScore, qualityScore, sentiment) <= 3
    ensures combinedScore == AsWrittenScore(vcpScore, qualityScore, sentiment)
  {
    combinedScore := 0.0;
    components := 0;
    if vcpScore.Some? {
      combinedScore := combinedScore + vcpScore.value * VcpWeight;
      components := components + 1;
    }
    if qualityScore.Some? {
      combinedScore := combinedScore + qualityScore.value * FundamentalWeight;
      components := components + 1;
    }
    if sentiment.Some? {
      var sentimentScore := (sentiment.value + 1.0) * 50.0;
      combinedScore := combinedScore + sentimentScore * SentimentWeight;
      components := components + 1;
    }
    assert combinedScore == WeightedSum(vcpScore, qualityScore, sentiment);
    assert components == Components(vcpScore, qualityScore, sentiment);
    ghost var weightedSum := combinedScore;
    if components > 0 {
      combinedScore := combinedScore / (VcpWeight + FundamentalWeight + SentimentWeight) * (components as real) / 3.0 * 100.0;
    }
    assert combinedScore == Rescale(weightedSum, components);
  }

  datatype Recommendation = StrongBuy | Buy | Hold | Avoid

  function RecommendationRank(r: Recommendation): nat {
    match r
    case Avoid => 0
    case Hold => 1
    case Buy => 2
    case StrongBuy => 3
  }

  /** The recommendation ladder: 70, 55 and 40 and above. */
  function Recommend(score: real): (r: Recommendation)
    ensures r == StrongBuy <==> score >= 70.0
    ensures r == Buy <==> 55.0 <= score < 70.0
    ensures r == Hold <==> 40.0 <= score < 55.0
    ensures r == Avoid <==> score < 40.0
  {
    if score >= 70.0 then StrongBuy
    else if score >= 55.0 then Buy
    else if score >= 40.0 then Hold
    else Avoid
  }

  /** A higher score never gets a weaker recommendation. */
  lemma RecommendMonotone(x: real, y: real)
    requires x <= y
    ensures RecommendationRank(Recommend(x)) <= RecommendationRank(Recommend(y))
  {
  }

  /** The recommendation of the full analysis, on the intended 0-100 combined score. */
  function FullAnalysisRecommendation(vcpScore: Option<real>, qualityScore: Option<real>, sentiment: Option<real>)
    : (r: Recommendation)
    requires InRange(vcpScore, qualityScore, sentiment)
    ensures Components(vcpScore, qualityScore, sentiment) < 3 ==> r != StrongBuy
    ensures Components(vcpScore, qualityScore, sentiment) == 0 ==> r == Avoid
  {
    IntendedRecommendations(vcpScore, qualityScore, sentiment);
    Recommend(IntendedScore(vcpScore, qualityScore, sentiment))
  }
}
