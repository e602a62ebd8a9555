/**
 * backend/app/services/breakout_finder.py: a breakout is a close above the
 * 100-bar pivot on at least average volume; its confirmation score adds four
 * components of at most 25 each.
 */
module BreakoutFinder {
  import opened Wrappers
  import opened Series
  import opened Models
  import opened Config
  import Sorting
  import VcpFilters
  import VcpScanner

  const AtrPeriod: nat := 14

  /** `(is_breakout, relative_volume, pivot_price)`. */
  datatype BreakoutCheck = BreakoutCheck(isBreakout: bool, relativeVolume: real, pivotPrice: real)

  /** Last volume over the previous bar's 20-bar volume SMA, or 0 when that SMA is not positive. */
  function RelativeVolume(bars: seq<Bar>): (rv: real)
    requires |bars| >= 21 && ValidBars(bars)
    ensures rv >= 0.0
    ensures VcpFilters.VolumeSma(bars, |bars| - 2) <= 0.0 ==> rv == 0.0
    ensures VcpFilters.VolumeSma(bars, |bars| - 2) > 0.0 ==>
              rv * VcpFilters.VolumeSma(bars, |bars| - 2) == bars[|bars| - 1].volume
  {
    var sma := VcpFilters.VolumeSma(bars, |bars| - 2);
    if sma > 0.0 then bars[|bars| - 1].volume / sma else 0.0
  }

  /** `check_breakout_conditions`. */
  function CheckBreakout(bars: seq<Bar>): (r: BreakoutCheck)
    requires ValidBars(bars)
    ensures |bars| < PivotRange + 1 ==> r == BreakoutCheck(false, 0.0, 0.0)
    ensures |bars| >= PivotRange + 1 ==> r.pivotPrice == PivotHigh(bars)
    ensures |bars| >= PivotRange + 1 && VcpFilters.LastClose(bars) <= PivotHigh(bars) ==>
              r == BreakoutCheck(false, 0.0, PivotHigh(bars))
    ensures r.isBreakout <==>
              |bars| >= PivotRange + 1 && VcpFilters.LastClose(bars) > PivotHigh(bars)
              && RelativeVolume(bars) >= RelativeVolumeThreshold
    ensures r.isBreakout ==> r.relativeVolume >= RelativeVolumeThreshold
    ensures |bars| >= PivotRange + 1 && VcpFilters.LastClose(bars) > PivotHigh(bars) ==>
              r.relativeVolume == RelativeVolume(bars)
  {
    if |bars| < PivotRange + 1 then BreakoutCheck(false, 0.0, 0.0)
    else
      var pivot := PivotHigh(bars);
      if VcpFilters.LastClose(bars) <= pivot then BreakoutCheck(false, 0.0, pivot)
      else
        var rv := RelativeVolume(bars);
        if rv < RelativeVolumeThreshold then BreakoutCheck(false, rv, pivot)
        else BreakoutCheck(true, rv, pivot)
  }

  /** A breakout close is above every high of the 100 bars before it. */
  lemma BreakoutClearsRange(bars: seq<Bar>)
    requires ValidBars(bars) && CheckBreakout(bars).isBreakout
    ensures forall i :: |bars| - 101 <= i < |bars| - 1 ==> bars[i].high < VcpFilters.LastClose(bars)
  {
  }

  /** A series the VCP filter finds near (at or below) its pivot is not a breakout, and the other way round. */
  lemma NearPivotExcludesBreakout(bars: seq<Bar>)
    requires ValidBars(bars)
    ensures VcpFilters.NearBreakout(bars).Passed? ==> !CheckBreakout(bars).isBreakout
  {
  }

  function Max2(x: real, y: real): real { if x >= y then x else y }
  function Min2(x: real, y: real): real { if x <= y then x else y }
  function Abs(x: real): real { if x < 0.0 then -x else x }

  /** The true range of bar `i`: its range, widened to the previous close; the first bar has no previous close. */
  function TrueRange(bars: seq<Bar>, i: nat): (tr: real)
    requires i < |bars|
    ensures tr >= bars[i].high - bars[i].low
    ensures i > 0 ==> tr >= Abs(bars[i].high - bars[i - 1].close) && tr >= Abs(bars[i].low - bars[i - 1].close)
    ensures tr == bars[i].high - bars[i].low || (i > 0 && (tr == Abs(bars[i].high - bars[i - 1].close)
                                                          || tr == Abs(bars[i].low - bars[i - 1].close)))
  {
    var b := bars[i];
    if i == 0 then b.high - b.low
    else Max2(Max2(b.high - b.low, Abs(b.high - bars[i - 1].close)), Abs(b.low - bars[i - 1].close))
  }

  function TrueRanges(bars: seq<Bar>): (r: seq<real>)
    ensures |r| == |bars|
  {
    seq(|bars|, i requires 0 <= i < |bars| => TrueRange(bars, i))
  }

  /** True ranges of valid bars are not negative. */
  lemma TrueRangesNonNegative(bars: seq<Bar>)
    requires ValidBars(bars)
    ensures forall k :: 0 <= k < |bars| ==> TrueRanges(bars)[k] >= 0.0
  {
    forall k | 0 <= k < |bars| ensures TrueRanges(bars)[k] >= 0.0 {
      assert ValidBar(bars[k]);
    }
  }

  /** `_calculate_atr`: the mean of the last `period` true ranges, undefined (NaN) for a shorter series. */
  function Atr(bars: seq<Bar>, period: nat): (atr: Option<real>)
    requires period >= 1
    ensures atr.Some? <==> |bars| >= period
  {
    if |bars| < period then None else Some(Mean(TrueRanges(bars)[|bars| - period..]))
  }

  /** The ATR lies between the smallest and largest true range it averages, and is not negative for valid bars. */
  lemma AtrBounds(bars: seq<Bar>, period: nat)
    requires period >= 1 && |bars| >= period
    ensures var w := TrueRanges(bars)[|bars| - period..];
      Min(w) <= Atr(bars, period).value <= Max(w)
    ensures ValidBars(bars) ==> Atr(bars, period).value >= 0.0
  {
    var all := TrueRanges(bars);
    var w := all[|bars| - period..];
    MeanBetween(w);
    if ValidBars(bars) {
      TrueRangesNonNegative(bars);
      assert forall k :: 0 <= k < |w| ==> w[k] == all[|bars| - period + k];
      MeanNonNegative(w);
    }
  }

  /** Wide range bar score: ten times the range over the ATR, at most 25; 0 without a positive ATR. */
  function RangeScore(dailyRange: real, atr: Option<real>): (s: real)
    ensures s <= 25.0
    ensures dailyRange >= 0.0 ==> s >= 0.0
    ensures !(atr.Some? && atr.value > 0.0) ==> s == 0.0
  {
    if atr.Some? && atr.value > 0.0 then
      DivideBounds(dailyRange, atr.value, dailyRange / atr.value, dailyRange / atr.value);
      Min2(dailyRange / atr.value * 10.0, 25.0)
    else 0.0
  }

  /** Close position score: where the close sits in the bar's range, times 25; 0 for a bar with no range. */
  function ClosePositionScore(b: Bar): (s: real)
    ensures b.low <= b.close <= b.high ==> 0.0 <= s <= 25.0
    ensures b.high - b.low > 0.0 && b.close == b.high ==> s == 25.0
    ensures b.close == b.low || b.high - b.low <= 0.0 ==> s == 0.0
  {
    var dailyRange := b.high - b.low;
    if dailyRange > 0.0 then
      var position := (b.close - b.low) / dailyRange;
      if b.low <= b.close <= b.high then
        DivideBounds(b.close - b.low, dailyRange, 0.0, 1.0);
        position * 25.0
      else position * 25.0
    else 0.0
  }

  /** Gap from the previous close to this open, in percent. */
  function GapPct(previous: Bar, current: Bar): real
    requires ValidBar(previous)
  {
    (current.open - previous.close) / previous.close * 100.0
  }

  /** A gap measured as positive is an open above the previous close. */
  lemma GapPositive(previous: Bar, current: Bar)
    requires ValidBar(previous)
    ensures GapPct(previous, current) > 0.0 <==> current.open > previous.close
  {
    DivideAtMost(current.open - previous.close, previous.close, 0.0);
  }

  /** Gap-up score: five times a positive gap, at most 25; 0 when the bar does not gap up. */
  function GapScore(gapPct: real): (s: real)
    ensures 0.0 <= s <= 25.0
    ensures gapPct <= 0.0 ==> s == 0.0
    ensures s == 25.0 <==> gapPct >= 5.0
  {
    if gapPct > 0.0 then Min2(gapPct * 5.0, 25.0) else 0.0
  }

  /** Relative volume score: 12.5 per unit of relative volume above 1, between 0 and 25. */
  function VolumeScore(relativeVolume: real): (s: real)
    ensures 0.0 <= s <= 25.0
    ensures s == 0.0 <==> relativeVolume <= 1.0
    ensures s == 25.0 <==> relativeVolume >= 3.0
  {
    Max2(Min2((relativeVolume - 1.0) * 12.5, 25.0), 0.0)
  }

  /** The four components added up, before the cap at 100. */
  function RawConfirmation(bars: seq<Bar>, relativeVolume: real): real
    requires |bars| >= 2 && ValidBars(bars)
  {
    var current, previous := bars[|bars| - 1], bars[|bars| - 2];
    RangeScore(current.high - current.low, Atr(bars, AtrPeriod)) + ClosePositionScore(current)
      + GapScore(GapPct(previous, current)) + VolumeScore(relativeVolume)
  }

  /** `calculate_confirmation_score`: the components' sum capped at 100. */
  function ConfirmationScore(bars: seq<Bar>, relativeVolume: real): real
    requires |bars| >= 2 && ValidBars(bars)
  {
    Min2(RawConfirmation(bars, relativeVolume), 100.0)
  }

  /**
   * For a last bar whose close lies within its range the cap never binds and
   * the score is in [0, 100]; whatever the bar, it is at most 100.
   */
  lemma ConfirmationBounds(bars: seq<Bar>, relativeVolume: real)
    requires |bars| >= 2 && ValidBars(bars)
    ensures ConfirmationScore(bars, relativeVolume) <= 100.0
    ensures var b := bars[|bars| - 1];
      b.low <= b.close <= b.high ==>
        && ConfirmationScore(bars, relativeVolume) == RawConfirmation(bars, relativeVolume)
        && 0.0 <= ConfirmationScore(bars, relativeVolume)
  {
    assert ValidBar(bars[|bars| - 1]);
  }

  /** `calculate_confirmation_score`, accumulating into `score` as the source does. */
  method CalculateConfirmationScore(bars: seq<Bar>, relativeVolume: real) returns (score: real)
    requires |bars| >= 2 && ValidBars(bars)
    ensures score == ConfirmationScore(bars, relativeVolume)
    ensures score <= 100.0
    ensures bars[|bars| - 1].low <= bars[|bars| - 1].close <= bars[|bars| - 1].high ==> 0.0 <= score
  {
    ConfirmationBounds(bars, relativeVolume);
    score := 0.0;
    var current, previous := bars[|bars| - 1], bars[|bars| - 2];
    var atr := Atr(bars, AtrPeriod);
    var dailyRange := current.high - current.low;
    if atr.Some? && atr.value > 0.0 {
      var rangeRatio := dailyRange / atr.value;
      score := score + Min2(rangeRatio * 10.0, 25.0);
    }
    if dailyRange > 0.0 {
      var closePosition := (current.close - current.low) / dailyRange;
      score := score + closePosition * 25.0;
    }
    var gapPct := (current.open - previous.close) / previous.close * 100.0;
    if gapPct > 0.0 {
      score := score + Min2(gapPct * 5.0, 25.0);
    }
    var volumeScore := Min2((relativeVolume - 1.0) * 12.5, 25.0);
    score := score + Max2(volumeScore, 0.0);
    score := Min2(score, 100.0);
  }

  /** `int(volume)`: truncation toward zero, which is the floor for a non-negative volume. */
  function Truncate(x: real): (n: int)
    ensures x >= 0.0 ==> n as real <= x < n as real + 1.0
    ensures x < 0.0 ==> n as real - 1.0 < x <= n as real
  {
    if x >= 0.0 then x.Floor else -((-x).Floor)
  }

  /** `find_breakout`: the candidate for a stock whose last bar breaks out, with `vcpSetup` attached. */
  function FindBreakout(symbol: string, fetched: Fetched, vcpSetup: Option<VcpSetup>): Option<BreakoutCandidate>
    requires VcpScanner.ValidFetched(fetched)
  {
    if fetched.bars.None? || |fetched.bars.value| < PivotRange + 1 then None
    else
      var bars := fetched.bars.value;
      var check := CheckBreakout(bars);
      if !check.isBreakout then None
      else
        var current, previous := bars[|bars| - 1], bars[|bars| - 2];
        var priceChange := (current.close - previous.close) / previous.close * 100.0;
        Some(BreakoutCandidate(symbol, current.close, check.pivotPrice, Truncate(current.volume),
                               check.relativeVolume, priceChange, GapPct(previous, current),
                               ConfirmationScore(bars, check.relativeVolume), vcpSetup))
  }

  /** What every reported breakout satisfies. */
  predicate SoundBreakout(c: BreakoutCandidate) {
    && c.breakoutPrice > c.pivotPrice > 0.0
    && c.relativeVolume >= RelativeVolumeThreshold
    && c.breakoutVolume >= 0
    && c.confirmationScore <= 100.0
  }

  /**
   * A candidate is found exactly when the series is present and long enough
   * and its last bar is a breakout; it then carries the symbol, the given
   * setup, and sound measurements.
   */
  lemma FindBreakoutSound(symbol: string, fetched: Fetched, vcpSetup: Option<VcpSetup>)
    requires VcpScanner.ValidFetched(fetched)
    ensures FindBreakout(symbol, fetched, vcpSetup).Some? <==>
              fetched.bars.Some? && CheckBreakout(fetched.bars.value).isBreakout
    ensures FindBreakout(symbol, fetched, vcpSetup).Some? ==>
              var c := FindBreakout(symbol, fetched, vcpSetup).value;
              c.symbol == symbol && c.vcpSetup == vcpSetup && SoundBreakout(c)
  {
    if fetched.bars.Some? && |fetched.bars.value| >= PivotRange + 1 {
      var bars := fetched.bars.value;
      assert bars[|bars| - 2].high <= PivotHigh(bars);
      assert ValidBar(bars[|bars| - 2]);
      ConfirmationBounds(bars, CheckBreakout(bars).relativeVolume);
    }
  }

  /**
   * A stock the VCP scan reports cannot be a breakout on the same bars: the
   * scan requires the close to be at or below the pivot.
   */
  lemma SetupIsNotBreakout(symbol: string, fetched: Fetched, benchmark: Option<seq<Bar>>)
    requires VcpScanner.ValidFetched(fetched) && VcpScanner.ValidBenchmark(benchmark)
    requires VcpScanner.SetupOf(symbol, fetched, benchmark).Some?
    ensures FindBreakout(symbol, fetched, VcpScanner.SetupOf(symbol, fetched, benchmark)).None?
  {
    VcpScanner.SetupOfAccepts(symbol, fetched, benchmark);
    NearPivotExcludesBreakout(fetched.bars.value);
  }

  /** The sort key of `scan_for_breakouts`. */
  function ConfirmationOf(c: BreakoutCandidate): real { c.confirmationScore }

  /** The outcome of `find_breakout` for each symbol, without a setup. */
  function BreakoutOutcomes(symbols: seq<string>, market: string -> Fetched): (r: seq<Option<BreakoutCandidate>>)
    requires forall i :: 0 <= i < |symbols| ==> VcpScanner.ValidFetched(market(symbols[i]))
    ensures |r| == |symbols|
  {
    seq(|symbols|, i requires 0 <= i < |symbols| => FindBreakout(symbols[i], market(symbols[i]), None))
  }

  /** Every candidate found among the outcomes is sound. */
  lemma CandidatesSound(symbols: seq<string>, market: string -> Fetched)
    requires forall i :: 0 <= i < |symbols| ==> VcpScanner.ValidFetched(market(symbols[i]))
    ensures forall c :: c in Present(BreakoutOutcomes(symbols, market)) ==>
              SoundBreakout(c) && c.symbol in symbols && c.vcpSetup.None?
  {
    var outcomes := BreakoutOutcomes(symbols, market);
    PresentMembers(outcomes);
    forall c | c in Present(outcomes) ensures SoundBreakout(c) && c.symbol in symbols && c.vcpSetup.None? {
      var i :| 0 <= i < |outcomes| && outcomes[i] == Some(c);
      FindBreakoutSound(symbols[i], market(symbols[i]), None);
    }
  }

  /**
   * `scan_for_breakouts`: the breakouts of every symbol (the demonstration
   * universe when none is given), highest confirmation score first.
   */
  method ScanForBreakouts(symbols: Option<seq<string>>, market: string -> Fetched)
    returns (breakouts: seq<BreakoutCandidate>)
    requires forall i :: 0 <= i < |VcpScanner.Universe(symbols)| ==>
               VcpScanner.ValidFetched(market(VcpScanner.Universe(symbols)[i]))
    ensures breakouts == Sorting.SortDesc(Present(BreakoutOutcomes(VcpScanner.Universe(symbols), market)),
                                          ConfirmationOf)
    ensures Sorting.SortedDesc(breakouts, ConfirmationOf)
    ensures multiset(breakouts) == multiset(Present(BreakoutOutcomes(VcpScanner.Universe(symbols), market)))
    ensures forall c :: c in breakouts ==> SoundBreakout(c) && c.symbol in VcpScanner.Universe(symbols)
  {
    var universe := VcpScanner.Universe(symbols);
    ghost var outcomes := BreakoutOutcomes(universe, market);
    var found: seq<BreakoutCandidate> := [];
    for i := 0 to |universe|
      invariant found == Present(outcomes[..i])
    {
      var breakout := FindBreakout(universe[i], market(universe[i]), None);
      assert breakout == outcomes[i];
      PresentStep(outcomes, i);
      if breakout.Some? {
        found := found + [breakout.value];
      }
    }
    assert outcomes[..|universe|] == outcomes;
    breakouts := Sorting.SortDesc(found, ConfirmationOf);
    CandidatesSound(universe, market);
    assert forall c :: c in breakouts ==> c in multiset(found);
  }

  /** The outcome of `find_breakout` for each setup's symbol, with the setup attached. */
  function SetupOutcomes(setups: seq<VcpSetup>, market: string -> Fetched): (r: seq<Option<BreakoutCandidate>>)
    requires forall i :: 0 <= i < |setups| ==> VcpScanner.ValidFetched(market(setups[i].symbol))
    ensures |r| == |setups|
  {
    seq(|setups|, i requires 0 <= i < |setups| => FindBreakout(setups[i].symbol, market(setups[i].symbol), Some(setups[i])))
  }

  /** Every candidate found among the setups is sound and carries one of them. */
  lemma SetupCandidatesSound(setups: seq<VcpSetup>, market: string -> Fetched)
    requires forall i :: 0 <= i < |setups| ==> VcpScanner.ValidFetched(market(setups[i].symbol))
    ensures forall c :: c in Present(SetupOutcomes(setups, market)) ==>
              SoundBreakout(c) && c.vcpSetup.Some? && c.vcpSetup.value in setups
  {
    var outcomes := SetupOutcomes(setups, market);
    PresentMembers(outcomes);
    forall c | c in Present(outcomes) ensures SoundBreakout(c) && c.vcpSetup.Some? && c.vcpSetup.value in setups {
      var i :| 0 <= i < |outcomes| && outcomes[i] == Some(c);
      FindBreakoutSound(setups[i].symbol, market(setups[i].symbol), Some(setups[i]));
    }
  }

  /** `scan_vcp_breakouts`: the breakouts among the given setups, in their order. */
  method ScanVcpBreakouts(setups: seq<VcpSetup>, market: string -> Fetched) returns (breakouts: seq<BreakoutCandidate>)
    requires forall i :: 0 <= i < |setups| ==> VcpScanner.ValidFetched(market(setups[i].symbol))
    ensures breakouts == Present(SetupOutcomes(setups, market))
    ensures forall c :: c in breakouts ==> SoundBreakout(c) && c.vcpSetup.Some? && c.vcpSetup.value in setups
  {
    ghost var outcomes := SetupOutcomes(setups, market);
    breakouts := [];
    for i := 0 to |setups|
      invariant breakouts == Present(outcomes[..i])
    {
      var breakout := FindBreakout(setups[i].symbol, market(setups[i].symbol), Some(setups[i]));
      assert breakout == outcomes[i];
      PresentStep(outcomes, i);
      if breakout.Some? {
        breakouts := breakouts + [breakout.value];
      }
    }
    assert outcomes[..|setups|] == outcomes;
    SetupCandidatesSound(setups, market);
  }

  /**
   * Checking setups against the same bars they were found on yields no
   * breakout, whatever the setups.
   */
  lemma FreshSetupsNeverBreakOut(setups: seq<VcpSetup>, market: string -> Fetched, benchmark: Option<seq<Bar>>)
    requires forall i :: 0 <= i < |setups| ==> VcpScanner.ValidFetched(market(setups[i].symbol))
    requires VcpScanner.ValidBenchmark(benchmark)
    requires forall i :: 0 <= i < |setups| ==>
               VcpScanner.SetupOf(setups[i].symbol, market(setups[i].symbol), benchmark) == Some(setups[i])
    ensures Present(SetupOutcomes(setups, market)) == []
  {
    var outcomes := SetupOutcomes(setups, market);
    forall i | 0 <= i < |setups| ensures outcomes[i].None? {
      SetupIsNotBreakout(setups[i].symbol, market(setups[i].symbol), benchmark);
    }
    NothingPresent(outcomes);
  }
}
