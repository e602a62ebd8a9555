/**
 * Leg detection of backend/app/services/vcp_scanner.py (`detect_vcp_legs`).
 * Swing highs and lows are bars whose high (low) equals the maximum (minimum)
 * of the centred 5-bar window around them; each swing high except the last is
 * paired with the first swing low after it, and the pair becomes a leg only
 * when its pullback is deeper than 2% and shallower than the previous
 * accepted leg's.
 */
module VcpLegs {
  import opened Wrappers
  import opened Series
  import opened Models

  const MinBars: nat := 60
  const AnalysisBars: nat := 126
  const MaxLegs: nat := 5
  const MinLegDepth: real := 2.0
  const InitialDepth: real := 100.0

  /** A swing high: the full centred 5-bar window exists and no bar in it has a higher high. */
  predicate IsSwingHigh(a: seq<Bar>, p: nat) {
    2 <= p && p + 2 < |a| && forall q :: p - 2 <= q <= p + 2 ==> a[q].high <= a[p].high
  }

  /** A swing low: the full centred 5-bar window exists and no bar in it has a lower low. */
  predicate IsSwingLow(a: seq<Bar>, p: nat) {
    2 <= p && p + 2 < |a| && forall q :: p - 2 <= q <= p + 2 ==> a[p].low <= a[q].low
  }

  /** A swing high is a bar whose high equals the centred 5-bar rolling maximum (`rolling(5, center=True).max()`). */
  lemma SwingHighIsRollingMax(a: seq<Bar>, p: nat)
    requires 2 <= p && p + 2 < |a|
    ensures IsSwingHigh(a, p) <==> a[p].high == Max(Highs(a[p - 2..p + 3]))
  {
    var w := Highs(a[p - 2..p + 3]);
    assert forall q :: p - 2 <= q <= p + 2 ==> w[q - p + 2] == a[q].high;
    assert w[2] == a[p].high;
  }

  /** A swing low is a bar whose low equals the centred 5-bar rolling minimum. */
  lemma SwingLowIsRollingMin(a: seq<Bar>, p: nat)
    requires 2 <= p && p + 2 < |a|
    ensures IsSwingLow(a, p) <==> a[p].low == Min(Lows(a[p - 2..p + 3]))
  {
    var w := Lows(a[p - 2..p + 3]);
    assert forall q :: p - 2 <= q <= p + 2 ==> w[q - p + 2] == a[q].low;
    assert w[2] == a[p].low;
  }

  predicate IsSwing(a: seq<Bar>, p: nat, highs: bool) {
    if highs then IsSwingHigh(a, p) else IsSwingLow(a, p)
  }

  predicate Increasing(s: seq<nat>) {
    forall i, j :: 0 <= i < j < |s| ==> s[i] < s[j]
  }

  /** Positions from `from` on that are swings of the given kind, in order (`index[mask].tolist()`). */
  function SwingPositions(a: seq<Bar>, from: nat, highs: bool): (r: seq<nat>)
    decreases |a| - from
    ensures forall k :: 0 <= k < |r| ==> from <= r[k] < |a|
    ensures Increasing(r)
    ensures forall p: nat :: p in r <==> from <= p < |a| && IsSwing(a, p, highs)
  {
    if from >= |a| then []
    else
      var rest := SwingPositions(a, from + 1, highs);
      if IsSwing(a, from, highs) then [from] + rest else rest
  }

  function SwingHighs(a: seq<Bar>): seq<nat> { SwingPositions(a, 0, true) }
  function SwingLows(a: seq<Bar>): seq<nat> { SwingPositions(a, 0, false) }

  /** `[l for l in lows if l > h][0]`, or `None` when the list is empty. */
  function FirstAfter(ls: seq<nat>, h: nat): (r: Option<nat>)
    ensures r.None? ==> forall x :: x in ls ==> x <= h
    ensures r.Some? ==> r.value in ls && h < r.value
    ensures r.Some? && Increasing(ls) ==> forall x :: x in ls && h < x ==> r.value <= x
  {
    if ls == [] then None
    else if ls[0] > h then Some(ls[0])
    else
      var r := FirstAfter(ls[1..], h);
      assert forall x :: x in ls ==> x == ls[0] || x in ls[1..];
      r
  }

  /** Pullback from the swing high at `h` to the low at `l`, in percent of the high. */
  function PullbackDepth(a: seq<Bar>, h: nat, l: nat): real
    requires h < |a| && l < |a| && ValidBar(a[h])
  {
    (a[h].high - a[l].low) / a[h].high * 100.0
  }

  /** The leg numbered `number` from the swing high at `h` to the swing low at `l`. */
  function MakeLeg(a: seq<Bar>, number: nat, h: nat, l: nat): VcpLeg
    requires h < l < |a| && ValidBars(a)
  {
    var legVolume := Mean(Volumes(a[h..l + 1]));
    var prevVolume := if h > 20 then Mean(Volumes(a[h - 20..h])) else legVolume;
    VcpLeg(number, h, l, a[h].high, a[l].low, PullbackDepth(a, h, l),
           if prevVolume > 0.0 then legVolume / prevVolume else 1.0, l - h)
  }

  predicate InWindow(a: seq<Bar>, s: seq<nat>) {
    forall k :: 0 <= k < |s| ==> s[k] < |a|
  }

  /**
   * The leg-acceptance loop from swing-high index `i` on, with `prev` the last
   * accepted depth and `legs` the legs accepted so far.
   */
  function Segment(a: seq<Bar>, hs: seq<nat>, ls: seq<nat>, i: nat, prev: real, legs: seq<VcpLeg>): seq<VcpLeg>
    requires ValidBars(a) && InWindow(a, hs) && InWindow(a, ls)
    decreases |hs| - i
  {
    if i + 1 >= |hs| || |legs| >= MaxLegs then legs
    else
      match FirstAfter(ls, hs[i])
      case None => legs
      case Some(l) =>
        var h := hs[i];
        var depth := PullbackDepth(a, h, l);
        if depth < prev && depth > MinLegDepth then
          Segment(a, hs, ls, i + 1, depth, legs + [MakeLeg(a, |legs| + 1, h, l)])
        else
          Segment(a, hs, ls, i + 1, prev, legs)
  }

  /** One iteration of the loop, as an equation on `Segment`. */
  lemma SegmentStep(a: seq<Bar>, hs: seq<nat>, ls: seq<nat>, i: nat, prev: real, legs: seq<VcpLeg>)
    requires ValidBars(a) && InWindow(a, hs) && InWindow(a, ls)
    requires i + 1 < |hs| && |legs| < MaxLegs
    ensures FirstAfter(ls, hs[i]).None? ==> Segment(a, hs, ls, i, prev, legs) == legs
    ensures FirstAfter(ls, hs[i]).Some? ==>
      var l := FirstAfter(ls, hs[i]).value;
      var depth := PullbackDepth(a, hs[i], l);
      Segment(a, hs, ls, i, prev, legs) ==
        if depth < prev && depth > MinLegDepth
        then Segment(a, hs, ls, i + 1, depth, legs + [MakeLeg(a, |legs| + 1, hs[i], l)])
        else Segment(a, hs, ls, i + 1, prev, legs)
  {
  }

  /** The window legs are looked for in: the last 126 bars (`df.tail(126)`). */
  function AnalysisWindow(bars: seq<Bar>): seq<Bar> { Tail(bars, AnalysisBars) }

  /** The legs `detect_vcp_legs` returns. */
  function Legs(bars: seq<Bar>): seq<VcpLeg>
    requires ValidBars(bars)
  {
    if |bars| < MinBars then []
    else
      var a := AnalysisWindow(bars);
      var hs, ls := SwingHighs(a), SwingLows(a);
      if |hs| < 2 || |ls| < 2 then [] else Segment(a, hs, ls, 0, InitialDepth, [])
  }

  predicate PositiveLegs(legs: seq<VcpLeg>) {
    forall k :: 0 <= k < |legs| ==> 0.0 < legs[k].lowPrice < legs[k].highPrice
  }

  function LegHighs(legs: seq<VcpLeg>): seq<real> {
    seq(|legs|, k requires 0 <= k < |legs| => legs[k].highPrice)
  }

  function LegLows(legs: seq<VcpLeg>): seq<real> {
    seq(|legs|, k requires 0 <= k < |legs| => legs[k].lowPrice)
  }

  /** Total base depth: from the highest leg high to the lowest leg low, in percent of that high; 0 without legs. */
  function BaseDepth(legs: seq<VcpLeg>): real
    requires PositiveLegs(legs)
  {
    if legs == [] then 0.0
    else
      var high := Max(LegHighs(legs));
      assert LegHighs(legs)[0] <= high;
      (high - Min(LegLows(legs))) / high * 100.0
  }

  // ---- What an accepted leg is, in terms of the window ----

  /** A leg runs from a swing high that is not the last one to the first swing low after it. */
  predicate FromSwings(a: seq<Bar>, leg: VcpLeg)
    requires ValidBars(a)
  {
    var h, l := leg.startIndex, leg.endIndex;
    && h < l < |a|
    && IsSwingHigh(a, h) && IsSwingLow(a, l)
    && (forall p: nat :: h < p < l ==> !IsSwingLow(a, p))
    && (exists q: nat :: h < q < |a| && IsSwingHigh(a, q))
    && leg.highPrice == a[h].high && leg.lowPrice == a[l].low
    && leg.pullbackDepth == PullbackDepth(a, h, l) && leg.pullbackDepth > MinLegDepth
    && leg.durationDays == l - h && leg.durationDays > 0
  }

  /** Legs numbered 1..n in order, built from swings, starting at increasing positions, each shallower than the last. */
  predicate AcceptedLegs(a: seq<Bar>, legs: seq<VcpLeg>)
    requires ValidBars(a)
  {
    && |legs| <= MaxLegs
    && (forall k :: 0 <= k < |legs| ==> legs[k].legNumber == k + 1)
    && (forall k :: 0 <= k < |legs| ==> FromSwings(a, legs[k]))
    && (forall k :: 0 < k < |legs| ==> legs[k].startIndex > legs[k - 1].startIndex)
    && (forall k :: 0 < k < |legs| ==> legs[k].pullbackDepth < legs[k - 1].pullbackDepth)
    && (legs != [] ==> legs[0].pullbackDepth < InitialDepth)
  }

  /** What the leg proofs use of the swing lists: in the window, increasing, swings, and every swing low listed. */
  predicate SwingLists(a: seq<Bar>, hs: seq<nat>, ls: seq<nat>) {
    && InWindow(a, hs) && InWindow(a, ls) && Increasing(hs) && Increasing(ls)
    && (forall k :: 0 <= k < |hs| ==> IsSwingHigh(a, hs[k]))
    && (forall k :: 0 <= k < |ls| ==> IsSwingLow(a, ls[k]))
    && (forall p: nat :: p < |a| && IsSwingLow(a, p) ==> p in ls)
  }

  lemma SwingListsOf(a: seq<Bar>)
    ensures SwingLists(a, SwingHighs(a), SwingLows(a))
  {
    var hs, ls := SwingHighs(a), SwingLows(a);
    assert forall k :: 0 <= k < |hs| ==> hs[k] in hs && IsSwing(a, hs[k], true);
    assert forall k :: 0 <= k < |ls| ==> ls[k] in ls && IsSwing(a, ls[k], false);
    assert forall p: nat :: p < |a| && IsSwingLow(a, p) ==> IsSwing(a, p, false);
  }

  predicate StartsBefore(legs: seq<VcpLeg>, bound: nat) {
    forall k :: 0 <= k < |legs| ==> legs[k].startIndex < bound
  }

  /** The leg from swing high `hs[i]` (not the last) to the first swing low after it is built from swings. */
  lemma NextLegFromSwings(a: seq<Bar>, hs: seq<nat>, ls: seq<nat>, i: nat, number: nat, l: nat)
    requires ValidBars(a) && SwingLists(a, hs, ls)
    requires i + 1 < |hs| && FirstAfter(ls, hs[i]) == Some(l)
    requires PullbackDepth(a, hs[i], l) > MinLegDepth
    ensures FromSwings(a, MakeLeg(a, number, hs[i], l))
  {
    var h := hs[i];
    assert IsSwingHigh(a, hs[i + 1]) && IsSwingHigh(a, h) && h < hs[i + 1];
    var j :| 0 <= j < |ls| && ls[j] == l;
    assert IsSwingLow(a, l);
    assert forall p: nat :: h < p < l ==> !IsSwingLow(a, p);
  }

  /** Appending a leg built from swings, numbered next, starting later and shallower than the last, keeps the legs accepted. */
  lemma AppendAccepted(a: seq<Bar>, legs: seq<VcpLeg>, leg: VcpLeg)
    requires ValidBars(a) && AcceptedLegs(a, legs) && |legs| < MaxLegs
    requires FromSwings(a, leg) && leg.legNumber == |legs| + 1
    requires legs == [] ==> leg.pullbackDepth < InitialDepth
    requires legs != [] ==> leg.pullbackDepth < legs[|legs| - 1].pullbackDepth
    requires StartsBefore(legs, leg.startIndex)
    ensures AcceptedLegs(a, legs + [leg])
  {
    var legs' := legs + [leg];
    assert forall k :: 0 <= k < |legs| ==> legs'[k] == legs[k];
    assert legs'[|legs|] == leg;
  }

  /** One accepted step of the loop: the legs stay accepted, the new leg is last and starts before the next swing high. */
  lemma AcceptStep(a: seq<Bar>, hs: seq<nat>, ls: seq<nat>, i: nat, prev: real, legs: seq<VcpLeg>, l: nat,
                   legs': seq<VcpLeg>)
    requires ValidBars(a) && SwingLists(a, hs, ls)
    requires AcceptedLegs(a, legs) && i + 1 < |hs| && |legs| < MaxLegs
    requires legs == [] ==> prev == InitialDepth
    requires legs != [] ==> prev == legs[|legs| - 1].pullbackDepth
    requires StartsBefore(legs, hs[i])
    requires FirstAfter(ls, hs[i]) == Some(l)
    requires PullbackDepth(a, hs[i], l) < prev && PullbackDepth(a, hs[i], l) > MinLegDepth
    requires legs' == legs + [MakeLeg(a, |legs| + 1, hs[i], l)]
    ensures AcceptedLegs(a, legs') && legs' != []
    ensures legs'[|legs'| - 1].pullbackDepth == PullbackDepth(a, hs[i], l)
    ensures StartsBefore(legs', hs[i + 1])
  {
    var leg := MakeLeg(a, |legs| + 1, hs[i], l);
    NextLegFromSwings(a, hs, ls, i, |legs| + 1, l);
    AppendAccepted(a, legs, leg);
    assert hs[i] < hs[i + 1];
    assert legs'[|legs'| - 1] == leg;
    assert forall k :: 0 <= k < |legs| ==> legs'[k] == legs[k];
  }

  /** Every leg the loop accepts from index `i` on keeps the legs accepted. */
  lemma {:induction false} SegmentAccepted(a: seq<Bar>, hs: seq<nat>, ls: seq<nat>, i: nat, prev: real,
                                           legs: seq<VcpLeg>)
    requires ValidBars(a) && SwingLists(a, hs, ls)
    requires AcceptedLegs(a, legs)
    requires legs == [] ==> prev == InitialDepth
    requires legs != [] ==> prev == legs[|legs| - 1].pullbackDepth
    requires i < |hs| ==> StartsBefore(legs, hs[i])
    ensures AcceptedLegs(a, Segment(a, hs, ls, i, prev, legs))
    decreases |hs| - i
  {
    if i + 1 >= |hs| || |legs| >= MaxLegs {
    } else {
      assert hs[i] < hs[i + 1];
      match FirstAfter(ls, hs[i])
      case None =>
      case Some(l) =>
        var h := hs[i];
        var depth := PullbackDepth(a, h, l);
        if depth < prev && depth > MinLegDepth {
          var legs' := legs + [MakeLeg(a, |legs| + 1, h, l)];
          var r := Segment(a, hs, ls, i + 1, depth, legs');
          assert AcceptedLegs(a, r) by {
            AcceptStep(a, hs, ls, i, prev, legs, l, legs');
            SegmentAccepted(a, hs, ls, i + 1, depth, legs');
          }
          assert Segment(a, hs, ls, i, prev, legs) == r;
        } else {
          var r := Segment(a, hs, ls, i + 1, prev, legs);
          assert AcceptedLegs(a, r) by {
            SegmentAccepted(a, hs, ls, i + 1, prev, legs);
          }
          assert Segment(a, hs, ls, i, prev, legs) == r;
        }
    }
  }

  /**
   * The legs of a series: at most five, numbered 1..n, each from a swing high
   * (never the last) to the first swing low after it, deeper than 2%, each
   * strictly shallower than the one before.
   */
  lemma LegsAccepted(bars: seq<Bar>)
    requires ValidBars(bars)
    ensures AcceptedLegs(AnalysisWindow(bars), Legs(bars))
    ensures |bars| < MinBars ==> Legs(bars) == []
    ensures |SwingHighs(AnalysisWindow(bars))| < 2 || |SwingLows(AnalysisWindow(bars))| < 2 ==> Legs(bars) == []
  {
    if |bars| >= MinBars {
      var a := AnalysisWindow(bars);
      var hs, ls := SwingHighs(a), SwingLows(a);
      if |hs| >= 2 && |ls| >= 2 {
        SwingListsOf(a);
        SegmentAccepted(a, hs, ls, 0, InitialDepth, []);
      }
    }
  }

  /** Accepted legs have positive prices with the low below the high. */
  lemma AcceptedLegsPositive(a: seq<Bar>, legs: seq<VcpLeg>)
    requires ValidBars(a) && AcceptedLegs(a, legs)
    ensures PositiveLegs(legs)
  {
    forall k | 0 <= k < |legs| ensures 0.0 < legs[k].lowPrice < legs[k].highPrice {
      var leg := legs[k];
      assert FromSwings(a, leg);
      assert ValidBar(a[leg.startIndex]) && ValidBar(a[leg.endIndex]);
      DepthPositive(leg.highPrice, leg.lowPrice);
    }
  }

  lemma RatioWithin(low: real, high: real, l: real, h: real)
    requires 0.0 < h <= high && 0.0 < low <= l
    ensures low / high <= l / h
  {
    var q := l / h;
    assert q * h == l;
    assert q * high >= q * h;
    DivideAtMost(low, high, q);
  }

  /** The legs of a series have positive prices with the low below the high. */
  lemma LegsPositive(bars: seq<Bar>)
    requires ValidBars(bars)
    ensures PositiveLegs(Legs(bars))
  {
    LegsAccepted(bars);
    AcceptedLegsPositive(AnalysisWindow(bars), Legs(bars));
  }

  /** A pullback inside a wider range is no deeper than the range. */
  lemma DepthWithin(high: real, low: real, h: real, l: real)
    requires 0.0 < h <= high && 0.0 < low <= l
    ensures (h - l) / h * 100.0 <= (high - low) / high * 100.0
  {
    RatioWithin(low, high, l, h);
    OneMinus(l, h);
    OneMinus(low, high);
  }

  /** A pullback deeper than 2% ends below the high it started from. */
  lemma DepthPositive(high: real, low: real)
    requires high > 0.0 && (high - low) / high * 100.0 > MinLegDepth
    ensures low < high
  {
    if low >= high {
      DivideAtMost(high - low, high, 0.0);
    }
  }

  /** A pullback from a high to a positive low lower than it is between 0% and 100%. */
  lemma DepthBelowHundred(high: real, low: real)
    requires 0.0 < low < high
    ensures 0.0 < (high - low) / high * 100.0 < 100.0
  {
    OneMinus(low, high);
    DivideAtMost(low, high, 1.0);
  }

  /** The total base depth lies in (0, 100) and no leg is deeper than it. */
  lemma BaseDepthBounds(legs: seq<VcpLeg>)
    requires PositiveLegs(legs) && legs != []
    ensures 0.0 < BaseDepth(legs) < 100.0
    ensures forall k :: 0 <= k < |legs| ==>
              (legs[k].highPrice - legs[k].lowPrice) / legs[k].highPrice * 100.0 <= BaseDepth(legs)
  {
    var high, low := Max(LegHighs(legs)), Min(LegLows(legs));
    assert LegHighs(legs)[0] <= high && low <= LegLows(legs)[0];
    assert 0.0 < low && low < high by {
      var i :| 0 <= i < |legs| && LegLows(legs)[i] == low;
      assert LegHighs(legs)[i] <= high;
    }
    DepthBelowHundred(high, low);
    forall k | 0 <= k < |legs|
      ensures (legs[k].highPrice - legs[k].lowPrice) / legs[k].highPrice * 100.0 <= BaseDepth(legs)
    {
      assert LegHighs(legs)[k] <= high && low <= LegLows(legs)[k];
      DepthWithin(high, low, legs[k].highPrice, legs[k].lowPrice);
    }
  }

  /**
   * The loop of `detect_vcp_legs`: walks the swing highs while fewer than five
   * legs have been accepted, appending each leg that contracts, and stops at
   * the first swing high with no swing low after it.
   */
  method SegmentLegs(a: seq<Bar>, hs: seq<nat>, ls: seq<nat>) returns (legs: seq<VcpLeg>)
    requires ValidBars(a) && InWindow(a, hs) && InWindow(a, ls)
    ensures legs == Segment(a, hs, ls, 0, InitialDepth, [])
  {
    legs := [];
    var legNumber := 0;
    var prevDepth := InitialDepth;
    var i := 0;
    while i + 1 < |hs| && legNumber < MaxLegs
      invariant i <= |hs| && legNumber == |legs|
      invariant Segment(a, hs, ls, i, prevDepth, legs) == Segment(a, hs, ls, 0, InitialDepth, [])
      decreases |hs| - i
    {
      var h := hs[i];
      SegmentStep(a, hs, ls, i, prevDepth, legs);
      var next := FirstAfter(ls, h);
      if next.None? {
        break;
      }
      var l := next.value;
      var depth := PullbackDepth(a, h, l);
      if depth < prevDepth && depth > MinLegDepth {
        legNumber := legNumber + 1;
        legs := legs + [MakeLeg(a, legNumber, h, l)];
        prevDepth := depth;
      }
      i := i + 1;
    }
  }

  /** `detect_vcp_legs`: the legs of the last 126 bars and the total depth of the base they span. */
  method DetectLegs(bars: seq<Bar>) returns (legs: seq<VcpLeg>, totalDepth: real)
    requires ValidBars(bars)
    ensures legs == Legs(bars)
    ensures AcceptedLegs(AnalysisWindow(bars), legs) && PositiveLegs(legs)
    ensures totalDepth == BaseDepth(legs)
    ensures legs == [] ==> totalDepth == 0.0
    ensures legs != [] ==> 0.0 < totalDepth < 100.0
  {
    LegsPositive(bars);
    if |bars| < MinBars {
      LegsAccepted(bars);
      return [], 0.0;
    }
    var a := AnalysisWindow(bars);
    var hs, ls := SwingHighs(a), SwingLows(a);
    if |hs| < 2 || |ls| < 2 {
      LegsAccepted(bars);
      return [], 0.0;
    }
    legs := SegmentLegs(a, hs, ls);
    totalDepth := BaseDepth(legs);
    if legs != [] {
      BaseDepthBounds(legs);
    }
    LegsAccepted(bars);
  }
}
