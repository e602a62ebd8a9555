/**
 * Daily OHLCV bars and the windowed sums, means, maxima and minima that the
 * scanners take over them (pandas `sum`, `mean`, `max`, `min` on a slice).
 * Positions are integer positions into the series; the last bar is the
 * current candle.
 */
module Series {

  /** One daily bar: pandas row with the `open`, `high`, `low`, `close`, `volume` columns. */
  datatype Bar = Bar(open: real, high: real, low: real, close: real, volume: real)

  /** A clean bar as the market-data provider returns it: positive prices, a range, no negative volume. */
  predicate ValidBar(b: Bar) {
    0.0 < b.low <= b.high && 0.0 < b.open && 0.0 < b.close && 0.0 <= b.volume
  }

  predicate ValidBars(bars: seq<Bar>) {
    forall i :: 0 <= i < |bars| ==> ValidBar(bars[i])
  }

  function Highs(bars: seq<Bar>): seq<real> { seq(|bars|, i requires 0 <= i < |bars| => bars[i].high) }
  function Lows(bars: seq<Bar>): seq<real> { seq(|bars|, i requires 0 <= i < |bars| => bars[i].low) }
  function Closes(bars: seq<Bar>): seq<real> { seq(|bars|, i requires 0 <= i < |bars| => bars[i].close) }
  function Volumes(bars: seq<Bar>): seq<real> { seq(|bars|, i requires 0 <= i < |bars| => bars[i].volume) }

  function Sum(xs: seq<real>): real {
    if xs == [] then 0.0 else xs[0] + Sum(xs[1..])
  }

  function Mean(xs: seq<real>): real
    requires |xs| > 0
  {
    Sum(xs) / (|xs| as real)
  }

  /** Largest element of a non-empty sequence. */
  function Max(xs: seq<real>): (m: real)
    requires |xs| > 0
    ensures forall i :: 0 <= i < |xs| ==> xs[i] <= m
    ensures exists i :: 0 <= i < |xs| && xs[i] == m
  {
    if |xs| == 1 then xs[0]
    else
      var rest := Max(xs[1..]);
      assert forall i :: 1 <= i < |xs| ==> xs[i] == xs[1..][i - 1];
      if xs[0] >= rest then xs[0] else rest
  }

  /** Smallest element of a non-empty sequence. */
  function Min(xs: seq<real>): (m: real)
    requires |xs| > 0
    ensures forall i :: 0 <= i < |xs| ==> m <= xs[i]
    ensures exists i :: 0 <= i < |xs| && xs[i] == m
  {
    if |xs| == 1 then xs[0]
    else
      var rest := Min(xs[1..]);
      assert forall i :: 1 <= i < |xs| ==> xs[i] == xs[1..][i - 1];
      if xs[0] <= rest then xs[0] else rest
  }

  /** The minimum exceeds a bound exactly when every element does. */
  lemma MinAbove(xs: seq<real>, m: real)
    requires |xs| > 0
    ensures Min(xs) > m <==> forall i :: 0 <= i < |xs| ==> xs[i] > m
  {
  }

  lemma DivideAtMost(s: real, n: real, c: real)
    requires n > 0.0
    ensures s / n <= c <==> s <= c * n
  {
  }

  lemma OneMinus(x: real, y: real)
    requires y > 0.0
    ensures (y - x) / y == 1.0 - x / y
  {
    var a, b := (y - x) / y, x / y;
    assert a * y == y - x && b * y == x;
    var d := a - (1.0 - b);
    assert d * y == 0.0;
    assert d == 0.0;
  }

  /** A sum of terms that all lie in [lo, hi] lies in [n * lo, n * hi]. */
  lemma {:induction false} SumBounds(xs: seq<real>, lo: real, hi: real)
    requires forall i :: 0 <= i < |xs| ==> lo <= xs[i] <= hi
    ensures (|xs| as real) * lo <= Sum(xs) <= (|xs| as real) * hi
  {
    if xs != [] {
      assert forall i :: 0 <= i < |xs[1..]| ==> xs[1..][i] == xs[i + 1];
      SumBounds(xs[1..], lo, hi);
    }
  }

  /** Dividing by a positive count keeps a quotient within the per-element bounds. */
  lemma DivideBounds(s: real, n: real, lo: real, hi: real)
    requires n > 0.0 && n * lo <= s <= n * hi
    ensures lo <= s / n <= hi
  {
  }

  /** A mean of terms that all lie in [lo, hi] lies in [lo, hi]. */
  lemma MeanBounds(xs: seq<real>, lo: real, hi: real)
    requires |xs| > 0
    requires forall i :: 0 <= i < |xs| ==> lo <= xs[i] <= hi
    ensures lo <= Mean(xs) <= hi
  {
    SumBounds(xs, lo, hi);
    DivideBounds(Sum(xs), |xs| as real, lo, hi);
  }

  /** A mean lies between the smallest and the largest element it averages. */
  lemma MeanBetween(xs: seq<real>)
    requires |xs| > 0
    ensures Min(xs) <= Mean(xs) <= Max(xs)
  {
    var lo, hi := Min(xs), Max(xs);
    assert forall i :: 0 <= i < |xs| ==> lo <= xs[i] <= hi;
    MeanBounds(xs, lo, hi);
  }

  /** A mean of non-negative numbers is non-negative. */
  lemma MeanNonNegative(xs: seq<real>)
    requires |xs| > 0
    requires forall i :: 0 <= i < |xs| ==> 0.0 <= xs[i]
    ensures 0.0 <= Mean(xs)
  {
    MeanBounds(xs, 0.0, Max(xs));
  }

  /** The last `n` bars, as pandas `tail(n)` returns them. */
  function Tail<T>(s: seq<T>, n: nat): (r: seq<T>)
    ensures |r| == if |s| < n then |s| else n
    ensures forall i :: 0 <= i < |r| ==> r[i] == s[|s| - |r| + i]
  {
    if |s| < n then s else s[|s| - n..]
  }

  /**
   * Highest high of the 100 bars before the current one (`high.iloc[-101:-1].max()`),
   * the pivot shared by the VCP near-breakout filter and the breakout finder.
   */
  function PivotHigh(bars: seq<Bar>): (p: real)
    requires |bars| >= 101
    ensures forall i :: |bars| - 101 <= i < |bars| - 1 ==> bars[i].high <= p
    ensures exists i :: |bars| - 101 <= i < |bars| - 1 && bars[i].high == p
  {
    var w := Highs(bars[|bars| - 101..|bars| - 1]);
    var m := Max(w);
    assert forall i :: |bars| - 101 <= i < |bars| - 1 ==> bars[i].high == w[i - (|bars| - 101)];
    m
  }
}
