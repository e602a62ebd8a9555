/**
 * `calculate_vcp_score` of backend/app/services/vcp_scanner.py: the 0-100
 * quality score of a setup, the sum of six capped components.
 */
module VcpScoring {
  import opened Series
  import opened Models
  import VcpLegs

  function Min2(x: real, y: real): real { if x <= y then x else y }

  /** Leg count score: 5 per leg, at most 20. */
  function LegCountScore(n: nat): (s: real)
    ensures 0.0 <= s <= 20.0
    ensures s == 20.0 <==> n >= 4
  {
    Min2(5.0 * n as real, 20.0)
  }

  /** Number of legs, after the first `k`, shallower than the leg before them. */
  function ContractionsBelow(legs: seq<VcpLeg>, k: nat): (c: nat)
    requires k <= |legs|
    ensures k >= 1 ==> c <= k - 1
    ensures k <= 1 ==> c == 0
    ensures k >= 1 ==> (c == k - 1 <==> forall i :: 1 <= i < k ==> legs[i].pullbackDepth < legs[i - 1].pullbackDepth)
  {
    if k <= 1 then 0
    else ContractionsBelow(legs, k - 1) + if legs[k - 1].pullbackDepth < legs[k - 2].pullbackDepth then 1 else 0
  }

  /** Progressive contraction score: the share of contracting legs times 25; 0 with fewer than two legs. */
  function ContractionScore(legs: seq<VcpLeg>): (s: real)
    ensures 0.0 <= s <= 25.0
    ensures |legs| >= 2 ==>
              (s == 25.0 <==> forall i :: 1 <= i < |legs| ==> legs[i].pullbackDepth < legs[i - 1].pullbackDepth)
  {
    if |legs| >= 2 then
      var c, n := ContractionsBelow(legs, |legs|) as real, (|legs| - 1) as real;
      DivideBounds(c, n, 0.0, 1.0);
      DivideAtMost(n, n, c / n);
      (c / n) * 25.0
    else 0.0
  }

  function Abs(x: real): real { if x < 0.0 then -x else x }

  /** Base depth score: only for depths from 10% to 20%, peaking at 20 for 12.5%, at least 5 in that range. */
  function DepthScore(baseDepth: real): (s: real)
    ensures 0.0 <= s <= 20.0
    ensures s == 20.0 <==> baseDepth == 12.5
    ensures 10.0 <= baseDepth <= 20.0 ==> s >= 5.0
    ensures !(10.0 <= baseDepth <= 20.0) ==> s == 0.0
  {
    if 10.0 <= baseDepth <= 20.0 then
      var depthScore := 20.0 - Abs(baseDepth - 12.5) * 2.0;
      if depthScore >= 0.0 then depthScore else 0.0
    else 0.0
  }

  /** In the scored range, a depth nearer 12.5% never scores lower. */
  lemma DepthScoreMonotone(d1: real, d2: real)
    requires 10.0 <= d1 <= 20.0 && 10.0 <= d2 <= 20.0
    requires Abs(d1 - 12.5) <= Abs(d2 - 12.5)
    ensures DepthScore(d1) >= DepthScore(d2)
  {
  }

  /** Volume dry-up score: half the dry-up percentage, at most 15. */
  function VolumeScore(volumeDryUp: real): (s: real)
    ensures s <= 15.0
    ensures volumeDryUp >= 0.0 ==> s >= 0.0
    ensures s == 15.0 <==> volumeDryUp >= 30.0
  {
    Min2(volumeDryUp / 2.0, 15.0)
  }

  /** RS score: a tenth of the percentile, at most 10. */
  function RsScore(rsPercentile: real): (s: real)
    ensures s <= 10.0
    ensures rsPercentile >= 0.0 ==> s >= 0.0
    ensures s == 10.0 <==> rsPercentile >= 100.0
  {
    Min2(rsPercentile / 10.0, 10.0)
  }

  /** Proximity score: 10 within 5% of the pivot, falling by one per percent up to 10%, 0 beyond. */
  function ProximityScore(distance: real): (s: real)
    ensures 0.0 <= s <= 10.0
    ensures distance <= 5.0 <==> s == 10.0
    ensures distance > 10.0 <==> s == 0.0
  {
    if distance <= 5.0 then 10.0
    else if distance <= 10.0 then 10.0 - (distance - 5.0)
    else 0.0
  }

  /** Moving further from the pivot never raises the proximity score. */
  lemma ProximityScoreMonotone(d1: real, d2: real)
    requires d1 <= d2
    ensures ProximityScore(d1) >= ProximityScore(d2)
  {
  }

  /** The six components added up, before the cap at 100. */
  function RawScore(legs: seq<VcpLeg>, baseDepth: real, volumeDryUp: real, rsPercentile: real,
                    distance: real): real
  {
    LegCountScore(|legs|) + ContractionScore(legs) + DepthScore(baseDepth) + VolumeScore(volumeDryUp)
      + RsScore(rsPercentile) + ProximityScore(distance)
  }

  /** The VCP quality score: the components' sum capped at 100 (`min(score, 100)`). */
  function VcpScore(legs: seq<VcpLeg>, baseDepth: real, volumeDryUp: real, rsPercentile: real,
                    distance: real): real
  {
    Min2(RawScore(legs, baseDepth, volumeDryUp, rsPercentile, distance), 100.0)
  }

  /**
   * The component maxima add up to exactly 100, so the cap never changes the
   * score; with a non-negative dry-up and percentile the score is in [0, 100].
   */
  lemma VcpScoreBounds(legs: seq<VcpLeg>, baseDepth: real, volumeDryUp: real, rsPercentile: real,
                       distance: real)
    ensures VcpScore(legs, baseDepth, volumeDryUp, rsPercentile, distance)
         == RawScore(legs, baseDepth, volumeDryUp, rsPercentile, distance)
    ensures VcpScore(legs, baseDepth, volumeDryUp, rsPercentile, distance) <= 100.0
    ensures volumeDryUp >= 0.0 && rsPercentile >= 0.0 ==>
              0.0 <= VcpScore(legs, baseDepth, volumeDryUp, rsPercentile, distance)
  {
  }

  /** Detected legs always contract, so with two or more of them the contraction score is full. */
  lemma DetectedLegsContract(bars: seq<Bar>)
    requires ValidBars(bars) && |VcpLegs.Legs(bars)| >= 2
    ensures ContractionScore(VcpLegs.Legs(bars)) == 25.0
  {
    VcpLegs.LegsAccepted(bars);
  }

  /** The contraction-counting loop of `calculate_vcp_score`. */
  method CountLegContractions(legs: seq<VcpLeg>) returns (contractions: nat)
    ensures contractions == ContractionsBelow(legs, |legs|)
  {
    contractions := 0;
    if |legs| >= 2 {
      for i := 1 to |legs|
        invariant contractions == ContractionsBelow(legs, i)
      {
        if legs[i].pullbackDepth < legs[i - 1].pullbackDepth {
          contractions := contractions + 1;
        }
      }
    }
  }

  /** `calculate_vcp_score`, accumulating the components into `score` as the source does. */
  method CalculateVcpScore(legs: seq<VcpLeg>, baseDepth: real, volumeDryUp: real, rsPercentile: real,
                           distance: real) returns (score: real)
    ensures score == VcpScore(legs, baseDepth, volumeDryUp, rsPercentile, distance)
    ensures score <= 100.0
    ensures volumeDryUp >= 0.0 && rsPercentile >= 0.0 ==> 0.0 <= score
  {
    VcpScoreBounds(legs, baseDepth, volumeDryUp, rsPercentile, distance);
    score := 0.0;
    score := score + Min2(5.0 * |legs| as real, 20.0);
    if |legs| >= 2 {
      var contractions := CountLegContractions(legs);
      score := score + contractions as real / (|legs| - 1) as real * 25.0;
    }
    assert score == LegCountScore(|legs|) + ContractionScore(legs);
    if 10.0 <= baseDepth <= 20.0 {
      var depthScore := 20.0 - Abs(baseDepth - 12.5) * 2.0;
      score := score + if depthScore >= 0.0 then depthScore else 0.0;
    }
    assert score == LegCountScore(|legs|) + ContractionScore(legs) + DepthScore(baseDepth);
    score := score + Min2(volumeDryUp / 2.0, 15.0);
    score := score + Min2(rsPercentile / 10.0, 10.0);
    var proximityScore;
    if distance <= 5.0 {
      proximityScore := 10.0;
    } else if distance <= 10.0 {
      proximityScore := 10.0 - (distance - 5.0);
    } else {
      proximityScore := 0.0;
    }
    score := score + proximityScore;
    score := Min2(score, 100.0);
  }
}
