/**
 * Network-wide metrics recomputed every tick: mean station and train
 * occupancy, their blend into the system congestion, and the cost-savings
 * projection derived from it.
 */
module Metrics {
  import opened Network
  import opened Routing
  import opened Trains

  /** Sum of a list, folded from the left as `reduce` does. */
  function Sum(xs: seq<real>): real
  {
    if |xs| == 0 then 0.0 else Sum(xs[..|xs| - 1]) + xs[|xs| - 1]
  }

  /** The arithmetic mean; 0 for an empty list. */
  function Mean(xs: seq<real>): real
  {
    if |xs| == 0 then 0.0 else Sum(xs) / |xs| as real
  }

  predicate AllAtLeast(xs: seq<real>, lo: real)
  {
    forall k :: 0 <= k < |xs| ==> lo <= xs[k]
  }

  predicate AllAtMost(xs: seq<real>, hi: real)
  {
    forall k :: 0 <= k < |xs| ==> xs[k] <= hi
  }

  lemma {:induction false} SumAtLeast(xs: seq<real>, lo: real)
    requires AllAtLeast(xs, lo)
    ensures |xs| as real * lo <= Sum(xs)
  {
    if |xs| > 0 {
      SumAtLeast(xs[..|xs| - 1], lo);
    }
  }

  lemma {:induction false} SumAtMost(xs: seq<real>, hi: real)
    requires AllAtMost(xs, hi)
    ensures Sum(xs) <= |xs| as real * hi
  {
    if |xs| > 0 {
      SumAtMost(xs[..|xs| - 1], hi);
    }
  }

  /** The mean is no smaller than a lower bound of every element. */
  lemma MeanAtLeast(xs: seq<real>, lo: real)
    requires |xs| > 0 && AllAtLeast(xs, lo)
    ensures lo <= Mean(xs)
  {
    SumAtLeast(xs, lo);
    var n := |xs| as real;
    assert Sum(xs) / n >= lo by { assert Sum(xs) >= n * lo; }
  }

  /** The mean is no larger than an upper bound of every element. */
  lemma MeanAtMost(xs: seq<real>, hi: real)
    requires |xs| > 0 && AllAtMost(xs, hi)
    ensures Mean(xs) <= hi
  {
    SumAtMost(xs, hi);
    var n := |xs| as real;
    assert Sum(xs) / n <= hi by { assert Sum(xs) <= n * hi; }
  }

  /** An occupancy p / c is non-negative, and at most 1 when p <= c. */
  lemma Fraction(p: nat, c: nat)
    requires c > 0
    ensures 0.0 <= p as real / c as real
    ensures p <= c ==> p as real / c as real <= 1.0
  {
    var q := p as real / c as real;
    assert q * c as real == p as real;
  }

  /** Every station's occupancy waiting / capacity, in list order. */
  function StationRatios(ss: seq<Station>): (rs: seq<real>)
    requires forall j :: 0 <= j < |ss| ==> ss[j].capacity > 0
    ensures |rs| == |ss|
    ensures AllAtLeast(rs, 0.0)
    ensures (forall j :: 0 <= j < |ss| ==> ss[j].passengers <= ss[j].capacity) ==> AllAtMost(rs, 1.0)
  {
    var rs := seq(|ss|, j requires 0 <= j < |ss| => Ratio(ss[j]));
    assert forall j :: 0 <= j < |ss| ==> 0.0 <= rs[j] && (ss[j].passengers <= ss[j].capacity ==> rs[j] <= 1.0) by {
      forall j | 0 <= j < |ss| ensures 0.0 <= rs[j] && (ss[j].passengers <= ss[j].capacity ==> rs[j] <= 1.0) {
        Fraction(ss[j].passengers, ss[j].capacity);
      }
    }
    rs
  }

  /** A train's occupancy onboard / capacity. */
  function Load(t: Train): real
    requires t.capacity > 0
  {
    t.passengers as real / t.capacity as real
  }

  /** Every train's occupancy, in list order. */
  function TrainRatios(ts: seq<Train>): (rs: seq<real>)
    requires forall i :: 0 <= i < |ts| ==> ts[i].capacity > 0
    ensures |rs| == |ts|
    ensures AllAtLeast(rs, 0.0)
    ensures (forall i :: 0 <= i < |ts| ==> ts[i].passengers <= ts[i].capacity) ==> AllAtMost(rs, 1.0)
  {
    var rs := seq(|ts|, i requires 0 <= i < |ts| => Load(ts[i]));
    assert forall i :: 0 <= i < |ts| ==> 0.0 <= rs[i] && (ts[i].passengers <= ts[i].capacity ==> rs[i] <= 1.0) by {
      forall i | 0 <= i < |ts| ensures 0.0 <= rs[i] && (ts[i].passengers <= ts[i].capacity ==> rs[i] <= 1.0) {
        Fraction(ts[i].passengers, ts[i].capacity);
      }
    }
    rs
  }

  /** Every capacity is positive, so that every occupancy is defined. */
  predicate Measurable(ss: seq<Station>, ts: seq<Train>)
  {
    (forall j :: 0 <= j < |ss| ==> ss[j].capacity > 0) && (forall i :: 0 <= i < |ts| ==> ts[i].capacity > 0)
  }

  /** No station holds more than its capacity and no train carries more than its capacity. */
  predicate AtMostFull(ss: seq<Station>, ts: seq<Train>)
  {
    (forall j :: 0 <= j < |ss| ==> ss[j].passengers <= ss[j].capacity) &&
    (forall i :: 0 <= i < |ts| ==> ts[i].passengers <= ts[i].capacity)
  }

  /**
   * The system congestion: 0.7 times the mean station occupancy plus 0.3
   * times the mean train occupancy; 0 when there are no stations or no trains.
   */
  function SystemCongestion(ss: seq<Station>, ts: seq<Train>): (c: real)
    requires Measurable(ss, ts)
    ensures c >= 0.0
    ensures |ss| == 0 || |ts| == 0 ==> c == 0.0
    ensures AtMostFull(ss, ts) ==> c <= 1.0
  {
    if |ss| == 0 || |ts| == 0 then 0.0
    else
      var sr, tr := StationRatios(ss), TrainRatios(ts);
      MeanAtLeast(sr, 0.0);
      MeanAtLeast(tr, 0.0);
      assert AllAtMost(sr, 1.0) ==> Mean(sr) <= 1.0 by {
        if AllAtMost(sr, 1.0) { MeanAtMost(sr, 1.0); }
      }
      assert AllAtMost(tr, 1.0) ==> Mean(tr) <= 1.0 by {
        if AllAtMost(tr, 1.0) { MeanAtMost(tr, 1.0); }
      }
      0.7 * Mean(sr) + 0.3 * Mean(tr)
  }

  /** The routing efficiency bonus: 12% with dynamic routing, none without. */
  function RoutingBonus(dynamicRouting: bool): (b: real)
    ensures 0.0 <= b <= 0.12
    ensures b > 0.0 <==> dynamicRouting
  {
    if dynamicRouting then 0.12 else 0.0
  }

  /** `max(0, bonus - 0.3 * congestion)`: the efficiency gain left after the congestion penalty. */
  function NetEfficiencyGain(congestion: real, dynamicRouting: bool): (g: real)
    ensures g >= 0.0
    ensures g >= RoutingBonus(dynamicRouting) - 0.3 * congestion
    ensures g == 0.0 || g == RoutingBonus(dynamicRouting) - 0.3 * congestion
    ensures !dynamicRouting && congestion >= 0.0 ==> g == 0.0
    ensures congestion >= 0.4 ==> g == 0.0
    ensures dynamicRouting && congestion < 0.4 ==> g > 0.0
  {
    var penalty := congestion * 0.3;
    var net := RoutingBonus(dynamicRouting) - penalty;
    if net > 0.0 then net else 0.0
  }

  /** With dynamic routing, more congestion strictly lowers the gain until it reaches 0 at 0.4. */
  lemma GainStrictlyDecreasing(c1: real, c2: real)
    requires c1 < c2 && c1 < 0.4
    ensures NetEfficiencyGain(c2, true) < NetEfficiencyGain(c1, true)
  {
  }

  /** Without dynamic routing there is no gain at any non-negative congestion. */
  lemma NoGainWithoutDynamicRouting(c: real)
    requires c >= 0.0
    ensures NetEfficiencyGain(c, false) == 0.0
  {
  }

  /** 5.5 million daily riders at $2.35 each. */
  const BaseDailyOperatingCost: real := 5500000.0 * 2.35

  /** The projected daily savings: the base daily operating cost times the gain. */
  function DailySavings(gain: real): (d: real)
    ensures gain >= 0.0 ==> d >= 0.0
    ensures gain <= 0.12 ==> d <= 1551000.0
    ensures gain == 0.0 ==> d == 0.0
  {
    BaseDailyOperatingCost * gain
  }

  /** The congestion as a percentage. */
  function CongestionScore(congestion: real): (score: real)
    ensures 0.0 <= congestion <= 1.0 ==> 0.0 <= score <= 100.0
    ensures score >= 70.0 <==> congestion >= 0.7
  {
    congestion * 100.0
  }

  /**
   * The projected daily savings for a non-negative congestion lie between 0
   * and $1,551,000 (12% of the base cost), and are 0 without dynamic routing
   * or from a congestion of 0.4 on.
   */
  lemma ProjectedSavingsBounds(congestion: real, dynamicRouting: bool)
    requires congestion >= 0.0
    ensures 0.0 <= DailySavings(NetEfficiencyGain(congestion, dynamicRouting)) <= 1551000.0
    ensures !dynamicRouting || congestion >= 0.4 ==> DailySavings(NetEfficiencyGain(congestion, dynamicRouting)) == 0.0
  {
    var g := NetEfficiencyGain(congestion, dynamicRouting);
    assert g <= 0.12;
  }
}
