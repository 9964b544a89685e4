/**
 * Passenger demand: the per-minute base rate of each station, scaled by rush
 * hour and the congestion level, and the per-tick arrival draw.
 */
module Demand {
  /** The congestion-level control. */
  datatype CongestionLevel = Low | Medium | High

  /** Base arrival rates, passengers per minute, by station id. */
  const BaseRates: map<string, nat> := map[
    "wtc" := 25, "exchange" := 15, "grove" := 12, "journal" := 20,
    "newark" := 30, "harrison" := 8, "newport" := 18, "hoboken" := 22,
    "christopher" := 10, "9st" := 5, "14st" := 15, "23st" := 12, "33st" := 18
  ]

  /** Rush hour multiplies demand by 2.5. */
  function RushMultiplier(rushHour: bool): (m: real)
    ensures 1.0 <= m <= 2.5
    ensures m > 1.0 <==> rushHour
  {
    if rushHour then 2.5 else 1.0
  }

  /** Anything but low and medium counts as high. */
  function LevelMultiplier(level: CongestionLevel): (m: real)
    ensures 0.7 <= m <= 1.5
    ensures m < 1.0 <==> level == Low
    ensures m > 1.0 <==> level == High
  {
    match level
    case Low => 0.7
    case Medium => 1.0
    case High => 1.5
  }

  /** `getPassengerRate`: passengers per minute at a station under the given controls. */
  function PassengerRate(id: string, rushHour: bool, level: CongestionLevel): (rate: real)
    requires id in BaseRates
    ensures 0.7 * BaseRates[id] as real <= rate <= 3.75 * BaseRates[id] as real
    ensures BaseRates[id] > 0 ==> (rate >= BaseRates[id] as real <==> rushHour || level != Low)
    ensures !rushHour && level == Medium ==> rate == BaseRates[id] as real
  {
    BaseRates[id] as real * RushMultiplier(rushHour) * LevelMultiplier(level)
  }

  /** Rush hour and a higher congestion level never lower the rate. */
  lemma RateMonotone(id: string, rush1: bool, rush2: bool, level1: CongestionLevel, level2: CongestionLevel)
    requires id in BaseRates
    requires rush1 ==> rush2
    requires LevelMultiplier(level1) <= LevelMultiplier(level2)
    ensures PassengerRate(id, rush1, level1) <= PassengerRate(id, rush2, level2)
  {
    var b := BaseRates[id] as real;
    assert b * RushMultiplier(rush1) <= b * RushMultiplier(rush2);
    assert b * RushMultiplier(rush1) * LevelMultiplier(level1) <= b * RushMultiplier(rush2) * LevelMultiplier(level1);
  }

  /** A uniform draw in [0, 1). */
  predicate UnitDraw(r: real)
  {
    0.0 <= r < 1.0
  }

  /** The sign of a product of reals, one of which is non-negative. */
  lemma ProductBounds(a: real, b: real)
    requires 0.0 <= a && 0.0 <= b
    ensures 0.0 <= a * b
    ensures 0.0 < a && 0.0 < b ==> 0.0 < a * b
  {
  }

  /**
   * One tick's new arrivals at a station: `floor(draw * rate / 60)` for a
   * per-minute rate, one tick being one simulated second.
   */
  function Arrivals(draw: real, rate: real): (n: nat)
    requires UnitDraw(draw) && rate >= 0.0
    ensures n as real <= draw * rate / 60.0 < n as real + 1.0
    ensures n as real <= rate / 60.0
    ensures rate > 0.0 ==> n as real < rate / 60.0
  {
    var v := draw * rate / 60.0;
    var gap := 1.0 - draw;
    assert rate - draw * rate == gap * rate;
    ProductBounds(draw, rate);
    ProductBounds(gap, rate);
    assert 0.0 <= v <= rate / 60.0;
    assert rate > 0.0 ==> v < rate / 60.0;
    v.Floor
  }
}
