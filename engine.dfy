/**
 * One tick of the simulation as a function of the state before it: demand
 * generation, then every train in list order, then the metrics. Each train
 * sees the stations as the demand and the trains before it left them.
 */
module Engine {
  import opened Wrappers
  import opened Network
  import opened Demand
  import opened Exchange
  import opened Routing
  import opened Trains
  import opened Metrics

  /** The controls: congestion level, rush hour, dynamic routing. */
  datatype Config = Config(level: CongestionLevel, rushHour: bool, dynamicRouting: bool)

  /** The statistics panel's figures. */
  datatype Stats = Stats(
    totalPassengers: nat,
    passengersDelivered: nat,
    costSavings: real,
    congestionScore: real,
    dailySavings: real)

  /** The whole simulation state. */
  datatype World = World(stations: seq<Station>, trains: seq<Train>, stats: Stats, systemCongestion: real)

  /** A position on the map. */
  datatype Point = Point(x: real, y: real)

  /**
   * What one tick consumes from outside: a demand draw per station, a coin
   * per train for the detour decision, and per train the position the
   * interpolation would move it to if it is in transit and not yet arriving.
   */
  datatype TickInput = TickInput(draws: seq<real>, coins: seq<real>, moves: seq<Point>)

  /** Positive capacities, known base rates and distinct ids. */
  predicate StationsValid(ss: seq<Station>)
  {
    && (forall j :: 0 <= j < |ss| ==> ss[j].capacity > 0 && ss[j].id in BaseRates)
    && (forall j, k :: 0 <= j < k < |ss| ==> ss[j].id != ss[k].id)
  }

  /** The state invariant kept by every tick. */
  predicate WorldValid(w: World)
  {
    && StationsValid(w.stations)
    && (forall i :: 0 <= i < |w.trains| ==> TrainValid(w.trains[i], w.stations))
    && w.stats.costSavings >= 0.0
  }

  /** The tick input matches a network of ns stations and nt trains. */
  predicate Fits(inp: TickInput, ns: nat, nt: nat)
  {
    && |inp.draws| == ns
    && (forall j :: 0 <= j < |inp.draws| ==> UnitDraw(inp.draws[j]))
    && |inp.coins| == nt
    && |inp.moves| == nt
  }

  /** The cumulative counters never go down, and savings accrue only with dynamic routing. */
  predicate Grows(a: Stats, b: Stats, dynamicRouting: bool)
  {
    && a.totalPassengers <= b.totalPassengers
    && a.passengersDelivered <= b.passengersDelivered
    && a.costSavings <= b.costSavings
    && (!dynamicRouting ==> b.costSavings == a.costSavings)
  }

  /** Changing waiting counts only keeps the invariant. */
  lemma LayoutKeepsValid(w: World, ss: seq<Station>)
    requires WorldValid(w) && SameLayout(w.stations, ss)
    ensures WorldValid(w.(stations := ss))
  {
    forall i | 0 <= i < |w.trains| ensures TrainValid(w.trains[i], ss) {
      TrainValidSameLayout(w.trains[i], w.stations, ss);
    }
    assert forall j :: 0 <= j < |ss| ==> ss[j] == w.stations[j].(passengers := ss[j].passengers);
  }

  // ---------------------------------------------------------------- demand

  /** A station's arrivals this tick under the controls. */
  function StationArrivals(s: Station, cfg: Config, draw: real): (n: nat)
    requires s.id in BaseRates && UnitDraw(draw)
    ensures var rate := PassengerRate(s.id, cfg.rushHour, cfg.level);
      n as real <= draw * rate / 60.0 < n as real + 1.0
    ensures n as real <= 3.75 * BaseRates[s.id] as real / 60.0
  {
    Arrivals(draw, PassengerRate(s.id, cfg.rushHour, cfg.level))
  }

  /** The arrivals of every station, in list order. */
  function ArrivalCounts(ss: seq<Station>, cfg: Config, draws: seq<real>): (a: seq<nat>)
    requires StationsValid(ss) && |draws| == |ss| && forall j :: 0 <= j < |draws| ==> UnitDraw(draws[j])
    ensures |a| == |ss|
    ensures forall j :: 0 <= j < |ss| ==> a[j] as real < PassengerRate(ss[j].id, cfg.rushHour, cfg.level) / 60.0 || a[j] == 0
  {
    seq(|ss|, j requires 0 <= j < |ss| => StationArrivals(ss[j], cfg, draws[j]))
  }

  /** Sum of counts, folded from the left. */
  function SumNat(xs: seq<nat>): nat
  {
    if |xs| == 0 then 0 else SumNat(xs[..|xs| - 1]) + xs[|xs| - 1]
  }

  /** Every station's waiting count grown by its arrivals. */
  function Arrive(ss: seq<Station>, counts: seq<nat>): (r: seq<Station>)
    requires |counts| == |ss|
    ensures SameLayout(ss, r)
    ensures forall j :: 0 <= j < |ss| ==> r[j].passengers == ss[j].passengers + counts[j]
  {
    seq(|ss|, j requires 0 <= j < |ss| => ss[j].(passengers := ss[j].passengers + counts[j]))
  }

  /** Demand generation: arrivals added to the stations and to the generated total. */
  function GenerateDemand(w: World, cfg: Config, draws: seq<real>): (r: World)
    requires WorldValid(w) && |draws| == |w.stations| && forall j :: 0 <= j < |draws| ==> UnitDraw(draws[j])
    ensures WorldValid(r)
    ensures r.trains == w.trains && r.systemCongestion == w.systemCongestion
    ensures var counts := ArrivalCounts(w.stations, cfg, draws);
      && r.stations == Arrive(w.stations, counts)
      && r.stats == w.stats.(totalPassengers := w.stats.totalPassengers + SumNat(counts))
  {
    var counts := ArrivalCounts(w.stations, cfg, draws);
    LayoutKeepsValid(w, Arrive(w.stations, counts));
    w.(stations := Arrive(w.stations, counts), stats := w.stats.(totalPassengers := w.stats.totalPassengers + SumNat(counts)))
  }

  // ---------------------------------------------------------------- trains

  /** Savings per delivered passenger: 12% of the $2.35 cost, only with dynamic routing. */
  function SavingsPerPassenger(dynamicRouting: bool): (s: real)
    ensures s == RoutingBonus(dynamicRouting) * 2.35
    ensures s > 0.0 <==> dynamicRouting
  {
    if dynamicRouting then 2.35 * 0.12 else 0.0
  }

  /** The index of the station a train stands at. */
  function Here(ss: seq<Station>, t: Train): (k: nat)
    requires Has(ss, t.currentStation)
    ensures k < |ss| && ss[k].id == t.currentStation
  {
    Find(ss, t.currentStation).value
  }

  /**
   * The arrival-tick exchange of train i: 30% alight, then as many board as
   * wait or as fit; the station loses the boarders, the delivered count gains
   * the alighters, and with dynamic routing each alighter accrues savings.
   */
  function ExchangeStep(w: World, i: nat, cfg: Config): (r: World)
    requires WorldValid(w) && i < |w.trains|
    ensures WorldValid(r)
    ensures SameLayout(w.stations, r.stations)
    ensures |r.trains| == |w.trains| && r.trains == w.trains[i := w.trains[i].(passengers := r.trains[i].passengers)]
    ensures r.systemCongestion == w.systemCongestion
    ensures var t, k := w.trains[i], Here(w.stations, w.trains[i]);
      var e := PassengerExchange(w.stations[k].passengers, t.capacity, t.passengers);
      && r.trains[i].passengers == e.onboard
      && r.stations == w.stations[k := w.stations[k].(passengers := e.waiting)]
      && r.stats == w.stats.(passengersDelivered := w.stats.passengersDelivered + e.alighting,
                             costSavings := w.stats.costSavings + e.alighting as real * SavingsPerPassenger(cfg.dynamicRouting))
  {
    var t := w.trains[i];
    var k := Here(w.stations, t);
    var s := w.stations[k];
    var e := PassengerExchange(s.passengers, t.capacity, t.passengers);
    var stats :=
      if e.alighting > 0 then
        w.stats.(passengersDelivered := w.stats.passengersDelivered + e.alighting,
                 costSavings := w.stats.costSavings + e.alighting as real * SavingsPerPassenger(cfg.dynamicRouting))
      else w.stats;
    var ss := w.stations[k := s.(passengers := e.waiting)];
    assert SameLayout(w.stations, ss);
    LayoutKeepsValid(w, ss);
    TrainValidSameLayout(t, w.stations, ss);
    w.(stations := ss, trains := w.trains[i := t.(passengers := e.onboard)], stats := stats)
  }

  /**
   * Departure: a detour to the most crowded nearby station when dynamic
   * routing is on, such a station exists and the coin exceeds 0.5; otherwise
   * the next stop of the ping-pong traversal. Either way the train leaves
   * with its dwell counter reset.
   */
  function Depart(t: Train, ss: seq<Station>, cfg: Config, coin: real): (r: Train)
    requires WellFormed(t, ss) && forall j :: 0 <= j < |ss| ==> ss[j].capacity > 0
    ensures WellFormed(r, ss) && TrainValid(r, ss)
    ensures !r.atStation && r.stationTime == 0
    ensures r == t.(nextStation := r.nextStation, direction := r.direction, atStation := false, stationTime := 0)
    ensures var here := ss[Here(ss, t)];
      var target := DynamicTarget(ss, t.currentStation, here.x, here.y);
      var fixed := FixedNext(|t.route|, IndexOf(t.route, t.currentStation), t.direction);
      if cfg.dynamicRouting && target.Some? && coin > 0.5 then r.nextStation == target && r.direction == t.direction
      else r.nextStation == Some(t.route[fixed.0]) && r.direction == fixed.1
  {
    var here := ss[Here(ss, t)];
    var target := if cfg.dynamicRouting then DynamicTarget(ss, t.currentStation, here.x, here.y) else None;
    if target.Some? && coin > 0.5 then
      t.(nextStation := target, atStation := false, stationTime := 0)
    else
      var next := FixedNext(|t.route|, IndexOf(t.route, t.currentStation), t.direction);
      t.(direction := next.1, nextStation := Some(t.route[next.0]), atStation := false, stationTime := 0)
  }

  /** A standing train: exchange on the arrival tick, count the tick, depart once the dwell is over. */
  function AtStationStep(w: World, i: nat, cfg: Config, coin: real): (r: World)
    requires WorldValid(w) && i < |w.trains| && w.trains[i].atStation
    ensures WorldValid(r)
    ensures Grows(w.stats, r.stats, cfg.dynamicRouting) && r.stats.totalPassengers == w.stats.totalPassengers
    ensures SameLayout(w.stations, r.stations) && |r.trains| == |w.trains|
    ensures forall j :: 0 <= j < |w.trains| && j != i ==> r.trains[j] == w.trains[j]
    ensures r.systemCongestion == w.systemCongestion
    ensures forall j :: 0 <= j < |w.trains| ==> SameService(w.trains[j], r.trains[j])
  {
    var w1 := if w.trains[i].stationTime == 0 then ExchangeStep(w, i, cfg) else w;
    var t := w1.trains[i].(stationTime := w1.trains[i].stationTime + 1);
    var t' := if t.stationTime >= t.maxStationTime then Depart(t, w1.stations, cfg, coin) else t;
    w1.(trains := w1.trains[i := t'])
  }

  /**
   * A moving train: once the remaining distance is under its speed it snaps
   * onto the target and stands there; otherwise it takes the interpolated
   * position. The test compares squares, which is the same as comparing the
   * distance for a non-negative speed.
   */
  function TransitStep(w: World, i: nat, move: Point): (r: World)
    requires WorldValid(w) && i < |w.trains| && !w.trains[i].atStation
    ensures WorldValid(r)
    ensures r.stations == w.stations && r.stats == w.stats && |r.trains| == |w.trains|
    ensures forall j :: 0 <= j < |w.trains| && j != i ==> r.trains[j] == w.trains[j]
    ensures r.systemCongestion == w.systemCongestion
    ensures forall j :: 0 <= j < |w.trains| ==> SameService(w.trains[j], r.trains[j])
  {
    var t := w.trains[i];
    var s := w.stations[Find(w.stations, t.nextStation.value).value];
    var dx := s.x as real - t.x;
    var dy := s.y as real - t.y;
    if dx * dx + dy * dy < t.speed as real * t.speed as real then
      w.(trains := w.trains[i := t.(x := s.x as real, y := s.y as real, currentStation := t.nextStation.value,
                                   nextStation := None, atStation := true)])
    else
      w.(trains := w.trains[i := t.(x := move.x, y := move.y)])
  }

  /** One train's update. */
  function StepTrain(w: World, i: nat, cfg: Config, coin: real, move: Point): (r: World)
    requires WorldValid(w) && i < |w.trains|
    ensures WorldValid(r)
    ensures Grows(w.stats, r.stats, cfg.dynamicRouting) && r.stats.totalPassengers == w.stats.totalPassengers
    ensures SameLayout(w.stations, r.stations) && |r.trains| == |w.trains|
    ensures forall j :: 0 <= j < |w.trains| && j != i ==> r.trains[j] == w.trains[j]
    ensures r.systemCongestion == w.systemCongestion
    ensures forall j :: 0 <= j < |w.trains| ==> SameService(w.trains[j], r.trains[j])
  {
    if w.trains[i].atStation then AtStationStep(w, i, cfg, coin) else TransitStep(w, i, move)
  }

  /** Trains i, i + 1, ... updated in list order, each on the state the previous left. */
  function StepTrainsFrom(w: World, cfg: Config, coins: seq<real>, moves: seq<Point>, i: nat): (r: World)
    requires WorldValid(w) && |coins| == |w.trains| && |moves| == |w.trains| && i <= |w.trains|
    ensures WorldValid(r)
    ensures Grows(w.stats, r.stats, cfg.dynamicRouting) && r.stats.totalPassengers == w.stats.totalPassengers
    ensures SameLayout(w.stations, r.stations) && |r.trains| == |w.trains|
    ensures r.systemCongestion == w.systemCongestion
    ensures forall j :: 0 <= j < |w.trains| ==> SameService(w.trains[j], r.trains[j])
    decreases |w.trains| - i
  {
    if i == |w.trains| then w
    else
      var w' := StepTrain(w, i, cfg, coins[i], moves[i]);
      var r := StepTrainsFrom(w', cfg, coins, moves, i + 1);
      assert SameLayout(w.stations, r.stations) by {
        assert forall j :: 0 <= j < |w.stations| ==> r.stations[j] == w'.stations[j].(passengers := r.stations[j].passengers);
      }
      r
  }

  // --------------------------------------------------------------- metrics

  /** The metrics recomputed from a state: the congestion, its score and the projected daily savings. */
  function UpdateMetrics(w: World, cfg: Config): (r: World)
    requires WorldValid(w)
    ensures WorldValid(r)
    ensures r.stations == w.stations && r.trains == w.trains
    ensures r.stats.totalPassengers == w.stats.totalPassengers
    ensures r.stats.passengersDelivered == w.stats.passengersDelivered
    ensures r.stats.costSavings == w.stats.costSavings
    ensures r.systemCongestion == SystemCongestion(w.stations, w.trains)
    ensures r.stats.congestionScore == CongestionScore(r.systemCongestion)
    ensures r.stats.dailySavings == DailySavings(NetEfficiencyGain(r.systemCongestion, cfg.dynamicRouting))
    ensures 0.0 <= r.systemCongestion && 0.0 <= r.stats.congestionScore
    ensures AtMostFull(w.stations, w.trains) ==> r.systemCongestion <= 1.0 && r.stats.congestionScore <= 100.0
    ensures 0.0 <= r.stats.dailySavings <= 1551000.0
    ensures !cfg.dynamicRouting || r.systemCongestion >= 0.4 ==> r.stats.dailySavings == 0.0
  {
    var c := SystemCongestion(w.stations, w.trains);
    ProjectedSavingsBounds(c, cfg.dynamicRouting);
    w.(systemCongestion := c,
       stats := w.stats.(congestionScore := CongestionScore(c),
                         dailySavings := DailySavings(NetEfficiencyGain(c, cfg.dynamicRouting))))
  }

  // ------------------------------------------------------------------ tick

  /** `advance(state, config, draws)`: demand, then every train, then the metrics. */
  function Tick(w: World, cfg: Config, inp: TickInput): (r: World)
    requires WorldValid(w) && Fits(inp, |w.stations|, |w.trains|)
    ensures WorldValid(r)
    ensures Grows(w.stats, r.stats, cfg.dynamicRouting)
    ensures SameLayout(w.stations, r.stations) && |r.trains| == |w.trains|
    ensures forall j :: 0 <= j < |w.trains| ==> SameService(w.trains[j], r.trains[j])
  {
    var w1 := GenerateDemand(w, cfg, inp.draws);
    var w2 := StepTrainsFrom(w1, cfg, inp.coins, inp.moves, 0);
    var r := UpdateMetrics(w2, cfg);
    assert SameLayout(w.stations, r.stations) by {
      assert forall j :: 0 <= j < |w.stations| ==> r.stations[j] == w1.stations[j].(passengers := r.stations[j].passengers);
    }
    r
  }

  /** Ticks applied one after another under fixed controls. */
  function Run(w: World, cfg: Config, inputs: seq<TickInput>): (r: World)
    requires WorldValid(w) && forall k :: 0 <= k < |inputs| ==> Fits(inputs[k], |w.stations|, |w.trains|)
    ensures WorldValid(r)
    ensures SameLayout(w.stations, r.stations) && |r.trains| == |w.trains|
    ensures Grows(w.stats, r.stats, cfg.dynamicRouting)
    ensures forall j :: 0 <= j < |w.trains| ==> SameService(w.trains[j], r.trains[j])
    decreases |inputs|
  {
    if |inputs| == 0 then w
    else
      var w' := Tick(w, cfg, inputs[0]);
      var r := Run(w', cfg, inputs[1..]);
      assert SameLayout(w.stations, r.stations) by {
        assert forall j :: 0 <= j < |w.stations| ==> r.stations[j] == w'.stations[j].(passengers := r.stations[j].passengers);
      }
      r
  }

  // ------------------------------------------------------------ start-up

  /** Every station of the table has a base rate. */
  lemma TableRatesKnown()
    ensures forall j :: 0 <= j < |Table| ==> Table[j].id in BaseRates
  {
  }

  /**
   * The state at start-up: the seeded stations and trains, 2000 passengers
   * already generated and 500 delivered, nothing saved yet.
   */
  function InitialWorld(): (w: World)
    ensures WorldValid(w)
    ensures SameLayout(Table, w.stations) && |w.trains| == 5
    ensures w.stats == Stats(2000, 500, 0.0, 0.0, 0.0)
    ensures w.stations == SeededStations() && w.trains == SeededTrains() && w.systemCongestion == 0.0
    ensures forall j :: 0 <= j < |w.stations| ==> w.stations[j].passengers <= w.stations[j].capacity
  {
    var ss := SeededStations();
    var ts := SeededTrains();
    TableWellFormed();
    TableRatesKnown();
    assert StationsValid(ss) by {
      assert forall j :: 0 <= j < |ss| ==> ss[j] == Table[j].(passengers := ss[j].passengers);
    }
    forall i | 0 <= i < |ts| ensures TrainValid(ts[i], ss) {
      TrainValidSameLayout(ts[i], Table, ss);
    }
    World(ss, ts, Stats(2000, 500, 0.0, 0.0, 0.0), 0.0)
  }
}
