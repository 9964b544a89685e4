/**
 * The simulator as the object the source keeps: the station list, the train
 * list and the statistics, updated in place tick by tick. Each method is
 * proved against the tick functions of Engine.
 */
module Simulation {
  import opened Wrappers
  import opened Network
  import opened Demand
  import opened Exchange
  import opened Routing
  import opened Trains
  import opened Metrics
  import opened Engine

  /** Every train loaded to its line's share of capacity, one after another. */
  method LoadTrains(ts: seq<Train>) returns (loaded: seq<Train>)
    ensures |loaded| == |ts|
    ensures forall k :: 0 <= k < |ts| ==> loaded[k] == ts[k].(passengers := SeedLoad(ts[k].capacity, TrainLoadFactor(ts[k].line)))
  {
    loaded := ts;
    for i := 0 to |loaded|
      invariant |loaded| == |ts|
      invariant forall m :: 0 <= m < i ==> loaded[m] == ts[m].(passengers := SeedLoad(ts[m].capacity, TrainLoadFactor(ts[m].line)))
      invariant forall m :: i <= m < |ts| ==> loaded[m] == ts[m]
    {
      var train := loaded[i];
      loaded := loaded[i := train.(passengers := SeedLoad(train.capacity, TrainLoadFactor(train.line)))];
    }
  }

  /** The station table with every waiting count seeded by popularity. */
  method InitialStations() returns (seeded: seq<Station>)
    ensures seeded == SeededStations()
  {
    seeded := [];
    for j := 0 to |Table|
      invariant |seeded| == j
      invariant forall m :: 0 <= m < j ==> seeded[m] == SeededStations()[m]
    {
      var station := Table[j];
      seeded := seeded + [station.(passengers := SeedLoad(station.capacity, StationLoadFactor(station.id)))];
    }
  }

  class Simulator {
    var stations: seq<Station>
    var trains: seq<Train>
    var stats: Stats
    var systemCongestion: real

    /** The state as a value. */
    function View(): World
      reads this
    {
      World(stations, trains, stats, systemCongestion)
    }

    ghost predicate Valid()
      reads this
    {
      WorldValid(View())
    }

    /**
     * The start-up effect: the five trains created and loaded by line, the
     * stations seeded by popularity, and the counters seeded to 2000
     * generated and 500 delivered.
     */
    constructor ()
      ensures View() == InitialWorld()
      ensures Valid()
    {
      StartsKnown();
      var created := seq(|Starts|, k requires 0 <= k < |Starts| => CreateTrain(Starts[k].0, Starts[k].1));
      var initialTrains := LoadTrains(created);
      assert initialTrains == SeededTrains();
      var initialStations := InitialStations();
      stations := initialStations;
      trains := initialTrains;
      stats := Stats(2000, 500, 0.0, 0.0, 0.0);
      systemCongestion := 0.0;
    }

    /** New arrivals at every station, and their total added to the generated count. */
    method GenerateDemand(cfg: Config, draws: seq<real>)
      requires Valid() && |draws| == |stations| && forall j :: 0 <= j < |draws| ==> UnitDraw(draws[j])
      modifies this
      ensures View() == Engine.GenerateDemand(old(View()), cfg, draws)
      ensures Valid()
    {
      ghost var counts := ArrivalCounts(stations, cfg, draws);
      var newPassengersTotal := 0;
      var next: seq<Station> := [];
      for j := 0 to |stations|
        invariant |next| == j
        invariant forall m :: 0 <= m < j ==> next[m] == Arrive(stations, counts)[m]
        invariant newPassengersTotal == SumNat(counts[..j])
      {
        var station := stations[j];
        var newPassengers := Arrivals(draws[j], PassengerRate(station.id, cfg.rushHour, cfg.level));
        assert counts[..j + 1][..j] == counts[..j];
        newPassengersTotal := newPassengersTotal + newPassengers;
        next := next + [station.(passengers := station.passengers + newPassengers)];
      }
      assert counts[..|stations|] == counts;
      stations := next;
      stats := stats.(totalPassengers := stats.totalPassengers + newPassengersTotal);
    }

    /**
     * The arrival-tick exchange of train i: 30% of those on board alight,
     * then as many board as wait or as fit.
     */
    method ExchangePassengers(i: nat, cfg: Config)
      requires Valid() && i < |trains|
      modifies this
      ensures View() == ExchangeStep(old(View()), i, cfg)
      ensures Valid()
    {
      var train := trains[i];
      var k := Here(stations, train);
      var current := stations[k];
      var gettingOff := Alighting(train.passengers);
      var gettingOn := Boarding(current.passengers, train.capacity, train.passengers);
      stations := stations[k := current.(passengers := current.passengers - gettingOn)];
      if gettingOff > 0 {
        stats := stats.(passengersDelivered := stats.passengersDelivered + gettingOff,
                        costSavings := stats.costSavings + gettingOff as real * SavingsPerPassenger(cfg.dynamicRouting));
      }
      trains := trains[i := train.(passengers := train.passengers - gettingOff + gettingOn)];
    }

    /**
     * Where a train goes when its dwell is over: a detour to the most crowded
     * nearby station, or the next stop of its route.
     */
    method NextStop(train: Train, cfg: Config, coin: real) returns (departed: Train)
      requires Valid() && WellFormed(train, stations)
      ensures departed == Depart(train, stations, cfg, coin)
    {
      var currentIndex := IndexOf(train.route, train.currentStation);
      if cfg.dynamicRouting {
        var here := stations[Here(stations, train)];
        var highDemand := DynamicTarget(stations, train.currentStation, here.x, here.y);
        if highDemand.Some? && coin > 0.5 {
          return train.(nextStation := highDemand, atStation := false, stationTime := 0);
        }
      }
      var next := FixedNext(|train.route|, currentIndex, train.direction);
      departed := train.(direction := next.1, nextStation := Some(train.route[next.0]), atStation := false, stationTime := 0);
    }

    /** A standing train: exchange on the arrival tick, count the tick, depart once the dwell is over. */
    method Dwell(i: nat, cfg: Config, coin: real)
      requires Valid() && i < |trains| && trains[i].atStation
      modifies this
      ensures View() == AtStationStep(old(View()), i, cfg, coin)
      ensures Valid()
    {
      if trains[i].stationTime == 0 {
        ExchangePassengers(i, cfg);
      }
      var train := trains[i].(stationTime := trains[i].stationTime + 1);
      if train.stationTime >= train.maxStationTime {
        train := NextStop(train, cfg, coin);
      }
      trains := trains[i := train];
    }

    /** A moving train: snap onto the target once within a step of it, otherwise take the interpolated position. */
    method Move(i: nat, move: Point)
      requires Valid() && i < |trains| && !trains[i].atStation
      modifies this
      ensures View() == TransitStep(old(View()), i, move)
      ensures Valid()
    {
      var train := trains[i];
      var target := stations[Find(stations, train.nextStation.value).value];
      var dx := target.x as real - train.x;
      var dy := target.y as real - train.y;
      if dx * dx + dy * dy < train.speed as real * train.speed as real {
        train := train.(x := target.x as real, y := target.y as real, currentStation := train.nextStation.value,
                        nextStation := None, atStation := true);
      } else {
        train := train.(x := move.x, y := move.y);
      }
      trains := trains[i := train];
    }

    /** Train i's update. */
    method UpdateTrain(i: nat, cfg: Config, coin: real, move: Point)
      requires Valid() && i < |trains|
      modifies this
      ensures View() == StepTrain(old(View()), i, cfg, coin, move)
      ensures Valid()
    {
      if trains[i].atStation {
        Dwell(i, cfg, coin);
      } else {
        Move(i, move);
      }
    }

    /** Every train updated in list order. */
    method UpdateTrains(cfg: Config, coins: seq<real>, moves: seq<Point>)
      requires Valid() && |coins| == |trains| && |moves| == |trains|
      modifies this
      ensures View() == StepTrainsFrom(old(View()), cfg, coins, moves, 0)
      ensures Valid()
    {
      var i := 0;
      while i < |trains|
        invariant Valid() && |trains| == |coins| && 0 <= i <= |trains|
        invariant StepTrainsFrom(View(), cfg, coins, moves, i) == StepTrainsFrom(old(View()), cfg, coins, moves, 0)
        decreases |trains| - i
      {
        UpdateTrain(i, cfg, coins[i], moves[i]);
        i := i + 1;
      }
    }

    /** The congestion and savings figures recomputed from the current state. */
    method RefreshMetrics(cfg: Config)
      requires Valid()
      modifies this
      ensures View() == UpdateMetrics(old(View()), cfg)
      ensures Valid()
    {
      var congestion := SystemCongestion(stations, trains);
      var netEfficiencyGain := NetEfficiencyGain(congestion, cfg.dynamicRouting);
      systemCongestion := congestion;
      stats := stats.(congestionScore := CongestionScore(congestion), dailySavings := DailySavings(netEfficiencyGain));
    }

    /** One tick: demand, trains, metrics. */
    method Tick(cfg: Config, inp: TickInput)
      requires Valid() && Fits(inp, |stations|, |trains|)
      modifies this
      ensures View() == Engine.Tick(old(View()), cfg, inp)
      ensures Valid()
    {
      GenerateDemand(cfg, inp.draws);
      UpdateTrains(cfg, inp.coins, inp.moves);
      RefreshMetrics(cfg);
    }
  }
}
