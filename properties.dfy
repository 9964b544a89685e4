/**
 * Properties of the tick: the dwell cycle, when the exchange happens and what
 * it books, arrival, conservation of passengers, and the cost savings of a
 * run without dynamic routing.
 */
module Properties {
  import opened Wrappers
  import opened Network
  import opened Exchange
  import opened Routing
  import opened Trains
  import opened Engine

  // ------------------------------------------------------------ per train

  /**
   * A standing train's dwell counter goes up by exactly one per tick; when it
   * reaches the dwell time the train departs for a known station with the
   * counter back at 0, otherwise it stays.
   */
  lemma DwellCycle(w: World, i: nat, cfg: Config, coin: real, move: Point)
    requires WorldValid(w) && i < |w.trains| && w.trains[i].atStation
    ensures var t, t' := w.trains[i], StepTrain(w, i, cfg, coin, move).trains[i];
      && (t.stationTime + 1 < t.maxStationTime ==> t'.atStation && t'.stationTime == t.stationTime + 1)
      && (t.stationTime + 1 >= t.maxStationTime ==> !t'.atStation && t'.stationTime == 0 && t'.nextStation.Some?)
      && t'.route == t.route && t'.currentStation == t.currentStation
  {
  }

  /** No exchange except on the arrival tick: stations, statistics and the train's load stay put. */
  lemma ExchangeOnlyOnArrivalTick(w: World, i: nat, cfg: Config, coin: real, move: Point)
    requires WorldValid(w) && i < |w.trains|
    requires !(w.trains[i].atStation && w.trains[i].stationTime == 0)
    ensures var r := StepTrain(w, i, cfg, coin, move);
      r.stations == w.stations && r.stats == w.stats && r.trains[i].passengers == w.trains[i].passengers
  {
  }

  /**
   * On the arrival tick the exchange books exactly the alighting passengers
   * as delivered, accrues 2.35 * 0.12 per alighting passenger only with
   * dynamic routing, and takes exactly the boarders from the station, which
   * never drops below 0; no other station changes.
   */
  lemma ArrivalTickExchange(w: World, i: nat, cfg: Config, coin: real, move: Point)
    requires WorldValid(w) && i < |w.trains|
    requires w.trains[i].atStation && w.trains[i].stationTime == 0
    ensures var r, t, k := StepTrain(w, i, cfg, coin, move), w.trains[i], Here(w.stations, w.trains[i]);
      var a, b := Alighting(t.passengers), Boarding(w.stations[k].passengers, t.capacity, t.passengers);
      && r.stats.passengersDelivered == w.stats.passengersDelivered + a
      && r.stats.costSavings == w.stats.costSavings + (if cfg.dynamicRouting then a as real * 2.35 * 0.12 else 0.0)
      && b <= w.stations[k].passengers
      && r.stations[k].passengers == w.stations[k].passengers - b
      && (forall j :: 0 <= j < |w.stations| && j != k ==> r.stations[j] == w.stations[j])
      && r.trains[i].passengers == t.passengers - a + b <= t.capacity
  {
    var w1 := ExchangeStep(w, i, cfg);
    var r := StepTrain(w, i, cfg, coin, move);
    assert r == AtStationStep(w, i, cfg, coin);
    assert r.stations == w1.stations && r.stats == w1.stats && r.trains[i].passengers == w1.trains[i].passengers;
  }

  /**
   * A moving train whose remaining distance is under its speed snaps onto
   * its target and stands there with the dwell counter at 0, so the next
   * tick exchanges; otherwise only its position changes.
   */
  lemma ArrivalSnapsToStation(w: World, i: nat, cfg: Config, coin: real, move: Point)
    requires WorldValid(w) && i < |w.trains| && !w.trains[i].atStation
    ensures var t, t' := w.trains[i], StepTrain(w, i, cfg, coin, move).trains[i];
      var s := w.stations[Find(w.stations, t.nextStation.value).value];
      var dx, dy := s.x as real - t.x, s.y as real - t.y;
      if dx * dx + dy * dy < t.speed as real * t.speed as real then
        && t' == t.(x := s.x as real, y := s.y as real, currentStation := t.nextStation.value, nextStation := None, atStation := true)
        && t'.stationTime == 0
      else
        t' == t.(x := move.x, y := move.y)
  {
  }

  /**
   * From 9 St at 150 of 200 and 14 St at 300 of 400, both 75% full and both
   * near Christopher St, the detour goes to 9 St, the first in table order.
   */
  lemma TieGoesToTableOrder(ss: seq<Station>)
    requires SameLayout(Table, ss)
    requires ss[9].passengers == 150 && ss[10].passengers == 300
    requires forall j :: 0 <= j < |ss| && j != 9 && j != 10 ==> ss[j].passengers == 0
    ensures forall j :: 0 <= j < |ss| ==> ss[j].capacity > 0
    ensures DynamicTarget(ss, "christopher", 320, 120) == Some("9st")
  {
    TableWellFormed();
    assert ss[9] == Table[9].(passengers := 150) && ss[10] == Table[10].(passengers := 300);
    assert Ratio(ss[9]) == 0.75 == Ratio(ss[10]);
    assert forall j :: 0 <= j < |ss| && j != 9 && j != 10 ==> !Crowded(ss[j]);
    var target := DynamicTarget(ss, "christopher", 320, 120);
    assert Nearby(ss[9], "christopher", 320, 120) && Crowded(ss[9]);
    var k :| 0 <= k < |ss| && ss[k].id == target.value && MostCrowdedNearby(ss, k, "christopher", 320, 120);
    assert k == 9 || k == 10;
    assert !(Ratio(ss[9]) < Ratio(ss[10]));
    assert k == 9;
  }

  // --------------------------------------------------------- conservation

  /** The waiting count of every station, in list order. */
  function WaitingCounts(ss: seq<Station>): (c: seq<nat>)
    ensures |c| == |ss| && forall j :: 0 <= j < |ss| ==> c[j] == ss[j].passengers
  {
    seq(|ss|, j requires 0 <= j < |ss| => ss[j].passengers)
  }

  /** The load of every train, in list order. */
  function Loads(ts: seq<Train>): (c: seq<nat>)
    ensures |c| == |ts| && forall i :: 0 <= i < |ts| ==> c[i] == ts[i].passengers
  {
    seq(|ts|, i requires 0 <= i < |ts| => ts[i].passengers)
  }

  /** Total waiting passengers. */
  function Waiting(ss: seq<Station>): nat
  {
    SumNat(WaitingCounts(ss))
  }

  /** Total passengers on board. */
  function Onboard(ts: seq<Train>): nat
  {
    SumNat(Loads(ts))
  }

  /**
   * Passengers waiting, on board and delivered, less those generated. Demand
   * creates passengers that it also counts as generated, and the exchange
   * only moves them between stations, trains and the delivered count, so
   * every tick keeps this figure.
   */
  function Balance(w: World): int
  {
    Waiting(w.stations) + Onboard(w.trains) + w.stats.passengersDelivered - w.stats.totalPassengers
  }

  /** Replacing one count changes the sum by the difference. */
  lemma {:induction false} SumNatSet(xs: seq<nat>, k: nat, v: nat)
    requires k < |xs|
    ensures SumNat(xs[k := v]) == SumNat(xs) - xs[k] + v
    decreases |xs|
  {
    var n := |xs| - 1;
    if k < n {
      assert xs[k := v][..n] == xs[..n][k := v];
      SumNatSet(xs[..n], k, v);
    } else {
      assert xs[k := v][..n] == xs[..n];
    }
  }

  /** The sum of pointwise sums is the sum of the two sums. */
  lemma {:induction false} SumNatAdd(xs: seq<nat>, ys: seq<nat>, zs: seq<nat>)
    requires |xs| == |ys| == |zs| && forall j :: 0 <= j < |zs| ==> zs[j] == xs[j] + ys[j]
    ensures SumNat(zs) == SumNat(xs) + SumNat(ys)
    decreases |zs|
  {
    if |zs| > 0 {
      var n := |zs| - 1;
      SumNatAdd(xs[..n], ys[..n], zs[..n]);
    }
  }

  lemma WaitingSet(ss: seq<Station>, k: nat, s: Station)
    requires k < |ss|
    ensures Waiting(ss[k := s]) == Waiting(ss) - ss[k].passengers + s.passengers
  {
    assert WaitingCounts(ss[k := s]) == WaitingCounts(ss)[k := s.passengers];
    SumNatSet(WaitingCounts(ss), k, s.passengers);
  }

  lemma OnboardSet(ts: seq<Train>, i: nat, t: Train)
    requires i < |ts|
    ensures Onboard(ts[i := t]) == Onboard(ts) - ts[i].passengers + t.passengers
  {
    assert Loads(ts[i := t]) == Loads(ts)[i := t.passengers];
    SumNatSet(Loads(ts), i, t.passengers);
  }

  /** Arrivals raise the waiting total by their sum. */
  lemma WaitingArrive(ss: seq<Station>, counts: seq<nat>)
    requires |counts| == |ss|
    ensures Waiting(Arrive(ss, counts)) == Waiting(ss) + SumNat(counts)
  {
    SumNatAdd(WaitingCounts(ss), counts, WaitingCounts(Arrive(ss, counts)));
  }

  /** One train's update keeps the balance. */
  lemma StepTrainConserves(w: World, i: nat, cfg: Config, coin: real, move: Point)
    requires WorldValid(w) && i < |w.trains|
    ensures Balance(StepTrain(w, i, cfg, coin, move)) == Balance(w)
  {
    var r := StepTrain(w, i, cfg, coin, move);
    var t := w.trains[i];
    if t.atStation && t.stationTime == 0 {
      var k := Here(w.stations, t);
      WaitingSet(w.stations, k, r.stations[k]);
      assert r.stations == w.stations[k := r.stations[k]];
    } else {
      assert r.stations == w.stations;
    }
    assert r.trains == w.trains[i := r.trains[i]];
    OnboardSet(w.trains, i, r.trains[i]);
  }

  lemma {:induction false} StepTrainsConserve(w: World, cfg: Config, coins: seq<real>, moves: seq<Point>, i: nat)
    requires WorldValid(w) && |coins| == |w.trains| && |moves| == |w.trains| && i <= |w.trains|
    ensures Balance(StepTrainsFrom(w, cfg, coins, moves, i)) == Balance(w)
    decreases |w.trains| - i
  {
    if i < |w.trains| {
      StepTrainConserves(w, i, cfg, coins[i], moves[i]);
      StepTrainsConserve(StepTrain(w, i, cfg, coins[i], moves[i]), cfg, coins, moves, i + 1);
    }
  }

  /** A whole tick keeps the balance. */
  lemma TickConserves(w: World, cfg: Config, inp: TickInput)
    requires WorldValid(w) && Fits(inp, |w.stations|, |w.trains|)
    ensures Balance(Tick(w, cfg, inp)) == Balance(w)
  {
    var w1 := GenerateDemand(w, cfg, inp.draws);
    WaitingArrive(w.stations, ArrivalCounts(w.stations, cfg, inp.draws));
    StepTrainsConserve(w1, cfg, inp.coins, inp.moves, 0);
  }

  /** Passengers are neither created nor lost except by demand, over any run. */
  lemma {:induction false} RunConserves(w: World, cfg: Config, inputs: seq<TickInput>)
    requires WorldValid(w) && forall k :: 0 <= k < |inputs| ==> Fits(inputs[k], |w.stations|, |w.trains|)
    ensures Balance(Run(w, cfg, inputs)) == Balance(w)
    decreases |inputs|
  {
    if |inputs| > 0 {
      TickConserves(w, cfg, inputs[0]);
      RunConserves(Tick(w, cfg, inputs[0]), cfg, inputs[1..]);
    }
  }

  // ------------------------------------------------------------------ runs

  /** With dynamic routing off for a whole run from start-up, the accrued savings stay exactly 0. */
  lemma NoSavingsWithoutDynamicRouting(cfg: Config, inputs: seq<TickInput>)
    requires !cfg.dynamicRouting
    requires forall k :: 0 <= k < |inputs| ==> Fits(inputs[k], |InitialWorld().stations|, |InitialWorld().trains|)
    ensures Run(InitialWorld(), cfg, inputs).stats.costSavings == 0.0
  {
  }

  /**
   * Every train of a run from start-up keeps speed 2, capacity 300, a dwell
   * of 15 ticks and its line's route.
   */
  lemma FleetFromStart(cfg: Config, inputs: seq<TickInput>)
    requires forall k :: 0 <= k < |inputs| ==> Fits(inputs[k], |InitialWorld().stations|, |InitialWorld().trains|)
    ensures var r := Run(InitialWorld(), cfg, inputs);
      && |r.trains| == 5
      && forall i :: 0 <= i < |r.trains| ==>
        r.trains[i].speed == 2 && r.trains[i].capacity == 300 && r.trains[i].maxStationTime == 15
        && r.trains[i].route == Route(r.trains[i].line)
  {
    var w := InitialWorld();
    var r := Run(w, cfg, inputs);
    forall i | 0 <= i < |r.trains|
      ensures r.trains[i].speed == 2 && r.trains[i].capacity == 300 && r.trains[i].maxStationTime == 15
      ensures r.trains[i].route == Route(r.trains[i].line)
    {
      assert SameService(w.trains[i], r.trains[i]);
    }
  }

  /** Over any run, generated, delivered and accrued savings only grow. */
  lemma CountersNeverDecrease(w: World, cfg: Config, inputs: seq<TickInput>)
    requires WorldValid(w) && forall k :: 0 <= k < |inputs| ==> Fits(inputs[k], |w.stations|, |w.trains|)
    ensures var r := Run(w, cfg, inputs);
      && w.stats.totalPassengers <= r.stats.totalPassengers
      && w.stats.passengersDelivered <= r.stats.passengersDelivered
      && w.stats.costSavings <= r.stats.costSavings
  {
  }
}
