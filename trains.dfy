/** Trains: the record the simulator keeps per train, its construction and its invariant. */
module Trains {
  import opened Wrappers
  import opened Network
  import opened Routing

  /**
   * A train. `nextStation` is None while the train stands at a station;
   * `stationTime` counts the ticks spent there.
   */
  datatype Train = Train(
    line: Line,
    x: real,
    y: real,
    currentStation: string,
    nextStation: Option<string>,
    direction: Direction,
    speed: nat,
    capacity: nat,
    passengers: nat,
    route: seq<string>,
    atStation: bool,
    stationTime: nat,
    maxStationTime: nat)

  /**
   * The static part of a train's invariant: loads within capacity, a route of
   * at least two known stations, and a known current station.
   */
  predicate WellFormed(t: Train, ss: seq<Station>)
  {
    && t.passengers <= t.capacity
    && t.capacity > 0
    && t.speed > 0
    && t.maxStationTime > 0
    && |t.route| >= 2
    && (forall k :: 0 <= k < |t.route| ==> Has(ss, t.route[k]))
    && Has(ss, t.currentStation)
  }

  /**
   * What every train satisfies between ticks: a standing train has no next
   * station and has not yet dwelt its full time; a moving train heads for a
   * known station and its dwell counter is back at 0.
   */
  predicate TrainValid(t: Train, ss: seq<Station>)
  {
    && WellFormed(t, ss)
    && (t.atStation ==> t.nextStation.None? && t.stationTime < t.maxStationTime)
    && (!t.atStation ==> t.nextStation.Some? && Has(ss, t.nextStation.value) && t.stationTime == 0)
  }

  /** What a tick never changes about a train: its line, route, speed, capacity and dwell time. */
  predicate SameService(a: Train, b: Train)
  {
    a.line == b.line && a.route == b.route && a.speed == b.speed && a.capacity == b.capacity
    && a.maxStationTime == b.maxStationTime
  }

  /** Validity depends on the stations' ids only. */
  lemma TrainValidSameLayout(t: Train, a: seq<Station>, b: seq<Station>)
    requires SameLayout(a, b)
    ensures TrainValid(t, a) <==> TrainValid(t, b)
  {
    forall id | true ensures Has(a, id) <==> Has(b, id) {
      FindSameLayout(a, b, id);
    }
  }

  /**
   * `createTrain`: an empty train standing at `start`, heading forward on its
   * line's route, speed 2, capacity 300, dwelling 15 ticks per stop.
   */
  function CreateTrain(line: Line, start: string): (t: Train)
    requires Has(Table, start)
    ensures TrainValid(t, Table)
    ensures t.line == line && t.route == Route(line) && t.currentStation == start
    ensures t.atStation && t.stationTime == 0 && t.passengers == 0 && t.direction == Forward
    ensures t.speed == 2 && t.capacity == 300 && t.maxStationTime == 15
    ensures exists j :: 0 <= j < |Table| && Table[j].id == start && t.x == Table[j].x as real && t.y == Table[j].y as real
  {
    RoutesWellFormed(line);
    var s := Table[Find(Table, start).value];
    Train(line, s.x as real, s.y as real, start, None, Forward, 2, 300, 0, Route(line), true, 0, 15)
  }

  /** The seeded share of capacity on board: red 0.6, blue 0.4, others 0.5. */
  function TrainLoadFactor(line: Line): (f: real)
    ensures 0.4 <= f <= 0.6
    ensures f == 0.6 <==> line == Red
    ensures f == 0.4 <==> line == Blue
  {
    if line == Red then 0.6 else if line == Blue then 0.4 else 0.5
  }

  /** A train loaded to its line's share of capacity. */
  function Loaded(t: Train): (r: Train)
    requires TrainValid(t, Table)
    ensures TrainValid(r, Table)
    ensures r == t.(passengers := r.passengers)
    ensures r.passengers == SeedLoad(t.capacity, TrainLoadFactor(t.line))
  {
    t.(passengers := SeedLoad(t.capacity, TrainLoadFactor(t.line)))
  }

  /** The line and start station of each train created at start-up. */
  const Starts: seq<(Line, string)> :=
    [(Red, "newark"), (Red, "wtc"), (Blue, "harrison"), (Yellow, "33st"), (Yellow, "journal")]

  /** The stations the trains start from are in the table. */
  lemma StartsKnown()
    ensures forall i :: 0 <= i < |Starts| ==> Has(Table, Starts[i].1)
  {
    assert Table[4].id == "newark" && Table[0].id == "wtc" && Table[5].id == "harrison";
    assert Table[12].id == "33st" && Table[3].id == "journal";
  }

  /** The five trains at start-up: two red, one blue, two yellow, each loaded to its line's share. */
  function SeededTrains(): (ts: seq<Train>)
    ensures |ts| == |Starts| == 5
    ensures forall i :: 0 <= i < |ts| ==> TrainValid(ts[i], Table)
    ensures forall i :: 0 <= i < |ts| ==> ts[i].line == Starts[i].0 && ts[i].currentStation == Starts[i].1
    ensures forall i :: 0 <= i < |ts| ==> ts[i].passengers == SeedLoad(ts[i].capacity, TrainLoadFactor(ts[i].line))
    ensures forall i :: 0 <= i < |ts| ==> ts[i].route == Route(ts[i].line) && ts[i].atStation && ts[i].stationTime == 0
    ensures forall i :: 0 <= i < |ts| ==> ts[i].speed == 2 && ts[i].capacity == 300 && ts[i].maxStationTime == 15
  {
    StartsKnown();
    seq(|Starts|, i requires 0 <= i < |Starts| => Loaded(CreateTrain(Starts[i].0, Starts[i].1)))
  }
}
