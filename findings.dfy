/**
 * Two places where the simulator reads a stale copy of the stations, each
 * as written next to the behaviour the rest of the model uses.
 */
module Findings {
  import opened Wrappers
  import opened Network
  import opened Demand
  import opened Exchange
  import opened Routing
  import opened Trains
  import opened Engine

  // ---------------------------------------------- detours read the table

  /**
   * As written, the detour search filters the declared station table, where
   * every waiting count is 0, so no station is ever crowded and no detour is
   * ever found, wherever the train stands.
   */
  lemma AsWrittenNeverDetours(current: string, cx: int, cy: int)
    ensures DynamicTarget(Table, current, cx, cy) == None
  {
    TableWellFormed();
    assert forall j :: 0 <= j < |Table| ==> !Crowded(Table[j]);
  }

  /**
   * Consequently a departure planned against the table always follows the
   * route, whatever the coin and even with dynamic routing on.
   */
  lemma AsWrittenDepartFollowsRoute(t: Train, cfg: Config, coin: real)
    requires WellFormed(t, Table)
    ensures var fixed := FixedNext(|t.route|, IndexOf(t.route, t.currentStation), t.direction);
      Depart(t, Table, cfg, coin).nextStation == Some(t.route[fixed.0])
  {
    TableWellFormed();
    var here := Table[Here(Table, t)];
    AsWrittenNeverDetours(t.currentStation, here.x, here.y);
  }

  /**
   * With 300 of Grove St's 400 places taken and nobody waiting anywhere
   * else, the detour search from Exchange Place finds Grove St, 60 units
   * west and 20 south.
   */
  lemma GroveIsTheDetour(ss: seq<Station>)
    requires SameLayout(Table, ss)
    requires ss[2].passengers == 300 && forall j :: 0 <= j < |ss| && j != 2 ==> ss[j].passengers == 0
    ensures forall j :: 0 <= j < |ss| ==> ss[j].capacity > 0
    ensures DynamicTarget(ss, "exchange", 280, 210) == Some("grove")
  {
    TableWellFormed();
    var target := DynamicTarget(ss, "exchange", 280, 210);
    assert Nearby(ss[2], "exchange", 280, 210) && Crowded(ss[2]);
    var m :| 0 <= m < |ss| && ss[m].id == target.value && MostCrowdedNearby(ss, m, "exchange", 280, 210);
    assert m == 2;
  }

  /**
   * Against those live counts a red train leaving Exchange Place forward
   * detours to Grove St when the coin exceeds 0.5, where the route alone,
   * and so the search over the table, sends it on to the World Trade Center.
   */
  lemma LiveCrowdingDetours(ss: seq<Station>, t: Train, cfg: Config, coin: real)
    requires SameLayout(Table, ss)
    requires ss[2].passengers == 300 && forall j :: 0 <= j < |ss| && j != 2 ==> ss[j].passengers == 0
    requires WellFormed(t, Table) && WellFormed(t, ss)
    requires t.route == Route(Red) && t.currentStation == "exchange" && t.direction == Forward
    requires cfg.dynamicRouting && coin > 0.5
    ensures forall j :: 0 <= j < |ss| ==> ss[j].capacity > 0
    ensures Depart(t, ss, cfg, coin).nextStation == Some("grove")
    ensures Depart(t, Table, cfg, coin).nextStation == Some("wtc")
  {
    GroveIsTheDetour(ss);
    TableWellFormed();
    assert Here(ss, t) == 1 by {
      assert ss[1].id == "exchange";
    }
    assert IndexOf(Route(Red), "exchange") == 3;
    AsWrittenDepartFollowsRoute(t, cfg, coin);
  }

  // --------------------------------------- boarding reads a stale count

  /**
   * As written, the boarders are computed from the waiting count captured
   * when the run started, and then subtracted from the live count, which may
   * meanwhile be smaller: the result can be negative. With no gap between
   * the two counts it agrees with the exchange of the model.
   */
  function WaitingAfterBoardingAsWritten(snapshot: nat, live: nat, capacity: nat, onboard: nat): (waiting: int)
    requires onboard <= capacity
    ensures snapshot == live ==> waiting == PassengerExchange(live, capacity, onboard).waiting
    ensures waiting < 0 <==> live < Boarding(snapshot, capacity, onboard)
  {
    live - Boarding(snapshot, capacity, onboard)
  }

  /**
   * Journal Square seeded with 210 waiting, drained to 20 by the trains
   * since; a train with 180 on board arrives: 54 alight, 174 board by the
   * stale count, leaving -154 waiting.
   */
  lemma StaleBoardingGoesNegative()
    ensures WaitingAfterBoardingAsWritten(210, 20, 300, 180) == -154
  {
    assert Alighting(180) == 54;
  }

  /**
   * The exchange the model uses computes the boarders from the live count,
   * so the station never drops below 0 and takes from it exactly those who
   * boarded.
   */
  lemma LiveBoardingStaysNonNegative(w: World, i: nat, cfg: Config)
    requires WorldValid(w) && i < |w.trains|
    ensures var k := Here(w.stations, w.trains[i]);
      var b := Boarding(w.stations[k].passengers, w.trains[i].capacity, w.trains[i].passengers);
      && b <= w.stations[k].passengers
      && ExchangeStep(w, i, cfg).stations[k].passengers == w.stations[k].passengers - b
  {
  }
}
