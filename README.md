# NYC PATH subway simulator: the tick engine

This project models the engine of the `SubwaySimulator` component, which simulates the PATH subway network in the browser. The model covers:

- the station table and the three routes (red, blue and yellow);
- the per-minute passenger rates, scaled by rush hour and congestion level;
- train creation and the seeding at start-up: five trains loaded by line, stations loaded by popularity, and counters started at 2000 generated and 500 delivered;
- the one-second tick, which runs in three steps:
  1. **Demand.** Every station gains new waiting passengers, which are also added to the generated total.
  2. **Trains**, one after another in list order:
     - On its arrival tick a standing train lets 30% off and boards as many as wait or fit. Alighting passengers count as delivered, and with dynamic routing they accrue 12% of the $2.35 cost each.
     - A standing train counts its dwell time. At 15 ticks it departs, either on a detour to the most crowded nearby station (dynamic routing, and half the time) or to the next stop of a ping-pong walk along its route.
     - A moving train snaps onto its target once within one step of it, or otherwise moves on.
  3. **Metrics.** The system congestion (0.7 × mean station occupancy + 0.3 × mean train occupancy), its score, and the projected daily savings, which are the base daily operating cost times max(0, bonus − 0.3 × congestion).

## Layout

- `network.dfy`: stations, the table, routes, lookup by id and the seeded stations.
- `demand.dfy`: the rates and the per-tick arrival draw.
- `exchange.dfy`: the arithmetic of one passenger exchange.
- `routing.dfy`: `indexOf`, fixed ping-pong routing, and the dynamic detour search (filter, then a stable sort by descending occupancy, then the first element).
- `trains.dfy`: the train record, `createTrain`, the train invariant and the seeded trains.
- `metrics.dfy`: occupancy means, congestion, efficiency gain and savings.
- `engine.dfy`: the world state and the tick as pure functions: demand, each train step, the metrics, a tick and a run of ticks.
- `simulation.dfy`: the simulator as a class whose fields (stations, trains, statistics, congestion) are updated in place. Each method is proved to leave the state that the matching `Engine` function computes.
- `properties.dfy`: properties of ticks and runs.
- `findings.dfy`: the two discrepancies listed under Findings.

## Semantics chosen for one tick

The component schedules React state updates that run later. Some of them read lists captured when the run started, not the current state. The model threads one consistent state through the tick instead:

1. demand;
2. then each train in list order. Exchange, detour search and movement all see the stations as demand and the earlier trains left them;
3. then the metrics, computed from the state after the trains.

Randomness is an input: one draw in [0, 1) per station, and one coin per train. The coin is read only when a detour candidate exists, as the `&&` in the source short-circuits. The interpolated position of a train that moves on without arriving is an input too (`TickInput.moves`).

## Model

| member | source | states |
|---|---|---|
| Network.Route | pages/simulator.jsx:88-90 | each route has at least two stops, never the same stop twice in a row, passes Journal Square, and red and blue share the trunk Journal Square–Grove St–Exchange Place–World Trade Center |
| Network.Find | pages/simulator.jsx:186 | `find` by id: on success the index matches and no earlier entry does; it fails exactly when no station has the id |
| Network.TableWellFormed | pages/simulator.jsx:6-20 | 13 stations, positive capacities, nobody waiting, ids pairwise distinct |
| Network.RoutesWellFormed | pages/simulator.jsx:88-90 | every route has at least two stops, each a station of the table |
| Network.FindSameLayout | pages/simulator.jsx:285-286 | lookups in the declared table and in the live list agree, since the two differ only in waiting counts |
| Network.SeedLoad | pages/simulator.jsx:113 | `floor(capacity * factor)`: the greatest integer not above the product, never above capacity |
| Network.StationLoadFactor | pages/simulator.jsx:122-134 | a factor between 0.25 and 0.4; 0.4 exactly for wtc and newark; above 0.25 exactly for the four hubs |
| Network.SeededStations | pages/simulator.jsx:119-141 | same stations as the table, each waiting count the floor of capacity × 0.4 (wtc, newark), 0.35 (journal, hoboken) or 0.25 |
| Demand.RushMultiplier | pages/simulator.jsx:70 | between 1 and 2.5, and above 1 exactly in rush hour |
| Demand.LevelMultiplier | pages/simulator.jsx:71-72 | between 0.7 and 1.5, below 1 exactly at low and above 1 exactly at high |
| Demand.PassengerRate | pages/simulator.jsx:62-73 | rate between 0.7× and 3.75× the base; at least the base exactly when rush hour or the level is not low; exactly the base at medium outside rush hour |
| Demand.RateMonotone | pages/simulator.jsx:70-72 | turning rush hour on or raising the level never lowers a rate |
| Demand.Arrivals | pages/simulator.jsx:163 | `floor(draw * rate / 60)` for a draw in [0, 1): within one of the product, and strictly below rate / 60 for a positive rate |
| Exchange.Alighting | pages/simulator.jsx:187 | `floor(0.3 * onboard)` characterised by 10a ≤ 3n < 10a + 10 |
| Exchange.Boarding | pages/simulator.jsx:189-192 | boarders never exceed those waiting or the room left; either all waiting board or the train leaves full |
| Exchange.PassengerExchange | pages/simulator.jsx:187-227 | the load stays within capacity, the station loses exactly the boarders, and on board + alighted = before + boarded |
| Exchange.NoBoardingMeansEmptyOrFull | pages/simulator.jsx:189-192 | nobody boards exactly when nobody waits or the train is full after alighting |
| Exchange.ArrivingTrainScenario | pages/simulator.jsx:187-227 | 100 waiting, 210 of 300 on board: 63 alight, 100 board, 247 on board, none left |
| Routing.IndexOf | pages/simulator.jsx:237 | `indexOf`: the first position of the id, or -1 exactly when it is absent |
| Routing.FixedNext | pages/simulator.jsx:262-277 | the next index is on the route; the direction flips exactly at the ends, reflecting to len - 2 or 1; otherwise one step in the current direction |
| Routing.FixedNextIsNeighbour | pages/simulator.jsx:262-275 | from a stop on the route the next stop is adjacent |
| Routing.Bounce | pages/simulator.jsx:262-279 | fixed routing iterated stays on the route |
| Routing.BounceForward | pages/simulator.jsx:263-264 | walking forward short of the end advances one stop per departure |
| Routing.BounceBackward | pages/simulator.jsx:270-271 | walking backward short of the start goes back one stop per departure |
| Routing.BounceAdd | pages/simulator.jsx:262-279 | n + m departures are n departures followed by m |
| Routing.RoundTrip | pages/simulator.jsx:262-277 | from the first stop forward: at the last stop after len - 1 departures, back at the first after 2(len - 1), leaving as it first did |
| Routing.Nearby | pages/simulator.jsx:243-246 | strictly within 100 of the current station on both axes, and not the current station itself |
| Routing.Crowded | pages/simulator.jsx:250 | more waiting than 0.7 × capacity |
| Routing.Candidates | pages/simulator.jsx:243-250 | the positions of exactly the nearby crowded stations, strictly increasing, so in table order as `filter` keeps them |
| Routing.Pick | pages/simulator.jsx:243-250 | the stations at the candidate positions, in order |
| Routing.BusiestIndex | pages/simulator.jsx:251 | stable sort by descending ratio, then `[0]`: a maximal ratio, strictly above every earlier candidate |
| Routing.BusiestCandidate | pages/simulator.jsx:249-251 | the first candidate of maximal ratio is a most crowded nearby station of the whole list, with every earlier nearby crowded station strictly less full |
| Routing.DynamicTarget | pages/simulator.jsx:243-251 | none exactly when no nearby station is crowded; otherwise a nearby crowded station, not the current one, whose ratio no nearby crowded station exceeds, and the first such in table order on a tie |
| Trains.CreateTrain | pages/simulator.jsx:76-95 | an empty train standing at its start station, at its table position, route by line, heading forward, dwell counter 0, speed 2, capacity 300, dwell time 15 |
| Trains.TrainLoadFactor | pages/simulator.jsx:111-112 | a factor between 0.4 and 0.6; 0.6 exactly for red and 0.4 exactly for blue |
| Trains.Loaded | pages/simulator.jsx:109-114 | only the load changes, to the floor of capacity × 0.6 (red), 0.4 (blue) or 0.5 |
| Trains.StartsKnown | pages/simulator.jsx:100-106 | the five start stations are in the table |
| Trains.SeededTrains | pages/simulator.jsx:100-114 | five valid trains with their lines and start stations, standing with the counter at 0, on their line's route, speed 2, capacity 300, dwell 15, each loaded to its line's share |
| Trains.TrainValidSameLayout | pages/simulator.jsx:285-286 | the train invariant depends on station ids only |
| Metrics.SumAtLeast | pages/simulator.jsx:317-323 | a sum of n terms each at least lo is at least n × lo |
| Metrics.SumAtMost | pages/simulator.jsx:317-323 | a sum of n terms each at most hi is at most n × hi |
| Metrics.MeanAtLeast | pages/simulator.jsx:317-323 | the mean of terms at least lo is at least lo |
| Metrics.MeanAtMost | pages/simulator.jsx:317-323 | the mean of terms at most hi is at most hi |
| Metrics.Fraction | pages/simulator.jsx:318 | an occupancy ratio is non-negative, and at most 1 when within capacity |
| Metrics.StationRatios | pages/simulator.jsx:317-319 | one non-negative ratio per station, at most 1 when none is over capacity |
| Metrics.TrainRatios | pages/simulator.jsx:321-323 | one non-negative ratio per train, at most 1 when none is over capacity |
| Metrics.SystemCongestion | pages/simulator.jsx:317-326 | non-negative, and at most 1 when every station and train is within capacity |
| Metrics.RoutingBonus | pages/simulator.jsx:335 | between 0 and 12%, and positive exactly with dynamic routing |
| Metrics.NetEfficiencyGain | pages/simulator.jsx:335-343 | max(0, bonus − 0.3c): never negative; zero without dynamic routing or from c = 0.4 on; positive with dynamic routing below 0.4 |
| Metrics.GainStrictlyDecreasing | pages/simulator.jsx:340-343 | with dynamic routing, more congestion strictly lowers the gain below 0.4 |
| Metrics.NoGainWithoutDynamicRouting | pages/simulator.jsx:335-343 | without dynamic routing the gain is 0 at any non-negative congestion |
| Metrics.DailySavings | pages/simulator.jsx:328-346 | base cost × gain: non-negative for a non-negative gain, at most $1,551,000 for a gain up to 12%, zero without gain |
| Metrics.CongestionScore | pages/simulator.jsx:354 | the percentage: between 0 and 100 for a congestion in [0, 1], and at least 70 exactly when the congestion is at least 0.7 |
| Metrics.ProjectedSavingsBounds | pages/simulator.jsx:328-346 | the projected daily savings lie in [0, $1,551,000], and are 0 without dynamic routing or from congestion 0.4 on |
| Engine.LayoutKeepsValid | pages/simulator.jsx:161-169 | changing only waiting counts keeps the state invariant |
| Engine.TableRatesKnown | pages/simulator.jsx:63-67 | every station of the table has a base rate |
| Engine.StationArrivals | pages/simulator.jsx:163 | the floor of draw × rate / 60 for the station's rate under the controls, never above 3.75 × base / 60 |
| Engine.ArrivalCounts | pages/simulator.jsx:160-165 | one count per station, zero or strictly below its rate / 60 |
| Engine.Arrive | pages/simulator.jsx:161-169 | only waiting counts change, each by its station's arrivals |
| Engine.GenerateDemand | pages/simulator.jsx:159-176 | trains unchanged, each station gains its arrivals, the generated total grows by their sum, the invariant holds |
| Engine.SavingsPerPassenger | pages/simulator.jsx:212-213 | the routing bonus of the $2.35 cost, positive exactly with dynamic routing |
| Engine.Here | pages/simulator.jsx:186 | the index of the station a train stands at |
| Engine.ExchangeStep | pages/simulator.jsx:184-228 | only train i's load, its station's waiting count and the delivered and savings counters change, by the amounts of one exchange |
| Engine.Depart | pages/simulator.jsx:231-279 | the train leaves with its dwell counter reset: to the dynamic target when routing is dynamic, a target exists and the coin exceeds 0.5, otherwise to the fixed next stop with the fixed direction |
| Engine.AtStationStep | pages/simulator.jsx:182-282 | other trains and station layout unchanged; every train keeps its line, route, speed, capacity and dwell time; counters only grow; savings only with dynamic routing |
| Engine.TransitStep | pages/simulator.jsx:283-311 | stations and statistics unchanged; only train i moves, keeping its line, route, speed, capacity and dwell time; the invariant holds |
| Engine.StepTrain | pages/simulator.jsx:180-312 | one train's update keeps the invariant, the other trains and every train's line, route, speed, capacity and dwell time, and the counters only grow |
| Engine.StepTrainsFrom | pages/simulator.jsx:179-313 | the trains updated in list order keep the invariant, the layout and each train's line, route, speed, capacity and dwell time, and the counters only grow |
| Engine.UpdateMetrics | pages/simulator.jsx:315-357 | only congestion, score and daily savings change: the congestion is the 0.7/0.3 blend of the state, the score is 100 × it, and the daily savings are the base cost × its net gain; congestion at most 1 and score at most 100 when nothing is over capacity; savings in [0, $1,551,000], and 0 without dynamic routing or from congestion 0.4 on |
| Engine.Tick | pages/simulator.jsx:155-357 | one tick keeps the invariant, the station layout and each train's line, route, speed, capacity and dwell time; counters only grow; savings unchanged without dynamic routing |
| Engine.Run | pages/simulator.jsx:155-361 | any number of ticks keeps the invariant, the layout and each train's line, route, speed, capacity and dwell time, and the counters only grow |
| Engine.InitialWorld | pages/simulator.jsx:98-149 | the start-up state is valid and is exactly the seeded stations and the seeded trains, with 2000 generated, 500 delivered, congestion 0 and no station over capacity |
| Properties.DwellCycle | pages/simulator.jsx:230-281 | a standing train's counter rises by one per tick; at its dwell time (15 for every train of a run from start-up, by Properties.FleetFromStart) it departs for a known station with the counter reset |
| Properties.ExchangeOnlyOnArrivalTick | pages/simulator.jsx:184-185 | except on the arrival tick, stations, statistics and the train's load stay put |
| Properties.ArrivalTickExchange | pages/simulator.jsx:184-228 | on the arrival tick exactly the alighting count is delivered, the savings accrue only with dynamic routing, and exactly the boarders leave the station |
| Properties.ArrivalSnapsToStation | pages/simulator.jsx:293-309 | within one step the train stands on its target with the counter at 0; otherwise only its position changes |
| Properties.TieGoesToTableOrder | pages/simulator.jsx:249-251 | with 9 St and 14 St both 75% full near Christopher St, the detour goes to 9 St, the first in table order |
| Properties.WaitingSet | pages/simulator.jsx:195-205 | replacing one station changes the total waiting by the difference |
| Properties.OnboardSet | pages/simulator.jsx:223-226 | replacing one train changes the total on board by the difference |
| Properties.SumNatSet | pages/simulator.jsx:195-205 | replacing one count changes a sum by the difference |
| Properties.SumNatAdd | pages/simulator.jsx:159-169 | the sum of pointwise sums is the sum of the sums |
| Properties.WaitingArrive | pages/simulator.jsx:159-169 | demand raises the total waiting by the sum of arrivals |
| Properties.StepTrainConserves | pages/simulator.jsx:184-228 | one train's update keeps waiting + on board + delivered − generated |
| Properties.StepTrainsConserve | pages/simulator.jsx:179-313 | so does updating every train |
| Properties.TickConserves | pages/simulator.jsx:155-313 | so does a whole tick: passengers appear only through demand and leave only as delivered |
| Properties.RunConserves | pages/simulator.jsx:155-361 | and any run of ticks |
| Properties.NoSavingsWithoutDynamicRouting | pages/simulator.jsx:209-224 | from start-up, a run without dynamic routing accrues exactly $0 |
| Properties.FleetFromStart | pages/simulator.jsx:85-93 | every train of a run from start-up keeps speed 2, capacity 300, dwell 15 and its line's route |
| Properties.CountersNeverDecrease | pages/simulator.jsx:172-175 | generated, delivered and accrued savings never decrease over a run |
| Simulation.LoadTrains | pages/simulator.jsx:109-114 | every train loaded to its line's share, nothing else changed |
| Simulation.InitialStations | pages/simulator.jsx:119-141 | the loop over the table yields the seeded stations |
| Simulation.Simulator.constructor | pages/simulator.jsx:98-149 | the object starts in the start-up state |
| Simulation.Simulator.GenerateDemand | pages/simulator.jsx:159-176 | the loop that accumulates the arrivals leaves the demand step's state |
| Simulation.Simulator.ExchangePassengers | pages/simulator.jsx:184-228 | the fields end as one exchange leaves them |
| Simulation.Simulator.NextStop | pages/simulator.jsx:231-279 | returns the departure the routing rules choose |
| Simulation.Simulator.Dwell | pages/simulator.jsx:182-282 | the fields end as a standing train's tick leaves them |
| Simulation.Simulator.Move | pages/simulator.jsx:283-311 | the fields end as a moving train's tick leaves them |
| Simulation.Simulator.UpdateTrain | pages/simulator.jsx:180-312 | the fields end as one train's update leaves them |
| Simulation.Simulator.UpdateTrains | pages/simulator.jsx:179-313 | the loop over the trains leaves the state of every train updated in order |
| Simulation.Simulator.RefreshMetrics | pages/simulator.jsx:315-357 | the fields end with the recomputed metrics |
| Simulation.Simulator.Tick | pages/simulator.jsx:155-357 | the fields end as one tick leaves them |
| Findings.AsWrittenNeverDetours | pages/simulator.jsx:241-251 | searched over the declared table, the detour search finds nothing from anywhere |
| Findings.AsWrittenDepartFollowsRoute | pages/simulator.jsx:241-279 | so as written every departure follows the route |
| Findings.GroveIsTheDetour | pages/simulator.jsx:243-251 | against live counts, with Grove St at 300 of 400, the search from Exchange Place finds Grove St |
| Findings.LiveCrowdingDetours | pages/simulator.jsx:241-279 | a red train leaving Exchange Place forward detours to Grove St against live counts, but goes to wtc against the table |
| Findings.WaitingAfterBoardingAsWritten | pages/simulator.jsx:186-205 | with boarders taken from a stale count, the result is negative exactly when the live count is below those boarders; it agrees with the model when the counts coincide |
| Findings.StaleBoardingGoesNegative | pages/simulator.jsx:186-205 | snapshot 210, live 20, 180 of 300 on board: -154 left waiting |
| Findings.LiveBoardingStaysNonNegative | pages/simulator.jsx:186-205 | the model's exchange takes from the live count at most what waits |

## Left out

- Timing: the one-second interval, `time` and `simulationSpeed` are not modelled. A tick is one step, and the clock has no effect on the state modelled here.
- Randomness: `Math.random()` is replaced by the inputs of each tick. The demand draws are assumed to lie in [0, 1).
- Train ids are random strings that only the rendering reads (as list keys), so they are left out; trains are identified by their position in the list.
- The `lines` segments are left out because they only feed the map drawing.
- `avgWaitTime` is left out because nothing ever updates it.
- The rendering, the controls and the display-only figures are left out: the delivery percentage, the ×365 annual projection, the rounding and the colour thresholds.
- React's deferred updaters and stale closures are replaced by one consistent state threaded through the tick. The stale reads in the source are:
  - the two under Findings;
  - the metrics, which the source computes from the station and train lists captured when the run started, so its congestion stays frozen during a run.
- Engine.UpdateMetrics computes the congestion from the state after the trains have moved. The source's stale metrics are not modelled.
- Arithmetic is exact rational, not IEEE double. The results differ in a few places:
  - Hoboken seeds 245 waiting, where the floating-point product 700 × 0.35 gives 244.
  - The crowded test `passengers > capacity × 0.7` is written as 10 × passengers > 7 × capacity. It differs from the floating-point test at exactly 490 of 700 and 245 of 350 waiting.
- Engine.TransitStep: the position of a train that moves on without arriving is taken from the input, not computed as position + speed × (dx, dy) / distance. Square roots are not modelled. The arrival test compares dx² + dy² with speed², which is the same test for a non-negative speed.
- Simulation.Simulator.Move: the same interpolation input as Engine.TransitStep.
- Metrics.SystemCongestion: with no stations or no trains it is 0, where the source divides 0 by 0 and yields NaN.
- A detour can leave a train at a station off its route. From there `indexOf` gives -1 and fixed routing sends it to the route's first stop (forward) or second stop (backward). The model keeps this behaviour, so the invariant only promises that a train's current station is a known station, not one on its route.

## Findings

| source | as written | input that shows it | evidently intended | confidence | as-written member | corrected member |
|---|---|---|---|---|---|---|
| pages/simulator.jsx:241-251 | the detour search filters the declared `stations` table, whose waiting counts are always 0, so no station passes the > 70% filter and dynamic routing never detours | dynamic routing on, Grove St at 300 of 400 waiting, a red train leaving Exchange Place forward: it goes to wtc | search the live `activeStations` counts, so the train detours to Grove St | high (not executed) | Findings.AsWrittenDepartFollowsRoute | Engine.Depart |
| pages/simulator.jsx:186-205 | boarders are computed from the `activeStations` captured when the run started, then subtracted from the live count, which can go negative | snapshot 210 at Journal Square, live 20, a train with 180 of 300 on board: 174 board, -154 left waiting | compute the boarders from the live count, so the station never drops below 0 | medium (not executed) | Findings.StaleBoardingGoesNegative | Engine.ExchangeStep |
