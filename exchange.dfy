/** The passenger exchange that a train performs on its arrival tick. */
module Exchange {
  /** The outcome of one exchange. */
  datatype Outcome = Outcome(alighting: nat, boarding: nat, onboard: nat, waiting: nat)

  /** `floor(0.3 * onboard)`: the passengers who get off. */
  function Alighting(onboard: nat): (a: nat)
    ensures 10 * a <= 3 * onboard < 10 * a + 10
    ensures a <= onboard
  {
    3 * onboard / 10
  }

  /** The passengers who board: all who wait, or as many as fit after the alighting. */
  function Boarding(waiting: nat, capacity: nat, onboard: nat): (b: nat)
    requires onboard <= capacity
    ensures b <= waiting
    ensures onboard - Alighting(onboard) + b <= capacity
    ensures b == waiting || onboard - Alighting(onboard) + b == capacity
  {
    var room := capacity - (onboard - Alighting(onboard));
    if waiting < room then waiting else room
  }

  /** The exchange between a train carrying `onboard` and a station where `waiting` wait. */
  function PassengerExchange(waiting: nat, capacity: nat, onboard: nat): (e: Outcome)
    requires onboard <= capacity
    ensures e.onboard <= capacity
    ensures e.boarding <= waiting && e.waiting == waiting - e.boarding
    ensures e.onboard + e.alighting == onboard + e.boarding
    ensures e.alighting == Alighting(onboard) && e.boarding == Boarding(waiting, capacity, onboard)
  {
    var a := Alighting(onboard);
    var b := Boarding(waiting, capacity, onboard);
    Outcome(a, b, onboard - a + b, waiting - b)
  }

  /** Nobody boards only when nobody waits or the train is full after the alighting. */
  lemma NoBoardingMeansEmptyOrFull(waiting: nat, capacity: nat, onboard: nat)
    requires onboard <= capacity
    ensures Boarding(waiting, capacity, onboard) == 0 <==> waiting == 0 || onboard - Alighting(onboard) == capacity
  {
  }

  /** Station waiting 100, train 210 of 300: 63 alight, 100 board, 247 on board, 0 left waiting. */
  lemma ArrivingTrainScenario()
    ensures PassengerExchange(100, 300, 210) == Outcome(63, 100, 247, 0)
  {
  }
}
