/**
 * The routing policy consulted when a train has dwelt long enough: fixed
 * ping-pong traversal of the route, and the dynamic detour to a crowded
 * neighbouring station.
 */
module Routing {
  import opened Wrappers
  import opened Network

  /** The direction flag: 1 (forward) or -1 (backward) in the source. */
  datatype Direction = Forward | Backward

  /** `route.indexOf(id)`: the first position of id, or -1. */
  function IndexOf(route: seq<string>, id: string): (i: int)
    ensures -1 <= i < |route|
    ensures i == -1 <==> id !in route
    ensures 0 <= i ==> route[i] == id && id !in route[..i]
  {
    if |route| == 0 then -1
    else if route[0] == id then 0
    else
      var k := IndexOf(route[1..], id);
      assert route[1..][..if k < 0 then 0 else k] == route[1..if k < 0 then 1 else k + 1];
      if k < 0 then -1 else k + 1
  }

  /**
   * Fixed routing: step one position in the current direction, reflecting at
   * either end of the route. The current index is -1 for a train that a
   * detour has left off its route.
   */
  function FixedNext(len: nat, current: int, dir: Direction): (r: (int, Direction))
    requires len >= 2 && -1 <= current < len
    ensures 0 <= r.0 < len
    ensures r.1 != dir <==> ((dir == Forward && current == len - 1) || (dir == Backward && current <= 0))
    ensures dir == Forward && current == len - 1 ==> r.0 == len - 2
    ensures dir == Backward && current <= 0 ==> r.0 == 1
    ensures r.1 == dir ==> r.0 == if dir == Forward then current + 1 else current - 1
  {
    match dir
    case Forward =>
      if current + 1 >= len then (len - 2, Backward) else (current + 1, Forward)
    case Backward =>
      if current - 1 < 0 then (1, Forward) else (current - 1, Backward)
  }

  /** From a stop on the route, fixed routing always goes to an adjacent stop. */
  lemma FixedNextIsNeighbour(len: nat, current: int, dir: Direction)
    requires len >= 2 && 0 <= current < len
    ensures FixedNext(len, current, dir).0 == current + 1 || FixedNext(len, current, dir).0 == current - 1
  {
  }

  /**
   * Fixed routing iterated n times; a train that starts at the first stop
   * heading forward reaches the last stop after len - 1 steps and is back at
   * the first after 2 * (len - 1).
   */
  function Bounce(len: nat, current: int, dir: Direction, n: nat): (r: (int, Direction))
    requires len >= 2 && -1 <= current < len
    ensures 0 <= r.0 < len || (n == 0 && r.0 == current)
    decreases n
  {
    if n == 0 then (current, dir)
    else
      var next := FixedNext(len, current, dir);
      Bounce(len, next.0, next.1, n - 1)
  }

  /** Walking forward without reaching the end moves n stops along. */
  lemma {:induction false} BounceForward(len: nat, current: nat, n: nat)
    requires len >= 2 && current + n < len
    ensures Bounce(len, current, Forward, n) == (current + n, Forward)
    decreases n
  {
    if n > 0 {
      BounceForward(len, current + 1, n - 1);
    }
  }

  /** Walking backward without passing the start moves n stops back. */
  lemma {:induction false} BounceBackward(len: nat, current: nat, n: nat)
    requires len >= 2 && current < len && n <= current
    ensures Bounce(len, current, Backward, n) == (current - n, Backward)
  {
    if n > 0 {
      BounceBackward(len, current - 1, n - 1);
    }
  }

  /** Bounce(n + m) is Bounce(m) after Bounce(n). */
  lemma {:induction false} BounceAdd(len: nat, current: int, dir: Direction, n: nat, m: nat)
    requires len >= 2 && -1 <= current < len
    ensures var mid := Bounce(len, current, dir, n);
      -1 <= mid.0 < len && Bounce(len, current, dir, n + m) == Bounce(len, mid.0, mid.1, m)
    decreases n
  {
    if n > 0 {
      var next := FixedNext(len, current, dir);
      BounceAdd(len, next.0, next.1, n - 1, m);
    }
  }

  /**
   * The ping-pong round trip: from the first stop heading forward, the train
   * reaches the last stop after len - 1 departures and, reflected there, is
   * back at the first stop after 2 * (len - 1), heading backward (from where
   * it leaves exactly as it first did).
   */
  lemma RoundTrip(len: nat)
    requires len >= 2
    ensures Bounce(len, 0, Forward, len - 1) == (len - 1, Forward)
    ensures Bounce(len, 0, Forward, 2 * (len - 1)) == (0, Backward)
    ensures FixedNext(len, 0, Backward) == FixedNext(len, 0, Forward)
  {
    BounceForward(len, 0, len - 1);
    BounceAdd(len, 0, Forward, len - 1, len - 1);
    // the reflection at the far end, then the walk back
    BounceAdd(len, len - 1, Forward, 1, len - 2);
    BounceBackward(len, len - 2, len - 2);
  }

  function Abs(v: int): nat
  {
    if v < 0 then -v else v
  }

  /** A station other than the current one, under 100 units away on both axes. */
  predicate Nearby(s: Station, current: string, cx: int, cy: int)
    ensures Nearby(s, current, cx, cy) <==> cx - 100 < s.x < cx + 100 && cy - 100 < s.y < cy + 100 && s.id != current
  {
    Abs(s.x - cx) < 100 && Abs(s.y - cy) < 100 && s.id != current
  }

  /** More than 70% of the station's capacity is waiting. */
  predicate Crowded(s: Station)
    ensures Crowded(s) <==> s.passengers as real > s.capacity as real * 0.7
  {
    10 * s.passengers > 7 * s.capacity
  }

  /** The occupancy ratio waiting / capacity. */
  function Ratio(s: Station): real
    requires s.capacity > 0
  {
    s.passengers as real / s.capacity as real
  }

  /**
   * The two `filter`s from position i on: the positions of the nearby crowded
   * stations, in table order.
   */
  function Candidates(ss: seq<Station>, current: string, cx: int, cy: int, i: nat): (c: seq<nat>)
    requires i <= |ss|
    ensures forall a :: 0 <= a < |c| ==> i <= c[a] < |ss| && Nearby(ss[c[a]], current, cx, cy) && Crowded(ss[c[a]])
    ensures forall j :: i <= j < |ss| && Nearby(ss[j], current, cx, cy) && Crowded(ss[j]) ==> j in c
    ensures forall a, b :: 0 <= a < b < |c| ==> c[a] < c[b]
    decreases |ss| - i
  {
    if i == |ss| then []
    else
      var rest := Candidates(ss, current, cx, cy, i + 1);
      if Nearby(ss[i], current, cx, cy) && Crowded(ss[i]) then [i] + rest else rest
  }

  /**
   * `sort` by descending ratio then `[0]`: the position of the first station
   * with the highest ratio (the sort is stable).
   */
  function BusiestIndex(c: seq<Station>): (k: nat)
    requires |c| > 0
    requires forall j :: 0 <= j < |c| ==> c[j].capacity > 0
    ensures k < |c|
    ensures forall j :: 0 <= j < |c| ==> Ratio(c[j]) <= Ratio(c[k])
    ensures forall j :: 0 <= j < k ==> Ratio(c[j]) < Ratio(c[k])
  {
    if |c| == 1 then 0
    else
      var k := BusiestIndex(c[1..]);
      if Ratio(c[0]) >= Ratio(c[1..][k]) then 0 else k + 1
  }

  /** The stations at the given positions, in that order. */
  function Pick(ss: seq<Station>, c: seq<nat>): (r: seq<Station>)
    requires forall a :: 0 <= a < |c| ==> c[a] < |ss|
    ensures |r| == |c| && forall a :: 0 <= a < |c| ==> r[a] == ss[c[a]]
  {
    seq(|c|, a requires 0 <= a < |c| => ss[c[a]])
  }

  /**
   * ss[k] is a crowded nearby station, no crowded nearby station has a
   * higher ratio, and every earlier one has a lower ratio.
   */
  predicate MostCrowdedNearby(ss: seq<Station>, k: nat, current: string, cx: int, cy: int)
    requires forall j :: 0 <= j < |ss| ==> ss[j].capacity > 0
    requires k < |ss|
  {
    && Nearby(ss[k], current, cx, cy)
    && Crowded(ss[k])
    && (forall j :: 0 <= j < |ss| && Nearby(ss[j], current, cx, cy) && Crowded(ss[j]) ==> Ratio(ss[j]) <= Ratio(ss[k]))
    && (forall j :: 0 <= j < k && Nearby(ss[j], current, cx, cy) && Crowded(ss[j]) ==> Ratio(ss[j]) < Ratio(ss[k]))
  }

  /** In a strictly increasing sequence, a smaller element sits at an earlier position. */
  lemma IncreasingOrder(c: seq<nat>, m: nat, b: nat)
    requires forall x, y :: 0 <= x < y < |c| ==> c[x] < c[y]
    requires m < |c| && b < |c| && c[m] < c[b]
    ensures m < b
  {
  }

  /** The first candidate of maximal ratio is the first most crowded nearby station of the whole list. */
  lemma BusiestCandidate(ss: seq<Station>, current: string, cx: int, cy: int)
    requires forall j :: 0 <= j < |ss| ==> ss[j].capacity > 0
    requires |Candidates(ss, current, cx, cy, 0)| > 0
    ensures var c := Candidates(ss, current, cx, cy, 0);
      MostCrowdedNearby(ss, c[BusiestIndex(Pick(ss, c))], current, cx, cy)
  {
    var c := Candidates(ss, current, cx, cy, 0);
    var cs := Pick(ss, c);
    assert forall a :: 0 <= a < |cs| ==> cs[a].capacity > 0;
    var b := BusiestIndex(cs);
    var k := c[b];
    assert cs[b] == ss[k];
    forall j | 0 <= j < |ss| && Nearby(ss[j], current, cx, cy) && Crowded(ss[j])
      ensures Ratio(ss[j]) <= Ratio(ss[k]) && (j < k ==> Ratio(ss[j]) < Ratio(ss[k]))
    {
      assert j in c;
      var m :| 0 <= m < |c| && c[m] == j;
      assert cs[m] == ss[j];
      assert Ratio(cs[m]) <= Ratio(cs[b]);
      if j < k {
        IncreasingOrder(c, m, b);
        assert Ratio(cs[m]) < Ratio(cs[b]);
      }
    }
  }

  /**
   * The station a dynamic detour goes to from (cx, cy): the most crowded
   * nearby station, the first in table order on a tie, or None when no
   * nearby station is crowded.
   */
  function DynamicTarget(ss: seq<Station>, current: string, cx: int, cy: int): (r: Option<string>)
    requires forall j :: 0 <= j < |ss| ==> ss[j].capacity > 0
    ensures r.None? <==> forall j :: 0 <= j < |ss| ==> !(Nearby(ss[j], current, cx, cy) && Crowded(ss[j]))
    ensures r.Some? ==> r.value != current
    ensures r.Some? ==> exists k :: 0 <= k < |ss| && ss[k].id == r.value && MostCrowdedNearby(ss, k, current, cx, cy)
  {
    var c := Candidates(ss, current, cx, cy, 0);
    if |c| == 0 then
      None
    else
      BusiestCandidate(ss, current, cx, cy);
      Some(ss[c[BusiestIndex(Pick(ss, c))]].id)
  }
}
