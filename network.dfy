/**
 * The static network: the station table with positions and capacities, the
 * three lines' routes, and lookup of a station by its id.
 */
module Network {
  import opened Wrappers

  /** A station. Everything but `passengers` (the waiting count) is static. */
  datatype Station = Station(id: string, name: string, x: int, y: int, passengers: nat, capacity: nat)

  /** The station table as declared: nobody is waiting yet. */
  const Table: seq<Station> := [
    Station("wtc", "World Trade Center", 350, 230, 0, 1000),
    Station("exchange", "Exchange Place", 280, 210, 0, 500),
    Station("grove", "Grove St", 220, 190, 0, 400),
    Station("journal", "Journal Square", 150, 160, 0, 600),
    Station("newark", "Newark Penn Station", 50, 180, 0, 800),
    Station("harrison", "Harrison", 80, 100, 0, 300),
    Station("newport", "Newport", 270, 140, 0, 450),
    Station("hoboken", "Hoboken", 210, 100, 0, 700),
    Station("christopher", "Christopher St", 320, 120, 0, 350),
    Station("9st", "9 St", 330, 100, 0, 200),
    Station("14st", "14 St", 340, 80, 0, 400),
    Station("23st", "23 St", 350, 60, 0, 300),
    Station("33st", "33 St", 360, 40, 0, 500)
  ]

  /** The three train lines. */
  datatype Line = Red | Blue | Yellow

  /**
   * The fixed route of a line; any line other than red and blue runs the
   * yellow route. Every route meets the others at Journal Square, and red and
   * blue share the trunk from there to the World Trade Center.
   */
  function Route(line: Line): (r: seq<string>)
    ensures |r| >= 2
    ensures forall k :: 0 <= k < |r| - 1 ==> r[k] != r[k + 1]
    ensures "journal" in r
    ensures line != Yellow ==> r[1..] == ["journal", "grove", "exchange", "wtc"]
  {
    match line
    case Red => ["newark", "journal", "grove", "exchange", "wtc"]
    case Blue => ["harrison", "journal", "grove", "exchange", "wtc"]
    case Yellow => ["33st", "23st", "14st", "9st", "christopher", "hoboken", "newport", "journal"]
  }

  /** There is a station with this id. */
  predicate Has(ss: seq<Station>, id: string)
  {
    exists j :: 0 <= j < |ss| && ss[j].id == id
  }

  /** `stations.find(s => s.id === id)`, as the index of the first match. */
  function Find(ss: seq<Station>, id: string): (r: Option<nat>)
    ensures r.Some? ==> r.value < |ss| && ss[r.value].id == id
    ensures r.Some? ==> forall j :: 0 <= j < r.value ==> ss[j].id != id
    ensures r.None? <==> !Has(ss, id)
  {
    if |ss| == 0 then None
    else if ss[0].id == id then Some(0)
    else
      match Find(ss[1..], id)
      case None => None
      case Some(k) => Some(k + 1)
  }

  /** b differs from a at most in the waiting counts. */
  predicate SameLayout(a: seq<Station>, b: seq<Station>)
  {
    |a| == |b| && forall j :: 0 <= j < |a| ==> b[j] == a[j].(passengers := b[j].passengers)
  }

  /** Waiting counts do not affect lookup. */
  lemma {:induction false} FindSameLayout(a: seq<Station>, b: seq<Station>, id: string)
    requires SameLayout(a, b)
    ensures Find(a, id) == Find(b, id)
    ensures Has(a, id) <==> Has(b, id)
  {
    if |a| > 0 && a[0].id != id {
      assert SameLayout(a[1..], b[1..]) by {
        forall j | 0 <= j < |a| - 1 ensures b[1..][j] == a[1..][j].(passengers := b[1..][j].passengers) {
          assert b[j + 1] == a[j + 1].(passengers := b[j + 1].passengers);
        }
      }
      FindSameLayout(a[1..], b[1..], id);
    }
    if Has(a, id) {
      var j :| 0 <= j < |a| && a[j].id == id;
      assert b[j] == a[j].(passengers := b[j].passengers);
    }
    if Has(b, id) {
      var j :| 0 <= j < |b| && b[j].id == id;
      assert b[j] == a[j].(passengers := b[j].passengers);
    }
  }

  /** The table's capacities are positive, its ids distinct, and nobody waits in it. */
  lemma TableWellFormed()
    ensures |Table| == 13
    ensures forall j :: 0 <= j < |Table| ==> Table[j].capacity > 0 && Table[j].passengers == 0
    ensures forall j, k :: 0 <= j < k < |Table| ==> Table[j].id != Table[k].id
  {
  }

  /** Every route has at least two stations, all of them in the table. */
  lemma RoutesWellFormed(line: Line)
    ensures |Route(line)| >= 2
    ensures forall k :: 0 <= k < |Route(line)| ==> Has(Table, Route(line)[k])
  {
    // The table index of each route stop.
    var at: seq<nat> :=
      if line == Red then [4, 3, 2, 1, 0]
      else if line == Blue then [5, 3, 2, 1, 0]
      else [12, 11, 10, 9, 8, 7, 6, 3];
    forall k | 0 <= k < |Route(line)| ensures Has(Table, Route(line)[k]) {
      assert Table[at[k]].id == Route(line)[k];
    }
  }

  /** `Math.floor(capacity * factor)`: the seeded load of a station or train. */
  function SeedLoad(capacity: nat, factor: real): (n: nat)
    requires 0.0 <= factor <= 1.0
    ensures n as real <= capacity as real * factor < n as real + 1.0
    ensures n <= capacity
  {
    var v := capacity as real * factor;
    assert 0.0 <= v <= capacity as real;
    v.Floor
  }

  /** The seeded share of capacity already waiting: major hubs 0.4, secondary hubs 0.35, others 0.25. */
  function StationLoadFactor(id: string): (f: real)
    ensures 0.25 <= f <= 0.4
    ensures f == 0.4 <==> id == "wtc" || id == "newark"
    ensures f > 0.25 <==> id == "wtc" || id == "newark" || id == "journal" || id == "hoboken"
  {
    if id == "wtc" || id == "newark" then 0.4
    else if id == "journal" || id == "hoboken" then 0.35
    else 0.25
  }

  /** The table with every station's waiting count seeded from its load factor. */
  function SeededStations(): (ss: seq<Station>)
    ensures SameLayout(Table, ss)
    ensures forall j :: 0 <= j < |ss| ==> ss[j].passengers == SeedLoad(Table[j].capacity, StationLoadFactor(Table[j].id))
  {
    seq(|Table|, j requires 0 <= j < |Table| =>
      Table[j].(passengers := SeedLoad(Table[j].capacity, StationLoadFactor(Table[j].id))))
  }
}
