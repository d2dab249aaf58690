/** The (date, origin, destination) -> flights index of a search
    (cheapest_flights.py, lines 123-138). The three nested dictionaries of the
    source become one map keyed by the triple. */
module FlightIndex {
  import opened FlightData
  import opened Seqs

  type Key = (int, AirportId, AirportId)

  type Index = map<Key, seq<Flight>>

  function OnRoute(date: int, origin: AirportId, destination: AirportId): Flight -> bool {
    (f: Flight) => f.date == date && f.origin == origin && f.destination == destination
  }

  /** The flights of one date and route, in the order of the flight list. */
  function Bucket(flights: seq<Flight>, date: int, origin: AirportId, destination: AirportId): seq<Flight> {
    Filter(flights, OnRoute(date, origin, destination))
  }

  lemma BucketMember(flights: seq<Flight>, date: int, origin: AirportId, destination: AirportId, f: Flight)
    ensures f in Bucket(flights, date, origin, destination) <==>
            f in flights && f.date == date && f.origin == origin && f.destination == destination
  {
    FilterMember(flights, OnRoute(date, origin, destination), f);
  }

  /** The index has a (possibly empty) bucket for every date of the window
      and every pair of airports of the destination set, and no other. */
  ghost predicate Covers(index: Index, airports: seq<AirportId>, minDate: int, maxDate: int) {
    forall k :: k in index <==> minDate <= k.0 <= maxDate && k.1 in airports && k.2 in airports
  }

  /** Every bucket holds exactly the flights of its date and route. */
  ghost predicate Holds(index: Index, flights: seq<Flight>) {
    forall k :: k in index ==> index[k] == Bucket(flights, k.0, k.1, k.2)
  }

  /** One more flight joins the bucket of its own key and no other. */
  lemma HoldsSnoc(index: Index, flights: seq<Flight>, f: Flight)
    requires Holds(index, flights)
    ensures (f.date, f.origin, f.destination) !in index ==> Holds(index, flights + [f])
    ensures var k := (f.date, f.origin, f.destination);
      k in index ==> Holds(index[k := index[k] + [f]], flights + [f])
  {
    forall k | k in index
      ensures Bucket(flights + [f], k.0, k.1, k.2) ==
              Bucket(flights, k.0, k.1, k.2) + (if k == (f.date, f.origin, f.destination) then [f] else [])
    {
      FilterSnoc(flights, f, OnRoute(k.0, k.1, k.2));
    }
  }

  /** Lines 124-138: pre-populate empty buckets for the window, then append
      each flight whose airports are both kept and whose date is in the window. */
  method BuildIndex(flights: seq<Flight>, airports: seq<AirportId>, minDate: int, maxDate: int)
    returns (index: Index)
    ensures Covers(index, airports, minDate, maxDate)
    ensures Holds(index, flights)
  {
    index := map day, o, x | minDate <= day <= maxDate && o in airports && x in airports :: (day, o, x) := [];
    for i := 0 to |flights|
      invariant Covers(index, airports, minDate, maxDate)
      invariant Holds(index, flights[..i])
    {
      var f := flights[i];
      assert flights[..i + 1] == flights[..i] + [f];
      HoldsSnoc(index, flights[..i], f);
      if f.origin in airports && f.destination in airports && minDate <= f.date <= maxDate {
        var k := (f.date, f.origin, f.destination);
        index := index[k := index[k] + [f]];
      }
    }
    assert flights[..|flights|] == flights;
  }
}
