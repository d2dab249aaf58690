/** `find_cheapest_flights` (cheapest_flights.py, lines 10-184) end to end:
    the checks, the destination filters, the window, the index, the
    enumeration and the capped pops. A `ValueError` or a crash is an `Error`;
    otherwise the result is every trip the generator yields, in order. */
module CheapestFlights {
  import opened FlightData
  import opened Validation
  import opened DestinationFilter
  import opened DateWindow
  import opened FlightIndex
  import opened TripQueue
  import opened Enumeration
  import opened Emission

  /** Lines 40-118: the checks, the airports, the filters and the window, or
      the error that stops the search before the index is built. */
  function Prepare(data: Dataset, q: Request): Result<Plan, Error> {
    var invalid := Validate(q);
    var ids := AirportIds(data.airports);
    if invalid.Some? then Failure(InvalidParameter(invalid.value))
    else if q.origin !in ids then Failure(UnknownAirport(q.origin))
    else if data.flights == [] then Failure(NoFlights)
    else
      DateRangeSpec(data.flights);
      var w := EffectiveWindow(EarliestDate(data.flights), LatestDate(data.flights), q);
      Success(Plan(data.flights, q.origin, Destinations(ids, q), w, q.maxPrice))
  }

  /** The queue entries the generator yields for plan `p`, in order. */
  function Yielded(p: Plan, q: Request): seq<Entry> {
    Emit(Ranked(Candidates(p)), q.n, q.maxPerAirport)
  }

  /** What the search yields, or how it fails. */
  function Search(data: Dataset, q: Request): Result<seq<Trip>, Error> {
    match Prepare(data, q)
    case Failure(e) => Failure(e)
    case Success(p) =>
      if p.origin !in p.dests && HasDayPairs(p.w) then Failure(OriginNotIndexed(p.origin))
      else Success(TripsOf(Yielded(p, q)))
  }

  /** Every queue entry flies to one of the destinations. */
  lemma RankedDestinations(p: Plan)
    ensures forall i :: 0 <= i < |Ranked(Candidates(p))| ==> Destination(Ranked(Candidates(p))[i]) in p.dests
  {
    var cs := Candidates(p);
    RankedSpec(cs);
    forall i | 0 <= i < |Ranked(cs)| ensures Destination(Ranked(cs)[i]) in p.dests {
      var e := Ranked(cs)[i];
      assert e in Ranked(cs);
      CandidatesExactly(p, cs[e.idx]);
    }
  }

  /** Lines 10-184, run to completion. */
  method FindCheapestFlights(data: Dataset, q: Request) returns (res: Result<seq<Trip>, Error>)
    ensures res == Search(data, q)
  {
    var invalid := Validate(q);
    if invalid.Some? {
      return Failure(InvalidParameter(invalid.value));
    }
    var flights := data.flights;
    var ids := AirportIds(data.airports);
    if q.origin !in ids {
      return Failure(UnknownAirport(q.origin));
    }
    var dests := ids;
    if q.selected.Some? {
      dests := SelectDestinations(dests, q.origin, q.selected.value);
    }
    if q.excluded.Some? {
      dests := ExcludeDestinations(dests, q.excluded.value);
    }
    assert dests == Destinations(ids, q);
    var range := ScanDateRange(flights);
    if range.None? {
      return Failure(NoFlights);
    }
    var (lo, hi) := range.value;
    DateRangeSpec(flights);
    assert lo <= flights[0].date <= hi;
    var w := EffectiveWindow(lo, hi, q);
    var index := BuildIndex(flights, dests, w.minDate, w.maxDate);
    var p := Plan(flights, q.origin, dests, w, q.maxPrice);
    assert Prepare(data, q) == Success(p);
    var queue, crashed := Enumerate(index, p);
    if crashed {
      return Failure(OriginNotIndexed(q.origin));
    }
    RankedDestinations(p);
    var trips := EmitTrips(queue, q.n, q.maxPerAirport, dests);
    return Success(trips);
  }
}
