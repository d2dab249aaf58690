/** The records the round-trip search reads and produces. Dates are whole day
    numbers, prices exact integers. */
module FlightData {

  datatype Option<+T> = None | Some(value: T)

  datatype Result<+T, +E> = Success(value: T) | Failure(error: E)

  type AirportId = string

  /** An entry of the airport list: the `name` and `iata` keys are optional. */
  datatype Airport = Airport(id: AirportId, name: Option<string>, iata: Option<string>)

  /** A one-way flight. */
  datatype Flight = Flight(origin: AirportId, destination: AirportId, date: int, price: int, currency: string)

  /** The flight data handed to the search: `airports` and `flights`. */
  datatype Dataset = Dataset(airports: seq<Airport>, flights: seq<Flight>)

  /** The keyword arguments of the search; `None` is Python's `None`. */
  datatype Request = Request(
    origin: AirportId,
    n: Option<int>,
    minDays: Option<int>,
    maxDays: Option<int>,
    minDate: Option<int>,
    maxDate: Option<int>,
    maxPrice: Option<int>,
    selected: Option<seq<AirportId>>,
    excluded: Option<seq<AirportId>>,
    maxPerAirport: Option<int>)

  /** The parameter rule that a `ValueError` names, in the order they are checked. */
  datatype Param =
    | Limit            // `n` must not be negative
    | MinDays          // `min_days` must be positive
    | MaxDays          // `max_days` must be positive
    | DaysOrder        // `min_days` must not exceed `max_days`
    | DatesOrder       // `min_date` must not exceed `max_date`
    | MaxPrice         // `max_price` must be positive
    | DestinationLists // the allow-list and the deny-list exclude each other
    | MaxPerAirport    // `max_flights_per_airport` must be positive

  datatype Error =
    | InvalidParameter(param: Param)      // the `ValueError`s of the parameter checks
    | UnknownAirport(id: AirportId)       // the origin is not in the airport list
    | NoFlights                           // the flight list is empty: unpacking the unset date range fails
    | OriginNotIndexed(id: AirportId)     // the origin was removed from the airports: the index lookup fails

  /** A round trip: the flight to the destination and the flight back. */
  datatype Trip = Trip(outbound: Flight, inbound: Flight)

  function TripPrice(t: Trip): int {
    t.outbound.price + t.inbound.price
  }
}
