/** The parameter checks that open `find_cheapest_flights`. */
module Validation {
  import opened FlightData

  /** The position of each rule in the order the checks run. */
  function Rank(p: Param): nat {
    match p
    case Limit => 0
    case MinDays => 1
    case MaxDays => 2
    case DaysOrder => 3
    case DatesOrder => 4
    case MaxPrice => 5
    case DestinationLists => 6
    case MaxPerAirport => 7
  }

  /** Whether request `q` obeys the rule named by `p`. */
  predicate Obeys(q: Request, p: Param) {
    match p
    case Limit => q.n.None? || q.n.value >= 0
    case MinDays => q.minDays.None? || q.minDays.value > 0
    case MaxDays => q.maxDays.None? || q.maxDays.value > 0
    case DaysOrder => q.minDays.None? || q.maxDays.None? || q.minDays.value <= q.maxDays.value
    case DatesOrder => q.minDate.None? || q.maxDate.None? || q.minDate.value <= q.maxDate.value
    case MaxPrice => q.maxPrice.None? || q.maxPrice.value > 0
    case DestinationLists => q.selected.None? || q.excluded.None?
    case MaxPerAirport => q.maxPerAirport.None? || q.maxPerAirport.value > 0
  }

  predicate WellFormed(q: Request) {
    forall p: Param :: Obeys(q, p)
  }

  /** The checks in source order; `Some(p)` is the `ValueError` about `p`.
      A request passes exactly when it obeys every rule, and a rejection names
      the first rule broken. In particular `n = 0` passes. */
  function Validate(q: Request): (r: Option<Param>)
    ensures r.Some? ==> !Obeys(q, r.value)
    ensures r.None? <==> WellFormed(q)
    ensures r.Some? ==> forall p: Param :: Rank(p) < Rank(r.value) ==> Obeys(q, p)
  {
    if q.n.Some? && q.n.value < 0 then Some(Limit)
    else if q.minDays.Some? && q.minDays.value <= 0 then Some(MinDays)
    else if q.maxDays.Some? && q.maxDays.value <= 0 then Some(MaxDays)
    else if q.minDays.Some? && q.maxDays.Some? && q.minDays.value > q.maxDays.value then Some(DaysOrder)
    else if q.minDate.Some? && q.maxDate.Some? && q.minDate.value > q.maxDate.value then Some(DatesOrder)
    else if q.maxPrice.Some? && q.maxPrice.value <= 0 then Some(MaxPrice)
    else if q.selected.Some? && q.excluded.Some? then Some(DestinationLists)
    else if q.maxPerAirport.Some? && q.maxPerAirport.value <= 0 then Some(MaxPerAirport)
    else None
  }
}
