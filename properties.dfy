/** What `find_cheapest_flights` promises, stated over `Search`: the trips it
    yields are round trips of the data within the request's bounds, every
    such trip is found when nothing limits the output, none is yielded twice,
    cheaper trips come first, and the limit `n` and the per-destination cap
    hold. The failures come exactly from the checks and the crash they name. */
module SearchProperties {
  import opened FlightData
  import opened Seqs
  import opened Arith
  import opened Validation
  import opened DestinationFilter
  import opened DateWindow
  import opened TripQueue
  import opened Enumeration
  import opened Emission
  import opened CheapestFlights
  import opened Formatting

  /** A round trip from the origin to one of the destinations and back, both
      flights drawn from the data, inside the date window, staying between
      `minDays` and `maxDays` days, within the price limit. */
  ghost predicate RoundTripOk(p: Plan, t: Trip) {
    && t.outbound in p.flights
    && t.inbound in p.flights
    && t.outbound.origin == p.origin
    && t.outbound.destination in p.dests
    && t.inbound.origin == t.outbound.destination
    && t.inbound.destination == p.origin
    && p.w.minDate <= t.outbound.date
    && t.inbound.date <= p.w.maxDate
    && p.w.minDays <= t.inbound.date - t.outbound.date <= p.w.maxDays
    && PriceOk(TripPrice(t), p.maxPrice)
  }

  /** The candidate the enumeration makes of trip `t`: its day offsets. */
  function CandOf(p: Plan, t: Trip): (c: Cand)
    ensures c.trip == t
    ensures p.w.minDate + c.dep == t.outbound.date && p.w.minDate + c.ret == t.inbound.date
  {
    Cand(t.outbound.date - p.w.minDate, t.inbound.date - p.w.minDate, t)
  }

  /** A candidate qualifies exactly when its trip is a round trip of the plan
      and its offsets are those of its dates. */
  lemma QualifiesIff(p: Plan, c: Cand)
    ensures Qualifies(p, c) <==> RoundTripOk(p, c.trip) && c == CandOf(p, c.trip)
  {
  }

  /** Every yielded entry is the candidate its counter value numbers, and that
      candidate qualifies. */
  lemma YieldedFromCandidates(p: Plan, q: Request, e: Entry)
    requires e in Yielded(p, q)
    ensures 0 <= e.idx < |Candidates(p)|
    ensures e == EntryOf(Candidates(p)[e.idx], e.idx)
    ensures Qualifies(p, Candidates(p)[e.idx])
  {
    EmitMember(Ranked(Candidates(p)), q.n, q.maxPerAirport, e);
    RankedSpec(Candidates(p));
    CandidatesExactly(p, Candidates(p)[e.idx]);
  }

  /** Soundness: every yielded trip is a round trip within the request's bounds. */
  lemma SearchSound(data: Dataset, q: Request, t: Trip)
    requires Search(data, q).Success? && t in Search(data, q).value
    ensures Prepare(data, q).Success? && RoundTripOk(Prepare(data, q).value, t)
  {
    var p := Prepare(data, q).value;
    var es := Yielded(p, q);
    var k :| 0 <= k < |TripsOf(es)| && TripsOf(es)[k] == t;
    assert es[k] in es;
    YieldedFromCandidates(p, q, es[k]);
    QualifiesIff(p, Candidates(p)[es[k].idx]);
  }

  /** Completeness: with no limit `n` and no cap, every round trip within the
      request's bounds is yielded. */
  lemma SearchComplete(data: Dataset, q: Request, t: Trip)
    requires Search(data, q).Success?
    requires q.n.None? && q.maxPerAirport.None?
    requires Prepare(data, q).Success? && RoundTripOk(Prepare(data, q).value, t)
    ensures t in Search(data, q).value
  {
    var p := Prepare(data, q).value;
    var c := CandOf(p, t);
    assert c in Candidates(p) by {
      QualifiesIff(p, c);
      CandidatesExactly(p, c);
    }
    RankedTrips(Candidates(p), c);
    var r := Ranked(Candidates(p));
    EmitUncapped(r, q.n);
    assert r[..|r|] == r;
  }

  /** The trip of every candidate is among the trips of the ranked queue. */
  lemma RankedTrips(cs: seq<Cand>, c: Cand)
    requires c in cs
    ensures c.trip in TripsOf(Ranked(cs))
  {
    var i :| 0 <= i < |cs| && cs[i] == c;
    RankedSpec(cs);
    var r := Ranked(cs);
    assert Numbered(cs)[i] == EntryOf(c, i);
    assert EntryOf(c, i) in multiset(r);
    var j :| 0 <= j < |r| && r[j] == EntryOf(c, i);
    assert TripsOf(r)[j] == c.trip;
  }

  /** Without a cap the search yields the `n` cheapest candidates (all of
      them when `n` is unset or larger), and no yielded trip costs more than
      one left in the queue. */
  lemma SearchCheapest(data: Dataset, q: Request)
    requires Search(data, q).Success? && q.maxPerAirport.None?
    ensures var p := Prepare(data, q).value;
      var r := Ranked(Candidates(p));
      var ts := Search(data, q).value;
      && ts == TripsOf(r[..Pops(q.n, |r|)])
      && (q.n.None? ==> |ts| == |Candidates(p)|)
      && (q.n.Some? ==> |ts| == Min(q.n.value, |Candidates(p)|))
      && forall i, j :: 0 <= i < |ts| <= j < |r| ==> TripPrice(ts[i]) <= TripPrice(r[j].trip)
  {
    var p := Prepare(data, q).value;
    var cs := Candidates(p);
    RankedSpec(cs);
    var r := Ranked(cs);
    EmitUncapped(r, q.n);
    var ts := Search(data, q).value;
    forall i, j | 0 <= i < |ts| <= j < |r| ensures TripPrice(ts[i]) <= TripPrice(r[j].trip) {
      assert r[i] in r && r[j] in r;
      assert Before(r[i], r[j]);
    }
  }

  /** Two entries of equal price, in queue order, were pushed in that order:
      the enumeration never goes back to an earlier day pair. */
  lemma TieOrder(cs: seq<Cand>, x: Entry, y: Entry)
    requires DayOrdered(cs)
    requires 0 <= x.idx < |cs| && x == EntryOf(cs[x.idx], x.idx)
    requires 0 <= y.idx < |cs| && y == EntryOf(cs[y.idx], y.idx)
    requires Before(x, y) && x.price == y.price
    ensures x.idx < y.idx
  {
  }

  /** The yielded entries are ascending, each is the candidate its counter
      value numbers, and ties in price keep the enumeration order. */
  lemma YieldedOrder(p: Plan, q: Request)
    ensures var es := Yielded(p, q);
      && (forall i, j :: 0 <= i < j < |es| ==> es[i].price <= es[j].price)
      && (forall i, j :: 0 <= i < j < |es| && es[i].price == es[j].price ==> es[i].idx < es[j].idx)
      && (forall k :: 0 <= k < |es| ==> 0 <= es[k].idx < |Candidates(p)| && es[k] == EntryOf(Candidates(p)[es[k].idx], es[k].idx))
  {
    var cs := Candidates(p);
    var es := Yielded(p, q);
    RankedSpec(cs);
    EmitAscending(Ranked(cs), q.n, q.maxPerAirport);
    CandidatesDayOrdered(p);
    forall k | 0 <= k < |es| ensures 0 <= es[k].idx < |cs| && es[k] == EntryOf(cs[es[k].idx], es[k].idx) {
      YieldedFromCandidates(p, q, es[k]);
    }
    forall i, j | 0 <= i < j < |es| && es[i].price == es[j].price ensures es[i].idx < es[j].idx {
      TieOrder(cs, es[i], es[j]);
    }
  }

  /** Order: trips come cheapest first; trips of equal price come in the
      order they were pushed, which is the order of the five nested loops:
      departure day, return day, destination in dictionary order, flight
      back, flight out. */
  lemma SearchOrder(data: Dataset, q: Request)
    requires Search(data, q).Success?
    ensures var p := Prepare(data, q).value;
      var es := Yielded(p, q);
      var ts := Search(data, q).value;
      && (forall i, j :: 0 <= i < j < |ts| ==> TripPrice(ts[i]) <= TripPrice(ts[j]))
      && (forall i, j :: 0 <= i < j < |ts| && TripPrice(ts[i]) == TripPrice(ts[j]) ==> es[i].idx < es[j].idx)
      && (forall k :: 0 <= k < |ts| ==> 0 <= es[k].idx < |Candidates(p)| && ts[k] == Candidates(p)[es[k].idx].trip)
      && (forall i, j :: 0 <= i < j < |ts| && TripPrice(ts[i]) == TripPrice(ts[j]) ==>
            PushOrder(p, Candidates(p)[es[i].idx], Candidates(p)[es[j].idx]))
  {
    var p := Prepare(data, q).value;
    YieldedOrder(p, q);
    assert SortedBy(Candidates(p), (a, b) => PushOrder(p, a, b)) by {
      DestinationsSpec(AirportIds(data.airports), q);
      CandidatesPushOrder(p);
    }
  }

  /** When no flight appears twice in the data, no trip is yielded twice. */
  lemma SearchOnce(data: Dataset, q: Request)
    requires Search(data, q).Success? && NoDup(data.flights)
    ensures NoDup(Search(data, q).value)
  {
    var p := Prepare(data, q).value;
    DestinationsSpec(AirportIds(data.airports), q);
    CandidatesOnce(p);
    var cs := Candidates(p);
    var es := Yielded(p, q);
    var ts := Search(data, q).value;
    RankedSpec(cs);
    EmitAscending(Ranked(cs), q.n, q.maxPerAirport);
    forall i, j | 0 <= i < j < |ts| ensures ts[i] != ts[j] {
      assert Before(es[i], es[j]);
      YieldedFromCandidates(p, q, es[i]);
      YieldedFromCandidates(p, q, es[j]);
      QualifiesIff(p, cs[es[i].idx]);
      QualifiesIff(p, cs[es[j].idx]);
    }
  }

  /** With cap `k`, each destination gets the smaller of `k` and the number of
      popped trips to it: never more than `k`. Dropped trips still count
      against `n`: at most `n` entries are popped. */
  lemma SearchCap(data: Dataset, q: Request, a: AirportId)
    requires Search(data, q).Success? && q.maxPerAirport.Some?
    ensures var p := Prepare(data, q).value;
      var r := Ranked(Candidates(p));
      var popped := r[..Pops(q.n, |r|)];
      && CountDest(Yielded(p, q), a) == Min(q.maxPerAirport.value, CountDest(popped, a))
      && CountDest(Yielded(p, q), a) <= q.maxPerAirport.value
      && |Search(data, q).value| <= |popped|
      && (q.n.Some? ==> |Search(data, q).value| <= q.n.value)
  {
    var p := Prepare(data, q).value;
    var r := Ranked(Candidates(p));
    assert Obeys(q, MaxPerAirport) && Obeys(q, Limit);
    CappedCount(r[..Pops(q.n, |r|)], q.maxPerAirport.value, a);
  }

  /** The request's checks: an `InvalidParameter` error (the `ValueError`s
      of lines 40-55) exactly for a request that breaks a rule, naming the
      first rule broken; then the unknown origin (the `ValueError` of line
      62), then the empty flight list (the failed unpacking at line 89). */
  lemma SearchRejects(data: Dataset, q: Request)
    ensures (Search(data, q).Failure? && Search(data, q).error.InvalidParameter?) <==> !WellFormed(q)
    ensures Search(data, q).Failure? && Search(data, q).error.InvalidParameter? ==>
      var bad := Search(data, q).error.param;
      !Obeys(q, bad) && forall r: Param :: Rank(r) < Rank(bad) ==> Obeys(q, r)
    ensures WellFormed(q) && q.origin !in AirportIds(data.airports) ==> Search(data, q) == Failure(UnknownAirport(q.origin))
    ensures WellFormed(q) && q.origin in AirportIds(data.airports) && data.flights == [] ==> Search(data, q) == Failure(NoFlights)
  {
    var v := Validate(q);
  }

  /** The crash of line 153: a valid request for a known origin over a
      nonempty flight list fails exactly when the deny-list names the origin
      and the window spans at least one day; otherwise the search succeeds. */
  lemma DenyListedOrigin(data: Dataset, q: Request)
    requires WellFormed(q) && q.origin in AirportIds(data.airports) && data.flights != []
    ensures Prepare(data, q).Success?
    ensures Search(data, q) == Failure(OriginNotIndexed(q.origin)) <==>
      q.excluded.Some? && q.origin in q.excluded.value && 1 <= Prepare(data, q).value.w.Span()
    ensures Search(data, q).Success? <==>
      !(q.excluded.Some? && q.origin in q.excluded.value && 1 <= Prepare(data, q).value.w.Span())
  {
    var ids := AirportIds(data.airports);
    var lo, hi := EarliestDate(data.flights), LatestDate(data.flights);
    DateRangeSpec(data.flights);
    assert lo <= data.flights[0].date <= hi;
    assert Obeys(q, DestinationLists) && Obeys(q, DatesOrder) && Obeys(q, DaysOrder);
    DestinationsSpec(ids, q);
    ValidatedWindow(lo, hi, q);
  }

  /** `n = 0` passes the checks and yields nothing. */
  lemma ZeroLimit(data: Dataset, q: Request)
    requires Search(data, q).Success? && q.n == Some(0)
    ensures Search(data, q).value == []
  {
    var p := Prepare(data, q).value;
    assert Ranked(Candidates(p))[..0] == [];
  }

  /** Every trip the search yields can be formatted by a formatter over the
      same airport list: its destination is a key of the airport map, and it
      lasts at least one day, between `minDays` and `maxDays`. */
  lemma YieldedTripsFormat(data: Dataset, q: Request, t: Trip, showDate: int -> string)
    requires Search(data, q).Success? && t in Search(data, q).value
    ensures TripFormatter(AirportMap(data.airports)).Format(t.outbound, t.inbound, showDate).Some?
    ensures var w := Prepare(data, q).value.w;
      1 <= w.minDays <= Duration(t.outbound, t.inbound) <= w.maxDays
  {
    var p := Prepare(data, q).value;
    assert RoundTripOk(p, t) by {
      SearchSound(data, q, t);
    }
    var x := t.outbound.destination;
    var ids := AirportIds(data.airports);
    assert x in ids by {
      assert Obeys(q, DestinationLists);
      DestinationsSpec(ids, q);
    }
    AirportMapKeys(data.airports);
  }
}
