/** The enumeration of round trips (cheapest_flights.py, lines 140-162):
    every departure day, every return day, every destination, every flight
    back, every flight out, in that nesting; each pair within the price
    limit is pushed onto the queue with the next value of the counter `idx`.

    The functions below give, loop by loop, the sequence of candidates pushed;
    the methods are the loops and push exactly that sequence. */
module Enumeration {
  import opened FlightData
  import opened Seqs
  import opened Arith
  import opened DateWindow
  import opened FlightIndex
  import opened TripQueue

  /** What one search enumerates over: the flights, the origin, the
      destination set in dictionary order, the effective window, the price limit. */
  datatype Plan = Plan(flights: seq<Flight>, origin: AirportId, dests: seq<AirportId>, w: Window, maxPrice: Option<int>)

  predicate PriceOk(total: int, maxPrice: Option<int>) {
    maxPrice.None? || total <= maxPrice.value
  }

  /** The flights to `x` on departure offset `dep`. */
  function Outbound(p: Plan, dep: int, x: AirportId): seq<Flight> {
    Bucket(p.flights, p.w.minDate + dep, p.origin, x)
  }

  /** The flights back from `x` on return offset `ret`. */
  function Inbound(p: Plan, ret: int, x: AirportId): seq<Flight> {
    Bucket(p.flights, p.w.minDate + ret, x, p.origin)
  }

  /** Innermost loop: each outbound flight paired with one flight back. */
  function OutboundPairs(outs: seq<Flight>, inbound: Flight, dep: int, ret: int, maxPrice: Option<int>): seq<Cand> {
    if outs == [] then []
    else
      OutboundPairs(DropLast(outs), inbound, dep, ret, maxPrice) +
      (if PriceOk(Last(outs).price + inbound.price, maxPrice) then [Cand(dep, ret, Trip(Last(outs), inbound))] else [])
  }

  /** The loop over the flights back. */
  function InboundPairs(outs: seq<Flight>, ins: seq<Flight>, dep: int, ret: int, maxPrice: Option<int>): seq<Cand> {
    if ins == [] then []
    else InboundPairs(outs, DropLast(ins), dep, ret, maxPrice) + OutboundPairs(outs, Last(ins), dep, ret, maxPrice)
  }

  /** The loop over the destinations `xs` for one (departure, return) pair. */
  function DestinationPairs(p: Plan, xs: seq<AirportId>, dep: int, ret: int): seq<Cand> {
    if xs == [] then []
    else
      DestinationPairs(p, DropLast(xs), dep, ret) +
      InboundPairs(Outbound(p, dep, Last(xs)), Inbound(p, ret, Last(xs)), dep, ret, p.maxPrice)
  }

  /** One past the last return offset for departure offset `dep`. */
  function ReturnEnd(p: Plan, dep: int): int {
    Min(dep + p.w.maxDays, p.w.Span()) + 1
  }

  /** The loop over return offsets `dep + minDays .. end - 1`. */
  function ReturnSweep(p: Plan, dep: int, end: int): seq<Cand>
    decreases end - dep - p.w.minDays
  {
    if end <= dep + p.w.minDays then []
    else ReturnSweep(p, dep, end - 1) + DestinationPairs(p, p.dests, dep, end - 1)
  }

  /** The loop over departure offsets `0 .. k - 1`. */
  function DepartureSweep(p: Plan, k: int): seq<Cand>
    decreases k
  {
    if k <= 0 then []
    else DepartureSweep(p, k - 1) + ReturnSweep(p, k - 1, ReturnEnd(p, k - 1))
  }

  /** Every candidate, in the order pushed: `idx` is the position here. */
  function Candidates(p: Plan): seq<Cand> {
    DepartureSweep(p, p.w.Span() - p.w.minDays + 1)
  }

  // ---------------------------------------------------------------------
  // What is enumerated

  /** The flights of `c` form a round trip from the origin on the days its
      offsets name, drawn from the flight list, within the price limit. */
  ghost predicate PairOk(p: Plan, c: Cand) {
    && c.trip.outbound in p.flights
    && c.trip.inbound in p.flights
    && c.trip.outbound.origin == p.origin
    && c.trip.inbound.origin == c.trip.outbound.destination
    && c.trip.inbound.destination == p.origin
    && c.trip.outbound.date == p.w.minDate + c.dep
    && c.trip.inbound.date == p.w.minDate + c.ret
    && PriceOk(TripPrice(c.trip), p.maxPrice)
  }

  /** The trip's days lie in the window and its length in `[minDays, maxDays]`. */
  ghost predicate DaysOk(p: Plan, c: Cand) {
    0 <= c.dep && c.dep + p.w.minDays <= c.ret <= c.dep + p.w.maxDays && c.ret <= p.w.Span()
  }

  /** A qualifying round trip of the plan. */
  ghost predicate Qualifies(p: Plan, c: Cand) {
    PairOk(p, c) && DaysOk(p, c) && c.trip.outbound.destination in p.dests
  }

  lemma {:induction false} OutboundPairsMember(outs: seq<Flight>, inbound: Flight, dep: int, ret: int, maxPrice: Option<int>, c: Cand)
    ensures c in OutboundPairs(outs, inbound, dep, ret, maxPrice) <==>
      c.dep == dep && c.ret == ret && c.trip.inbound == inbound && c.trip.outbound in outs &&
      PriceOk(TripPrice(c.trip), maxPrice)
  {
    if outs != [] {
      OutboundPairsMember(DropLast(outs), inbound, dep, ret, maxPrice, c);
      assert outs == DropLast(outs) + [Last(outs)];
    }
  }

  lemma {:induction false} InboundPairsMember(outs: seq<Flight>, ins: seq<Flight>, dep: int, ret: int, maxPrice: Option<int>, c: Cand)
    ensures c in InboundPairs(outs, ins, dep, ret, maxPrice) <==>
      c.dep == dep && c.ret == ret && c.trip.inbound in ins && c.trip.outbound in outs &&
      PriceOk(TripPrice(c.trip), maxPrice)
  {
    if ins != [] {
      InboundPairsMember(outs, DropLast(ins), dep, ret, maxPrice, c);
      OutboundPairsMember(outs, Last(ins), dep, ret, maxPrice, c);
      assert ins == DropLast(ins) + [Last(ins)];
    }
  }

  /** The pairs pushed for one destination `x` are the round trips to `x`. */
  lemma RoutePairsMember(p: Plan, x: AirportId, dep: int, ret: int, c: Cand)
    ensures c in InboundPairs(Outbound(p, dep, x), Inbound(p, ret, x), dep, ret, p.maxPrice) <==>
      c.dep == dep && c.ret == ret && c.trip.outbound.destination == x && PairOk(p, c)
  {
    var to, from := c.trip.outbound, c.trip.inbound;
    assert to in Outbound(p, dep, x) <==>
      to in p.flights && to.date == p.w.minDate + dep && to.origin == p.origin && to.destination == x by {
      BucketMember(p.flights, p.w.minDate + dep, p.origin, x, to);
    }
    assert from in Inbound(p, ret, x) <==>
      from in p.flights && from.date == p.w.minDate + ret && from.origin == x && from.destination == p.origin by {
      BucketMember(p.flights, p.w.minDate + ret, x, p.origin, from);
    }
    InboundPairsMember(Outbound(p, dep, x), Inbound(p, ret, x), dep, ret, p.maxPrice, c);
  }

  lemma {:induction false} DestinationPairsMember(p: Plan, xs: seq<AirportId>, dep: int, ret: int, c: Cand)
    ensures c in DestinationPairs(p, xs, dep, ret) <==>
      c.dep == dep && c.ret == ret && c.trip.outbound.destination in xs && PairOk(p, c)
  {
    if xs != [] {
      var x := Last(xs);
      DestinationPairsMember(p, DropLast(xs), dep, ret, c);
      RoutePairsMember(p, x, dep, ret, c);
      assert xs == DropLast(xs) + [x];
    }
  }

  lemma {:induction false} ReturnSweepMember(p: Plan, dep: int, end: int, c: Cand)
    ensures c in ReturnSweep(p, dep, end) <==>
      c.dep == dep && dep + p.w.minDays <= c.ret < end &&
      c.trip.outbound.destination in p.dests && PairOk(p, c)
    decreases end - dep - p.w.minDays
  {
    if end > dep + p.w.minDays {
      ReturnSweepMember(p, dep, end - 1, c);
      DestinationPairsMember(p, p.dests, dep, end - 1, c);
    }
  }

  lemma {:induction false} DepartureSweepMember(p: Plan, k: int, c: Cand)
    ensures c in DepartureSweep(p, k) <==> c.dep < k && Qualifies(p, c)
    decreases k
  {
    if k > 0 {
      DepartureSweepMember(p, k - 1, c);
      DaySweepMember(p, k - 1, c);
    }
  }

  /** The pairs of one departure day: every return day the stay bounds allow. */
  lemma DaySweepMember(p: Plan, dep: int, c: Cand)
    requires 0 <= dep
    ensures c in ReturnSweep(p, dep, ReturnEnd(p, dep)) <==> c.dep == dep && Qualifies(p, c)
  {
    ReturnSweepMember(p, dep, ReturnEnd(p, dep), c);
    ReturnBound(p, dep, c.ret);
  }

  /** The candidates are exactly the qualifying round trips: every pushed
      pair qualifies, and every qualifying pair of the data is pushed. */
  lemma CandidatesExactly(p: Plan, c: Cand)
    ensures c in Candidates(p) <==> Qualifies(p, c)
  {
    DepartureSweepMember(p, p.w.Span() - p.w.minDays + 1, c);
  }

  /** The return offsets of departure `dep` stop at `dep + maxDays` and at the span. */
  lemma ReturnBound(p: Plan, dep: int, ret: int)
    ensures ret < ReturnEnd(p, dep) <==> ret <= dep + p.w.maxDays && ret <= p.w.Span()
  {
  }

  /** A candidate of an earlier departure day is not one of day `k - 1`. */
  lemma EarlierDeparture(p: Plan, k: int, y: Cand)
    requires y in DepartureSweep(p, k - 1)
    ensures y.dep < k - 1
    ensures y !in ReturnSweep(p, k - 1, ReturnEnd(p, k - 1))
  {
    DepartureSweepMember(p, k - 1, y);
    DaySweepMember(p, k - 1, y);
  }

  // ---------------------------------------------------------------------
  // The order of enumeration

  /** (dep, ret) of `a` comes no later than that of `b`. */
  predicate DaysNoLater(a: Cand, b: Cand) {
    a.dep < b.dep || (a.dep == b.dep && a.ret <= b.ret)
  }

  predicate DayOrdered(cs: seq<Cand>) {
    forall i, j :: 0 <= i < j < |cs| ==> DaysNoLater(cs[i], cs[j])
  }

  lemma ConcatDayOrdered(a: seq<Cand>, b: seq<Cand>)
    requires DayOrdered(a) && DayOrdered(b)
    requires forall x, y :: x in a && y in b ==> DaysNoLater(x, y)
    ensures DayOrdered(a + b)
  {
    forall i, j | 0 <= i < j < |a + b| ensures DaysNoLater((a + b)[i], (a + b)[j]) {
      if j >= |a| {
        assert (a + b)[j] == b[j - |a|];
        if i >= |a| {
          assert (a + b)[i] == b[i - |a|];
        } else {
          assert (a + b)[i] == a[i];
        }
      }
    }
  }

  lemma {:induction false} ReturnSweepOrdered(p: Plan, dep: int, end: int)
    ensures DayOrdered(ReturnSweep(p, dep, end))
    decreases end - dep - p.w.minDays
  {
    if end > dep + p.w.minDays {
      ReturnSweepOrdered(p, dep, end - 1);
      var a, b := ReturnSweep(p, dep, end - 1), DestinationPairs(p, p.dests, dep, end - 1);
      forall x, y | x in a && y in b ensures DaysNoLater(x, y) {
        ReturnSweepMember(p, dep, end - 1, x);
        DestinationPairsMember(p, p.dests, dep, end - 1, y);
      }
      forall i, j | 0 <= i < j < |b| ensures DaysNoLater(b[i], b[j]) {
        DestinationPairsMember(p, p.dests, dep, end - 1, b[i]);
        DestinationPairsMember(p, p.dests, dep, end - 1, b[j]);
      }
      ConcatDayOrdered(a, b);
    }
  }

  lemma {:induction false} DepartureSweepOrdered(p: Plan, k: int)
    ensures DayOrdered(DepartureSweep(p, k))
    decreases k
  {
    if k > 0 {
      var a, b := DepartureSweep(p, k - 1), ReturnSweep(p, k - 1, ReturnEnd(p, k - 1));
      assert DayOrdered(a) by {
        DepartureSweepOrdered(p, k - 1);
      }
      assert DayOrdered(b) by {
        ReturnSweepOrdered(p, k - 1, ReturnEnd(p, k - 1));
      }
      DeparturesBefore(p, k);
      ConcatDayOrdered(a, b);
    }
  }

  /** The pairs swept before departure offset `k` depart before it. */
  lemma {:induction false} DeparturesBelow(p: Plan, k: int, x: Cand)
    ensures x in DepartureSweep(p, k) ==> x.dep < k
    decreases k
  {
    if k > 0 {
      DeparturesBelow(p, k - 1, x);
      ReturnSweepDep(p, k - 1, ReturnEnd(p, k - 1), x);
    }
  }

  /** The pairs of one departure day depart on that day. */
  lemma ReturnSweepDep(p: Plan, dep: int, end: int, y: Cand)
    ensures y in ReturnSweep(p, dep, end) ==> y.dep == dep
  {
    ReturnSweepMember(p, dep, end, y);
  }

  /** Every pair of an earlier departure day precedes those of day `k - 1`. */
  lemma DeparturesBefore(p: Plan, k: int)
    requires k > 0
    ensures forall x, y :: x in DepartureSweep(p, k - 1) && y in ReturnSweep(p, k - 1, ReturnEnd(p, k - 1)) ==> DaysNoLater(x, y)
  {
    var a, b := DepartureSweep(p, k - 1), ReturnSweep(p, k - 1, ReturnEnd(p, k - 1));
    forall x | x in a ensures x.dep < k - 1 {
      DeparturesBelow(p, k - 1, x);
    }
    forall y | y in b ensures y.dep == k - 1 {
      ReturnSweepDep(p, k - 1, ReturnEnd(p, k - 1), y);
    }
    EarlierDays(a, b, k - 1);
  }

  /** Pairs that depart before day `d` precede the pairs that depart on it. */
  lemma EarlierDays(a: seq<Cand>, b: seq<Cand>, d: int)
    requires forall x :: x in a ==> x.dep < d
    requires forall y :: y in b ==> y.dep == d
    ensures forall x, y :: x in a && y in b ==> DaysNoLater(x, y)
  {
  }

  /** The counter grows with the departure day and, within a departure day,
      with the return day. */
  lemma CandidatesDayOrdered(p: Plan)
    ensures DayOrdered(Candidates(p))
  {
    DepartureSweepOrdered(p, p.w.Span() - p.w.minDays + 1);
  }

  // ---------------------------------------------------------------------
  // The full order of the five loops

  /** Within one destination: the flight back in bucket order, then, for the
      same flight back of a bucket that lists no record twice, the flight out
      in bucket order. */
  ghost predicate FlightOrder(outs: seq<Flight>, ins: seq<Flight>, a: Cand, b: Cand) {
    && NoLaterIn(ins, a.trip.inbound, b.trip.inbound)
    && (NoDup(ins) && a.trip.inbound == b.trip.inbound ==> NoLaterIn(outs, a.trip.outbound, b.trip.outbound))
  }

  /** Within one day pair: the destination in the order of `xs`, then, for the
      same destination, the order of its two buckets. */
  ghost predicate DestOrder(p: Plan, xs: seq<AirportId>, a: Cand, b: Cand) {
    var x := a.trip.outbound.destination;
    && NoLaterIn(xs, x, b.trip.outbound.destination)
    && (x == b.trip.outbound.destination ==> FlightOrder(Outbound(p, a.dep, x), Inbound(p, a.ret, x), a, b))
  }

  /** `a` is pushed no later than `b` by the loops of lines 145-156: departure
      day, then return day, then destination, flight back and flight out. */
  ghost predicate PushOrder(p: Plan, a: Cand, b: Cand) {
    || a.dep < b.dep
    || (a.dep == b.dep && a.ret < b.ret)
    || (a.dep == b.dep && a.ret == b.ret && DestOrder(p, p.dests, a, b))
  }

  /** Line 156: the pairs with one flight back follow the flights out. */
  lemma {:induction false} OutboundPairsOrder(outs: seq<Flight>, inbound: Flight, dep: int, ret: int, maxPrice: Option<int>)
    ensures SortedBy(OutboundPairs(outs, inbound, dep, ret, maxPrice),
      (a: Cand, b: Cand) => NoLaterIn(outs, a.trip.outbound, b.trip.outbound))
  {
    if outs != [] {
      var pre := DropLast(outs);
      var a := OutboundPairs(pre, inbound, dep, ret, maxPrice);
      var b := if PriceOk(Last(outs).price + inbound.price, maxPrice) then [Cand(dep, ret, Trip(Last(outs), inbound))] else [];
      var before := (u: Cand, v: Cand) => NoLaterIn(outs, u.trip.outbound, v.trip.outbound);
      OutboundPairsOrder(pre, inbound, dep, ret, maxPrice);
      forall i, j | 0 <= i < j < |a| ensures before(a[i], a[j]) {
        NoLaterInSnoc(outs, a[i].trip.outbound, a[j].trip.outbound);
      }
      forall u, v | u in a && v in b ensures before(u, v) {
        OutboundPairsMember(pre, inbound, dep, ret, maxPrice, u);
        NoLaterInSnoc(outs, u.trip.outbound, v.trip.outbound);
      }
      ConcatSortedBy(a, b, before);
    }
  }

  /** Line 155: the pairs of one destination follow the flights back, and
      for one flight back the flights out. */
  lemma {:induction false} InboundPairsOrder(outs: seq<Flight>, ins: seq<Flight>, dep: int, ret: int, maxPrice: Option<int>)
    ensures SortedBy(InboundPairs(outs, ins, dep, ret, maxPrice), (a: Cand, b: Cand) => FlightOrder(outs, ins, a, b))
  {
    if ins != [] {
      var pre, y := DropLast(ins), Last(ins);
      var a, b := InboundPairs(outs, pre, dep, ret, maxPrice), OutboundPairs(outs, y, dep, ret, maxPrice);
      var before := (u: Cand, v: Cand) => FlightOrder(outs, ins, u, v);
      InboundPairsOrder(outs, pre, dep, ret, maxPrice);
      OutboundPairsOrder(outs, y, dep, ret, maxPrice);
      if NoDup(ins) {
        NoDupPrefix(ins);
      }
      forall i, j | 0 <= i < j < |a| ensures before(a[i], a[j]) {
        NoLaterInSnoc(ins, a[i].trip.inbound, a[j].trip.inbound);
      }
      forall i, j | 0 <= i < j < |b| ensures before(b[i], b[j]) {
        OutboundPairsMember(outs, y, dep, ret, maxPrice, b[i]);
        OutboundPairsMember(outs, y, dep, ret, maxPrice, b[j]);
        NoLaterInSnoc(ins, y, y);
      }
      forall u, v | u in a && v in b ensures before(u, v) {
        InboundPairsMember(outs, pre, dep, ret, maxPrice, u);
        OutboundPairsMember(outs, y, dep, ret, maxPrice, v);
        NoLaterInSnoc(ins, u.trip.inbound, v.trip.inbound);
      }
      ConcatSortedBy(a, b, before);
    }
  }

  /** Line 153: the pairs of one day pair follow the destinations in the
      order of `xs`, and within a destination its two buckets. */
  lemma {:induction false} DestinationPairsOrder(p: Plan, xs: seq<AirportId>, dep: int, ret: int)
    requires NoDup(xs)
    ensures SortedBy(DestinationPairs(p, xs, dep, ret), (a: Cand, b: Cand) => DestOrder(p, xs, a, b))
  {
    if xs != [] {
      var pre, x := DropLast(xs), Last(xs);
      NoDupPrefix(xs);
      var outs, ins := Outbound(p, dep, x), Inbound(p, ret, x);
      var a, b := DestinationPairs(p, pre, dep, ret), InboundPairs(outs, ins, dep, ret, p.maxPrice);
      var before := (u: Cand, v: Cand) => DestOrder(p, xs, u, v);
      DestinationPairsOrder(p, pre, dep, ret);
      InboundPairsOrder(outs, ins, dep, ret, p.maxPrice);
      forall i, j | 0 <= i < j < |a| ensures before(a[i], a[j]) {
        NoLaterInSnoc(xs, a[i].trip.outbound.destination, a[j].trip.outbound.destination);
      }
      forall i, j | 0 <= i < j < |b| ensures before(b[i], b[j]) {
        RoutePairsMember(p, x, dep, ret, b[i]);
        RoutePairsMember(p, x, dep, ret, b[j]);
        NoLaterInSnoc(xs, x, x);
      }
      forall u, v | u in a && v in b ensures before(u, v) {
        DestinationPairsMember(p, pre, dep, ret, u);
        RoutePairsMember(p, x, dep, ret, v);
        NoLaterInSnoc(xs, u.trip.outbound.destination, x);
      }
      ConcatSortedBy(a, b, before);
    }
  }

  /** Line 146: the pairs of one departure day follow the return days, and
      within a return day the order above. */
  lemma {:induction false} ReturnSweepPushOrder(p: Plan, dep: int, end: int)
    requires NoDup(p.dests)
    ensures SortedBy(ReturnSweep(p, dep, end), (a: Cand, b: Cand) => PushOrder(p, a, b))
    decreases end - dep - p.w.minDays
  {
    if end > dep + p.w.minDays {
      var a, b := ReturnSweep(p, dep, end - 1), DestinationPairs(p, p.dests, dep, end - 1);
      var before := (u: Cand, v: Cand) => PushOrder(p, u, v);
      ReturnSweepPushOrder(p, dep, end - 1);
      DestinationPairsOrder(p, p.dests, dep, end - 1);
      forall i, j | 0 <= i < j < |b| ensures before(b[i], b[j]) {
        DestinationPairsMember(p, p.dests, dep, end - 1, b[i]);
        DestinationPairsMember(p, p.dests, dep, end - 1, b[j]);
      }
      forall u, v | u in a && v in b ensures before(u, v) {
        ReturnSweepMember(p, dep, end - 1, u);
        DestinationPairsMember(p, p.dests, dep, end - 1, v);
      }
      ConcatSortedBy(a, b, before);
    }
  }

  /** Line 145: the pairs follow the departure days, and within a departure
      day the order above. */
  lemma {:induction false} DepartureSweepPushOrder(p: Plan, k: int)
    requires NoDup(p.dests)
    ensures SortedBy(DepartureSweep(p, k), (a: Cand, b: Cand) => PushOrder(p, a, b))
    decreases k
  {
    if k > 0 {
      var a, b := DepartureSweep(p, k - 1), ReturnSweep(p, k - 1, ReturnEnd(p, k - 1));
      var before := (u: Cand, v: Cand) => PushOrder(p, u, v);
      DepartureSweepPushOrder(p, k - 1);
      ReturnSweepPushOrder(p, k - 1, ReturnEnd(p, k - 1));
      forall u, v | u in a && v in b ensures before(u, v) {
        DeparturesBelow(p, k - 1, u);
        ReturnSweepDep(p, k - 1, ReturnEnd(p, k - 1), v);
      }
      ConcatSortedBy(a, b, before);
    }
  }

  /** The counter `idx` follows the order of the five nested loops. */
  lemma CandidatesPushOrder(p: Plan)
    requires NoDup(p.dests)
    ensures SortedBy(Candidates(p), (a: Cand, b: Cand) => PushOrder(p, a, b))
  {
    DepartureSweepPushOrder(p, p.w.Span() - p.w.minDays + 1);
  }

  // ---------------------------------------------------------------------
  // Each qualifying pair is pushed once

  lemma NoDupConcat(a: seq<Cand>, b: seq<Cand>)
    requires NoDup(a) && NoDup(b)
    requires forall x :: x in a ==> x !in b
    ensures NoDup(a + b)
  {
    forall i, j | 0 <= i < j < |a + b| ensures (a + b)[i] != (a + b)[j] {
      if j >= |a| {
        assert (a + b)[j] == b[j - |a|];
        if i >= |a| {
          assert (a + b)[i] == b[i - |a|];
        } else {
          assert (a + b)[i] == a[i] && a[i] in a;
        }
      }
    }
  }

  lemma {:induction false} OutboundPairsNoDup(outs: seq<Flight>, inbound: Flight, dep: int, ret: int, maxPrice: Option<int>)
    requires NoDup(outs)
    ensures NoDup(OutboundPairs(outs, inbound, dep, ret, maxPrice))
  {
    if outs != [] {
      NoDupPrefix(outs);
      OutboundPairsNoDup(DropLast(outs), inbound, dep, ret, maxPrice);
      var a := OutboundPairs(DropLast(outs), inbound, dep, ret, maxPrice);
      var c := Cand(dep, ret, Trip(Last(outs), inbound));
      OutboundPairsMember(DropLast(outs), inbound, dep, ret, maxPrice, c);
      NoDupConcat(a, [c]);
    }
  }

  lemma {:induction false} InboundPairsNoDup(outs: seq<Flight>, ins: seq<Flight>, dep: int, ret: int, maxPrice: Option<int>)
    requires NoDup(outs) && NoDup(ins)
    ensures NoDup(InboundPairs(outs, ins, dep, ret, maxPrice))
  {
    if ins != [] {
      NoDupPrefix(ins);
      InboundPairsNoDup(outs, DropLast(ins), dep, ret, maxPrice);
      OutboundPairsNoDup(outs, Last(ins), dep, ret, maxPrice);
      var a := InboundPairs(outs, DropLast(ins), dep, ret, maxPrice);
      var b := OutboundPairs(outs, Last(ins), dep, ret, maxPrice);
      forall x | x in a ensures x !in b {
        InboundPairsMember(outs, DropLast(ins), dep, ret, maxPrice, x);
        OutboundPairsMember(outs, Last(ins), dep, ret, maxPrice, x);
      }
      NoDupConcat(a, b);
    }
  }

  lemma {:induction false} DestinationPairsNoDup(p: Plan, xs: seq<AirportId>, dep: int, ret: int)
    requires NoDup(p.flights) && NoDup(xs)
    ensures NoDup(DestinationPairs(p, xs, dep, ret))
  {
    if xs != [] {
      var x := Last(xs);
      NoDupPrefix(xs);
      DestinationPairsNoDup(p, DropLast(xs), dep, ret);
      FilterNoDup(p.flights, OnRoute(p.w.minDate + dep, p.origin, x));
      FilterNoDup(p.flights, OnRoute(p.w.minDate + ret, x, p.origin));
      InboundPairsNoDup(Outbound(p, dep, x), Inbound(p, ret, x), dep, ret, p.maxPrice);
      var a := DestinationPairs(p, DropLast(xs), dep, ret);
      var b := InboundPairs(Outbound(p, dep, x), Inbound(p, ret, x), dep, ret, p.maxPrice);
      forall y | y in a ensures y !in b {
        DestinationPairsMember(p, DropLast(xs), dep, ret, y);
        InboundPairsMember(Outbound(p, dep, x), Inbound(p, ret, x), dep, ret, p.maxPrice, y);
        BucketMember(p.flights, p.w.minDate + dep, p.origin, x, y.trip.outbound);
      }
      NoDupConcat(a, b);
    }
  }

  lemma {:induction false} ReturnSweepNoDup(p: Plan, dep: int, end: int)
    requires NoDup(p.flights) && NoDup(p.dests)
    ensures NoDup(ReturnSweep(p, dep, end))
    decreases end - dep - p.w.minDays
  {
    if end > dep + p.w.minDays {
      ReturnSweepNoDup(p, dep, end - 1);
      DestinationPairsNoDup(p, p.dests, dep, end - 1);
      var a, b := ReturnSweep(p, dep, end - 1), DestinationPairs(p, p.dests, dep, end - 1);
      forall y | y in a ensures y !in b {
        ReturnSweepMember(p, dep, end - 1, y);
        DestinationPairsMember(p, p.dests, dep, end - 1, y);
      }
      NoDupConcat(a, b);
    }
  }

  lemma {:induction false} DepartureSweepNoDup(p: Plan, k: int)
    requires NoDup(p.flights) && NoDup(p.dests)
    ensures NoDup(DepartureSweep(p, k))
    decreases k
  {
    if k > 0 {
      var a, b := DepartureSweep(p, k - 1), ReturnSweep(p, k - 1, ReturnEnd(p, k - 1));
      assert NoDup(a) by {
        DepartureSweepNoDup(p, k - 1);
      }
      assert NoDup(b) by {
        ReturnSweepNoDup(p, k - 1, ReturnEnd(p, k - 1));
      }
      assert forall y :: y in a ==> y !in b by {
        forall y | y in a ensures y !in b {
          EarlierDeparture(p, k, y);
        }
      }
      NoDupConcat(a, b);
    }
  }

  /** With a flight list free of repeated records, every qualifying pair is
      pushed exactly once. */
  lemma CandidatesOnce(p: Plan)
    requires NoDup(p.flights) && NoDup(p.dests)
    ensures NoDup(Candidates(p))
  {
    DepartureSweepNoDup(p, p.w.Span() - p.w.minDays + 1);
  }

  // ---------------------------------------------------------------------
  // The loops

  /** `queue` and the counter `idx` after pushing `cs`. */
  ghost predicate Pushed(queue: seq<Entry>, idx: int, cs: seq<Cand>) {
    QueueOf(queue, cs) && idx == |cs|
  }

  lemma OutboundPairsSnoc(outs: seq<Flight>, i: nat, inbound: Flight, dep: int, ret: int, maxPrice: Option<int>)
    requires i < |outs|
    ensures OutboundPairs(outs[..i + 1], inbound, dep, ret, maxPrice) ==
      OutboundPairs(outs[..i], inbound, dep, ret, maxPrice) +
      (if PriceOk(outs[i].price + inbound.price, maxPrice) then [Cand(dep, ret, Trip(outs[i], inbound))] else [])
  {
    assert DropLast(outs[..i + 1]) == outs[..i];
  }

  /** Lines 156-162: pair `inbound` with each flight out, pushing the pairs
      within the price limit. */
  method PushOutbound(outs: seq<Flight>, inbound: Flight, dep: int, ret: int, maxPrice: Option<int>,
                      queue0: seq<Entry>, idx0: int, ghost pushed: seq<Cand>)
    returns (queue: seq<Entry>, idx: int)
    requires Pushed(queue0, idx0, pushed)
    ensures Pushed(queue, idx, pushed + OutboundPairs(outs, inbound, dep, ret, maxPrice))
  {
    queue, idx := queue0, idx0;
    ghost var cs := pushed;
    assert outs[..0] == [] && pushed + [] == pushed;
    for i := 0 to |outs|
      invariant cs == pushed + OutboundPairs(outs[..i], inbound, dep, ret, maxPrice)
      invariant Pushed(queue, idx, cs)
    {
      var to := outs[i];
      OutboundPairsSnoc(outs, i, inbound, dep, ret, maxPrice);
      AppendAssoc(pushed, OutboundPairs(outs[..i], inbound, dep, ret, maxPrice), [Cand(dep, ret, Trip(to, inbound))]);
      var fullPrice := to.price + inbound.price;
      if maxPrice.None? || fullPrice <= maxPrice.value {
        var c := Cand(dep, ret, Trip(to, inbound));
        QueueOfPush(queue, cs, c);
        queue := Insert(queue, Entry(fullPrice, dep, ret, idx, Trip(to, inbound)));
        idx := idx + 1;
        cs := cs + [c];
      }
    }
    assert outs[..|outs|] == outs;
  }

  lemma InboundPairsSnoc(outs: seq<Flight>, ins: seq<Flight>, i: nat, dep: int, ret: int, maxPrice: Option<int>)
    requires i < |ins|
    ensures InboundPairs(outs, ins[..i + 1], dep, ret, maxPrice) ==
      InboundPairs(outs, ins[..i], dep, ret, maxPrice) + OutboundPairs(outs, ins[i], dep, ret, maxPrice)
  {
    assert DropLast(ins[..i + 1]) == ins[..i];
  }

  /** Line 155: each flight back from the destination on the return day. */
  method PushInbound(outs: seq<Flight>, ins: seq<Flight>, dep: int, ret: int, maxPrice: Option<int>,
                     queue0: seq<Entry>, idx0: int, ghost pushed: seq<Cand>)
    returns (queue: seq<Entry>, idx: int)
    requires Pushed(queue0, idx0, pushed)
    ensures Pushed(queue, idx, pushed + InboundPairs(outs, ins, dep, ret, maxPrice))
  {
    queue, idx := queue0, idx0;
    ghost var cs := pushed;
    assert ins[..0] == [] && pushed + [] == pushed;
    for i := 0 to |ins|
      invariant cs == pushed + InboundPairs(outs, ins[..i], dep, ret, maxPrice)
      invariant Pushed(queue, idx, cs)
    {
      InboundPairsSnoc(outs, ins, i, dep, ret, maxPrice);
      AppendAssoc(pushed, InboundPairs(outs, ins[..i], dep, ret, maxPrice), OutboundPairs(outs, ins[i], dep, ret, maxPrice));
      queue, idx := PushOutbound(outs, ins[i], dep, ret, maxPrice, queue, idx, cs);
      cs := cs + OutboundPairs(outs, ins[i], dep, ret, maxPrice);
    }
    assert ins[..|ins|] == ins;
  }

  /** The plan fits its index and its window is usable. */
  ghost predicate IndexedPlan(index: Index, p: Plan) {
    && Covers(index, p.dests, p.w.minDate, p.w.maxDate)
    && Holds(index, p.flights)
    && 1 <= p.w.minDays
  }

  /** The index answers both lookups of a destination with its buckets. */
  lemma IndexLookup(index: Index, p: Plan, dep: int, ret: int, x: AirportId)
    requires IndexedPlan(index, p) && p.origin in p.dests && x in p.dests
    requires 0 <= dep <= p.w.Span() && 0 <= ret <= p.w.Span()
    ensures (p.w.minDate + dep, p.origin, x) in index && index[(p.w.minDate + dep, p.origin, x)] == Outbound(p, dep, x)
    ensures (p.w.minDate + ret, x, p.origin) in index && index[(p.w.minDate + ret, x, p.origin)] == Inbound(p, ret, x)
  {
  }

  /** Lines 153 and 155: the flights out to `x` on the departure day and
      back from `x` on the return day. */
  method LookupRoute(index: Index, p: Plan, dep: int, ret: int, x: AirportId)
    returns (toFlights: seq<Flight>, fromFlights: seq<Flight>)
    requires IndexedPlan(index, p) && p.origin in p.dests && x in p.dests
    requires 0 <= dep <= p.w.Span() && 0 <= ret <= p.w.Span()
    ensures toFlights == Outbound(p, dep, x) && fromFlights == Inbound(p, ret, x)
  {
    IndexLookup(index, p, dep, ret, x);
    toFlights := index[(p.w.minDate + dep, p.origin, x)];
    fromFlights := index[(p.w.minDate + ret, x, p.origin)];
  }

  lemma DestinationPairsSnoc(p: Plan, i: nat, dep: int, ret: int)
    requires i < |p.dests|
    ensures DestinationPairs(p, p.dests[..i + 1], dep, ret) ==
      DestinationPairs(p, p.dests[..i], dep, ret) +
      InboundPairs(Outbound(p, dep, p.dests[i]), Inbound(p, ret, p.dests[i]), dep, ret, p.maxPrice)
  {
    assert DropLast(p.dests[..i + 1]) == p.dests[..i];
  }

  /** Line 153: each destination of the index entry for (departure day,
      origin), with its flights out and the matching flights back. */
  method PushDestinations(index: Index, p: Plan, dep: int, ret: int,
                          queue0: seq<Entry>, idx0: int, ghost pushed: seq<Cand>)
    returns (queue: seq<Entry>, idx: int)
    requires IndexedPlan(index, p) && p.origin in p.dests
    requires 0 <= dep <= p.w.Span() && 0 <= ret <= p.w.Span()
    requires Pushed(queue0, idx0, pushed)
    ensures Pushed(queue, idx, pushed + DestinationPairs(p, p.dests, dep, ret))
  {
    queue, idx := queue0, idx0;
    ghost var cs := pushed;
    assert p.dests[..0] == [] && pushed + [] == pushed;
    for i := 0 to |p.dests|
      invariant cs == pushed + DestinationPairs(p, p.dests[..i], dep, ret)
      invariant Pushed(queue, idx, cs)
    {
      var x := p.dests[i];
      var toFlights, fromFlights := LookupRoute(index, p, dep, ret, x);
      ghost var more := InboundPairs(toFlights, fromFlights, dep, ret, p.maxPrice);
      assert cs + more == pushed + DestinationPairs(p, p.dests[..i + 1], dep, ret) by {
        DestinationPairsSnoc(p, i, dep, ret);
        AppendAssoc(pushed, DestinationPairs(p, p.dests[..i], dep, ret), more);
      }
      queue, idx := PushInbound(toFlights, fromFlights, dep, ret, p.maxPrice, queue, idx, cs);
      cs := cs + more;
    }
    assert p.dests[..|p.dests|] == p.dests;
  }

  /** Line 146: the return days of one departure day. When the origin is not
      among the indexed airports the lookup at line 153 raises at the first
      return day; `crashed` reports it. */
  method PushReturnDays(index: Index, p: Plan, dep: int,
                        queue0: seq<Entry>, idx0: int, ghost pushed: seq<Cand>)
    returns (queue: seq<Entry>, idx: int, crashed: bool)
    requires IndexedPlan(index, p)
    requires 0 <= dep
    requires Pushed(queue0, idx0, pushed)
    ensures crashed <==> p.origin !in p.dests && dep + p.w.minDays < ReturnEnd(p, dep)
    ensures !crashed ==> Pushed(queue, idx, pushed + ReturnSweep(p, dep, ReturnEnd(p, dep)))
  {
    queue, idx, crashed := queue0, idx0, false;
    ghost var cs := pushed;
    var first, end := dep + p.w.minDays, ReturnEnd(p, dep);
    var stop := Max(end, first);
    assert pushed + [] == pushed;
    for ret := first to stop
      invariant p.origin !in p.dests ==> ret == first
      invariant cs == pushed + ReturnSweep(p, dep, ret)
      invariant Pushed(queue, idx, cs)
    {
      if p.origin !in p.dests {
        crashed := true;
        return;
      }
      ghost var more := DestinationPairs(p, p.dests, dep, ret);
      ReturnStep(p, dep, ret, pushed);
      queue, idx := PushDestinations(index, p, dep, ret, queue, idx, cs);
      cs := cs + more;
    }
    ReturnSweepDone(p, dep, first, end, stop);
  }

  /** One return day of the sweep: it lies in the window, and its pairs extend the sweep. */
  lemma ReturnStep(p: Plan, dep: int, ret: int, pushed: seq<Cand>)
    requires 1 <= p.w.minDays && 0 <= dep
    requires dep + p.w.minDays <= ret < ReturnEnd(p, dep)
    ensures 0 <= dep <= p.w.Span() && 0 <= ret <= p.w.Span()
    ensures pushed + ReturnSweep(p, dep, ret) + DestinationPairs(p, p.dests, dep, ret) ==
      pushed + ReturnSweep(p, dep, ret + 1)
  {
    AppendAssoc(pushed, ReturnSweep(p, dep, ret), DestinationPairs(p, p.dests, dep, ret));
  }

  /** Where the return-day loop stops, the sweep is complete. */
  lemma ReturnSweepDone(p: Plan, dep: int, first: int, end: int, stop: int)
    requires first == dep + p.w.minDays && end == ReturnEnd(p, dep) && stop == Max(end, first)
    ensures ReturnSweep(p, dep, stop) == ReturnSweep(p, dep, end)
    ensures first < end <==> first < stop
  {
  }

  /** The return days of departure `dep` are not empty only when the window
      has day pairs at all, and for the first departure day exactly then. */
  lemma DayPairsFrom(p: Plan, dep: int)
    requires 0 <= dep
    ensures dep + p.w.minDays < ReturnEnd(p, dep) ==> HasDayPairs(p.w)
    ensures dep == 0 ==> (dep + p.w.minDays < ReturnEnd(p, dep) <==> HasDayPairs(p.w))
  {
  }

  lemma NothingToDepart(p: Plan)
    requires p.w.Span() - p.w.minDays + 1 <= 0
    ensures Candidates(p) == []
  {
  }

  /** Lines 140-162: the whole enumeration. It fails exactly when the origin
      is not indexed and some day pair is visited; otherwise the queue holds
      every candidate, numbered in the order of enumeration. */
  method Enumerate(index: Index, p: Plan) returns (queue: seq<Entry>, crashed: bool)
    requires IndexedPlan(index, p)
    ensures crashed <==> p.origin !in p.dests && HasDayPairs(p.w)
    ensures !crashed ==> queue == Ranked(Candidates(p))
  {
    queue, crashed := [], false;
    var idx := 0;
    var departures := p.w.Span() - p.w.minDays + 1;
    for dep := 0 to Max(departures, 0)
      invariant p.origin !in p.dests && HasDayPairs(p.w) ==> dep == 0
      invariant Pushed(queue, idx, DepartureSweep(p, dep))
    {
      queue, idx, crashed := PushReturnDays(index, p, dep, queue, idx, DepartureSweep(p, dep));
      if crashed {
        assert HasDayPairs(p.w) by {
          DayPairsFrom(p, dep);
        }
        return;
      }
      assert !(p.origin !in p.dests && HasDayPairs(p.w)) by {
        DayPairsFrom(p, dep);
      }
    }
    if departures <= 0 {
      NothingToDepart(p);
    }
    QueueOfRanked(queue, Candidates(p));
  }
}
