/** The pop loop that ends the search (cheapest_flights.py, lines 164-184):
    `n` pops from the queue, each popped trip yielded unless its destination
    already had `max_flights_per_airport` trips yielded. */
module Emission {
  import opened FlightData
  import opened Seqs
  import opened Arith
  import opened TripQueue

  function Destination(e: Entry): AirportId {
    e.trip.outbound.destination
  }

  /** How many entries of `es` fly to `a`. */
  function CountDest(es: seq<Entry>, a: AirportId): (k: nat)
    ensures k <= |es|
  {
    if es == [] then 0
    else CountDest(DropLast(es), a) + (if Destination(Last(es)) == a then 1 else 0)
  }

  /** The popped entries that are yielded, in the order popped: an entry is
      dropped when its destination has already had `cap` entries yielded. */
  function Capped(es: seq<Entry>, cap: Option<int>): (r: seq<Entry>)
    ensures |r| <= |es|
  {
    if es == [] then []
    else
      var kept := Capped(DropLast(es), cap);
      if cap.None? || CountDest(kept, Destination(Last(es))) < cap.value then kept + [Last(es)] else kept
  }

  /** Lines 164-168, with Python's `range`: the number of pops. */
  function Pops(n: Option<int>, size: nat): (k: nat)
    ensures k <= size
    ensures n.None? ==> k == size
    ensures n.Some? && n.value >= 0 ==> k == Min(n.value, size)
  {
    var limit := if n.None? then size else Min(n.value, size);
    if limit < 0 then 0 else limit
  }

  /** The entries yielded from queue `q`. */
  function Emit(q: seq<Entry>, n: Option<int>, cap: Option<int>): seq<Entry> {
    Capped(q[..Pops(n, |q|)], cap)
  }

  function TripsOf(es: seq<Entry>): (ts: seq<Trip>)
    ensures |ts| == |es|
    ensures forall i :: 0 <= i < |es| ==> ts[i] == es[i].trip
  {
    seq(|es|, i requires 0 <= i < |es| => es[i].trip)
  }

  // ---------------------------------------------------------------------
  // What the cap keeps

  lemma CountDestSnoc(es: seq<Entry>, e: Entry, a: AirportId)
    ensures CountDest(es + [e], a) == CountDest(es, a) + (if Destination(e) == a then 1 else 0)
  {
    assert DropLast(es + [e]) == es;
  }

  /** Without a cap every popped entry is yielded. */
  lemma {:induction false} UncappedKeepsAll(es: seq<Entry>)
    ensures Capped(es, None) == es
  {
    if es != [] {
      UncappedKeepsAll(DropLast(es));
      assert DropLast(es) + [Last(es)] == es;
    }
  }

  /** With cap `k`, each destination has the smaller of `k` and its number of
      popped entries yielded: never more than the cap, and no entry dropped
      while its destination is under the cap. */
  lemma {:induction false} CappedCount(es: seq<Entry>, k: int, a: AirportId)
    requires k >= 0
    ensures CountDest(Capped(es, Some(k)), a) == Min(k, CountDest(es, a))
  {
    if es != [] {
      var pre, e := DropLast(es), Last(es);
      CappedCount(pre, k, a);
      CappedCount(pre, k, Destination(e));
      var kept := Capped(pre, Some(k));
      CountDestSnoc(kept, e, a);
      assert es == pre + [e];
      CountDestSnoc(pre, e, a);
    }
  }

  /** The yielded entries keep the order in which they were popped. */
  lemma {:induction false} CappedSubseq(es: seq<Entry>, cap: Option<int>)
    ensures Subseq(Capped(es, cap), es)
  {
    if es == [] {
    } else {
      var pre, e := DropLast(es), Last(es);
      CappedSubseq(pre, cap);
      SubseqOfSnoc(Capped(pre, cap), pre, e);
      assert pre + [e] == es;
    }
  }

  lemma {:induction false} CappedMember(es: seq<Entry>, cap: Option<int>, x: Entry)
    ensures x in Capped(es, cap) ==> x in es
  {
    if es != [] {
      var pre := DropLast(es);
      CappedMember(pre, cap, x);
      assert es == pre + [Last(es)];
    }
  }

  /** Entries popped from an ascending queue are yielded in ascending order. */
  lemma {:induction false} CappedAscending(es: seq<Entry>, cap: Option<int>)
    requires Ascending(es)
    ensures Ascending(Capped(es, cap))
  {
    if es != [] {
      var pre, e := DropLast(es), Last(es);
      assert Ascending(pre) by {
        forall i, j | 0 <= i < j < |pre| ensures Before(pre[i], pre[j]) {
          assert pre[i] == es[i] && pre[j] == es[j];
        }
      }
      CappedAscending(pre, cap);
      var kept := Capped(pre, cap);
      forall x | x in kept ensures Before(x, e) {
        CappedMember(pre, cap, x);
        var i :| 0 <= i < |pre| && pre[i] == x;
        assert es[i] == x;
      }
      if cap.None? || CountDest(kept, Destination(e)) < cap.value {
        forall i, j | 0 <= i < j < |kept + [e]| ensures Before((kept + [e])[i], (kept + [e])[j]) {
          assert (kept + [e])[i] == kept[i];
          if j < |kept| {
            assert (kept + [e])[j] == kept[j];
          } else {
            assert kept[i] in kept;
          }
        }
      }
    }
  }

  /** Without a cap the yielded entries are the first `Pops` of the queue. */
  lemma EmitUncapped(q: seq<Entry>, n: Option<int>)
    ensures Emit(q, n, None) == q[..Pops(n, |q|)]
  {
    UncappedKeepsAll(q[..Pops(n, |q|)]);
  }

  /** Only popped entries are yielded: those among the first `Pops(n, |q|)` of the queue. */
  lemma EmitMember(q: seq<Entry>, n: Option<int>, cap: Option<int>, e: Entry)
    ensures e in Emit(q, n, cap) ==> e in q[..Pops(n, |q|)]
    ensures e in Emit(q, n, cap) ==> e in q
  {
    CappedMember(q[..Pops(n, |q|)], cap, e);
  }

  /** Popping an ascending queue yields ascending entries. */
  lemma EmitAscending(q: seq<Entry>, n: Option<int>, cap: Option<int>)
    requires Ascending(q)
    ensures Ascending(Emit(q, n, cap))
  {
    CappedAscending(q[..Pops(n, |q|)], cap);
  }

  // ---------------------------------------------------------------------
  // The loop

  /** The counts of the `visited_airports` dictionary: an entry per
      destination, counting the trips yielded to it. */
  ghost predicate Tallies(visited: map<AirportId, int>, dests: seq<AirportId>, yielded: seq<Entry>) {
    forall a :: a in dests ==> a in visited && visited[a] == CountDest(yielded, a)
  }

  /** Yielding `e` adds one to the count of its destination. */
  lemma TalliesPush(visited: map<AirportId, int>, dests: seq<AirportId>, yielded: seq<Entry>, e: Entry)
    requires Tallies(visited, dests, yielded) && Destination(e) in dests
    ensures Tallies(visited[Destination(e) := visited[Destination(e)] + 1], dests, yielded + [e])
  {
    forall a | a in dests ensures CountDest(yielded + [e], a) == CountDest(yielded, a) + (if Destination(e) == a then 1 else 0) {
      CountDestSnoc(yielded, e, a);
    }
  }

  lemma TripsOfSnoc(es: seq<Entry>, e: Entry)
    ensures TripsOf(es + [e]) == TripsOf(es) + [e.trip]
  {
  }

  lemma CappedSnoc(es: seq<Entry>, e: Entry, cap: Option<int>)
    ensures Capped(es + [e], cap) ==
      var kept := Capped(es, cap);
      if cap.None? || CountDest(kept, Destination(e)) < cap.value then kept + [e] else kept
  {
    assert DropLast(es + [e]) == es;
  }

  /** `heappop` on the queue that remains after `popped`. */
  lemma PopHead(popped: seq<Entry>, queue: seq<Entry>, queue0: seq<Entry>)
    requires popped + queue == queue0 && queue != []
    ensures (popped + [queue[0]]) + queue[1..] == queue0
  {
    assert queue == [queue[0]] + queue[1..];
  }

  /** Lines 179-183, one pass of the loop: pop the head of the queue and
      yield its trip unless its destination already had `cap` trips, then
      count it in `visited_airports`. */
  method PopOnce(queue: seq<Entry>, visited: Option<map<AirportId, int>>, trips: seq<Trip>,
                 cap: Option<int>, dests: seq<AirportId>, ghost popped: seq<Entry>, ghost yielded: seq<Entry>)
    returns (rest: seq<Entry>, visited': Option<map<AirportId, int>>, trips': seq<Trip>, ghost yielded': seq<Entry>)
    requires queue != [] && Destination(queue[0]) in dests
    requires yielded == Capped(popped, cap) && trips == TripsOf(yielded)
    requires cap.Some? ==> visited.Some? && Tallies(visited.value, dests, yielded)
    requires cap.None? ==> visited.None?
    ensures rest == queue[1..]
    ensures yielded' == Capped(popped + [queue[0]], cap) && trips' == TripsOf(yielded')
    ensures cap.Some? ==> visited'.Some? && Tallies(visited'.value, dests, yielded')
    ensures cap.None? ==> visited'.None?
  {
    var e := queue[0];
    rest := queue[1..];
    CappedSnoc(popped, e, cap);
    var to := e.trip.outbound.destination;
    visited', trips', yielded' := visited, trips, yielded;
    if visited.None? || visited.value[to] < cap.value {
      TripsOfSnoc(yielded, e);
      trips' := trips + [e.trip];
      yielded' := yielded + [e];
      if visited.Some? {
        TalliesPush(visited.value, dests, yielded, e);
        visited' := Some(visited.value[to := visited.value[to] + 1]);
      }
    }
  }

  /** Lines 164-184: `n` (at most the queue's size) pops, yielding the trips
      whose destination is under the cap. Every popped trip flies to one of
      the destinations `dests` that key `visited_airports`. */
  method EmitTrips(queue0: seq<Entry>, n: Option<int>, cap: Option<int>, dests: seq<AirportId>)
    returns (trips: seq<Trip>)
    requires forall i :: 0 <= i < |queue0| ==> Destination(queue0[i]) in dests
    ensures trips == TripsOf(Emit(queue0, n, cap))
  {
    var count := if n.None? then |queue0| else Min(n.value, |queue0|);
    var visited: Option<map<AirportId, int>> := None;
    if cap.Some? {
      visited := Some(map a | a in dests :: 0);
    }
    var queue := queue0;
    ghost var popped: seq<Entry> := [];
    ghost var yielded: seq<Entry> := [];
    trips := [];
    var i := 0;
    ghost var total := Pops(n, |queue0|);
    assert total == if count <= 0 then 0 else count;
    while i < count
      invariant 0 <= i <= total
      invariant |popped| == i && popped + queue == queue0
      invariant yielded == Capped(popped, cap)
      invariant trips == TripsOf(yielded)
      invariant cap.Some? ==> visited.Some? && Tallies(visited.value, dests, yielded)
      invariant cap.None? ==> visited.None?
      decreases count - i
    {
      var e := queue[0];
      assert e == queue0[i];
      PopHead(popped, queue, queue0);
      queue, visited, trips, yielded := PopOnce(queue, visited, trips, cap, dests, popped, yielded);
      popped := popped + [e];
      i := i + 1;
    }
    assert popped == queue0[..i];
  }
}
