/** The airport dictionary of the search and the allow-list / deny-list
    filtering of it (cheapest_flights.py, lines 57-73). The dictionary is kept
    as its key sequence: Python dictionaries iterate in insertion order, and the
    order of the keys is the order in which destinations are enumerated later. */
module DestinationFilter {
  import opened FlightData
  import opened Seqs
  import opened Validation

  /** The keys of `{airport['id']: airport for airport in airports}`: each id
      once, at the place of its first occurrence. */
  function AirportIds(airports: seq<Airport>): (ids: seq<AirportId>)
    ensures NoDup(ids)
    ensures forall a :: a in airports ==> a.id in ids
    ensures forall x :: x in ids ==> exists a :: a in airports && a.id == x
  {
    if airports == [] then []
    else
      var pre := AirportIds(DropLast(airports));
      assert forall a :: a in airports ==> a in DropLast(airports) || a == Last(airports) by {
        assert airports == DropLast(airports) + [Last(airports)];
      }
      if Last(airports).id in pre then pre else pre + [Last(airports).id]
  }

  /** The index of the first airport whose id is `x`, or `|airports|` when none has it. */
  function FirstAt(airports: seq<Airport>, x: AirportId): (k: nat)
    ensures k <= |airports|
  {
    if airports == [] then 0
    else
      var k := FirstAt(DropLast(airports), x);
      if k < |airports| - 1 then k
      else if Last(airports).id == x then |airports| - 1
      else |airports|
  }

  /** `FirstAt` finds an airport with id `x` and none before it. */
  lemma {:induction false} FirstAtSpec(airports: seq<Airport>, x: AirportId)
    ensures FirstAt(airports, x) < |airports| ==> airports[FirstAt(airports, x)].id == x
    ensures forall j :: 0 <= j < |airports| && j < FirstAt(airports, x) ==> airports[j].id != x
  {
    if airports != [] {
      FirstAtSpec(DropLast(airports), x);
      assert forall j :: 0 <= j < |airports| - 1 ==> DropLast(airports)[j] == airports[j];
    }
  }

  /** An id is a key exactly when some airport carries it, that is when `FirstAt` finds it. */
  lemma FirstAtFound(airports: seq<Airport>, x: AirportId)
    ensures x in AirportIds(airports) <==> FirstAt(airports, x) < |airports|
  {
    FirstAtSpec(airports, x);
    if x in AirportIds(airports) {
      var a :| a in airports && a.id == x;
      var j :| 0 <= j < |airports| && airports[j] == a;
    }
  }

  /** Appending an airport keeps where the earlier keys first occur, and a
      new key first occurs at the appended place. */
  lemma FirstAtSnoc(airports: seq<Airport>, x: AirportId)
    requires airports != [] && x in AirportIds(airports)
    ensures var pre := DropLast(airports);
      x in AirportIds(pre) ==> FirstAt(airports, x) == FirstAt(pre, x) < |pre|
    ensures var pre := DropLast(airports);
      x !in AirportIds(pre) ==>
        FirstAt(airports, x) == |pre| && AirportIds(airports) == AirportIds(pre) + [x]
  {
    FirstAtFound(DropLast(airports), x);
  }

  /** The keys stand in the order of their ids' first occurrences. Together
      with the contract of `AirportIds` this fixes the key sequence. */
  lemma {:induction false} AirportIdsOrder(airports: seq<Airport>)
    ensures forall i, j :: 0 <= i < j < |AirportIds(airports)| ==>
      FirstAt(airports, AirportIds(airports)[i]) < FirstAt(airports, AirportIds(airports)[j])
  {
    if airports != [] {
      var ids := AirportIds(airports);
      AirportIdsOrder(DropLast(airports));
      forall i, j | 0 <= i < j < |ids| ensures FirstAt(airports, ids[i]) < FirstAt(airports, ids[j]) {
        FirstAtSnoc(airports, ids[i]);
        FirstAtSnoc(airports, ids[j]);
      }
    }
  }

  /** The test of the allow-list loop: an id survives when it is the origin or listed. */
  function Selected(origin: AirportId, selected: seq<AirportId>): AirportId -> bool {
    id => id == origin || id in selected
  }

  /** The deny-list as a test: an id survives when it is not listed. */
  function NotExcluded(excluded: seq<AirportId>): AirportId -> bool {
    id => id !in excluded
  }

  function Other(key: AirportId): AirportId -> bool {
    id => id != key
  }

  /** `dict.pop(key, None)` on the key sequence. */
  function RemoveKey(keys: seq<AirportId>, key: AirportId): seq<AirportId> {
    Filter(keys, Other(key))
  }

  lemma PopMiddle(done: seq<AirportId>, key: AirportId, rest: seq<AirportId>)
    requires key !in done && key !in rest
    ensures RemoveKey(done + [key] + rest, key) == done + rest
  {
    var p := Other(key);
    assert Filter(done + [key], p) == done by {
      FilterSnoc(done, key, p);
      FilterKeepsAll(done, p);
    }
    assert Filter(rest, p) == rest by {
      FilterKeepsAll(rest, p);
    }
    FilterConcat(done + [key], rest, p);
  }

  /** The list around the key at `i`, and the kept prefix one key further. */
  lemma PopSplit(keys: seq<AirportId>, i: nat, keep: AirportId -> bool, live: seq<AirportId>)
    requires i < |keys|
    requires live == Filter(keys[..i], keep) + keys[i..]
    ensures live == Filter(keys[..i], keep) + [keys[i]] + keys[i + 1..]
    ensures Filter(keys[..i + 1], keep) == Filter(keys[..i], keep) + (if keep(keys[i]) then [keys[i]] else [])
  {
    assert keys[i..] == [keys[i]] + keys[i + 1..];
    AppendAssoc(Filter(keys[..i], keep), [keys[i]], keys[i + 1..]);
    assert keys[..i + 1] == keys[..i] + [keys[i]];
    FilterSnoc(keys[..i], keys[i], keep);
  }

  /** One turn of the allow-list loop over a snapshot of distinct keys. */
  lemma PopStep(keys: seq<AirportId>, i: nat, keep: AirportId -> bool, live: seq<AirportId>)
    requires NoDup(keys) && i < |keys|
    requires live == Filter(keys[..i], keep) + keys[i..]
    ensures keep(keys[i]) ==> live == Filter(keys[..i + 1], keep) + keys[i + 1..]
    ensures !keep(keys[i]) ==> RemoveKey(live, keys[i]) == Filter(keys[..i + 1], keep) + keys[i + 1..]
  {
    var id := keys[i];
    var done, rest := Filter(keys[..i], keep), keys[i + 1..];
    PopSplit(keys, i, keep, live);
    if !keep(id) {
      assert id !in done && id !in rest by {
        NotAround(keys, i);
        FilterMember(keys[..i], keep, id);
      }
      PopMiddle(done, id, rest);
    }
  }

  /** Lines 65-68: walk a snapshot of the keys, popping every id that is
      neither the origin nor in the allow-list. */
  method SelectDestinations(keys: seq<AirportId>, origin: AirportId, selected: seq<AirportId>)
    returns (live: seq<AirportId>)
    requires NoDup(keys)
    ensures live == Filter(keys, Selected(origin, selected))
  {
    live := keys;
    for i := 0 to |keys|
      invariant live == Filter(keys[..i], Selected(origin, selected)) + keys[i..]
    {
      var id := keys[i];
      PopStep(keys, i, Selected(origin, selected), live);
      if origin != id && id !in selected {
        live := RemoveKey(live, id);
      }
    }
    assert keys[..|keys|] == keys;
  }

  /** One turn of the deny-list loop: popping one more id is filtering by one more entry of the list. */
  lemma ExcludeStep(keys: seq<AirportId>, excluded: seq<AirportId>, i: nat)
    requires i < |excluded|
    ensures RemoveKey(Filter(keys, NotExcluded(excluded[..i])), excluded[i]) ==
      Filter(keys, NotExcluded(excluded[..i + 1]))
  {
    assert excluded[..i + 1] == excluded[..i] + [excluded[i]];
    FilterFilter(keys, NotExcluded(excluded[..i]), Other(excluded[i]), NotExcluded(excluded[..i + 1]));
  }

  /** Lines 71-73: pop every id of the deny-list, ignoring ids that are absent. */
  method ExcludeDestinations(keys: seq<AirportId>, excluded: seq<AirportId>)
    returns (live: seq<AirportId>)
    ensures live == Filter(keys, NotExcluded(excluded))
  {
    FilterKeepsAll(keys, NotExcluded([]));
    live := keys;
    for i := 0 to |excluded|
      invariant live == Filter(keys, NotExcluded(excluded[..i]))
    {
      ExcludeStep(keys, excluded, i);
      live := RemoveKey(live, excluded[i]);
    }
    assert excluded[..|excluded|] == excluded;
  }

  /** The destination set after both filters, in dictionary order. */
  function Destinations(ids: seq<AirportId>, q: Request): seq<AirportId> {
    var allowed := if q.selected.Some? then Filter(ids, Selected(q.origin, q.selected.value)) else ids;
    if q.excluded.Some? then Filter(allowed, NotExcluded(q.excluded.value)) else allowed
  }

  /** What survives the filters of a well-formed request: with an allow-list
      exactly the origin and the listed ids present in the data; with a
      deny-list exactly the present ids not listed, the origin included in
      what is removed; with neither every id. Survivors keep their order and
      stay distinct. */
  lemma {:induction false} DestinationsSpec(ids: seq<AirportId>, q: Request)
    requires NoDup(ids)
    requires Obeys(q, DestinationLists)
    ensures q.selected.Some? ==>
      forall id :: id in Destinations(ids, q) <==> id in ids && (id == q.origin || id in q.selected.value)
    ensures q.excluded.Some? ==>
      forall id :: id in Destinations(ids, q) <==> id in ids && id !in q.excluded.value
    ensures q.selected.None? && q.excluded.None? ==> Destinations(ids, q) == ids
    ensures Subseq(Destinations(ids, q), ids)
    ensures NoDup(Destinations(ids, q))
  {
    if q.selected.Some? {
      forall id ensures id in Destinations(ids, q) <==> id in ids && (id == q.origin || id in q.selected.value) {
        FilterMember(ids, Selected(q.origin, q.selected.value), id);
      }
      FilterSubseq(ids, Selected(q.origin, q.selected.value));
      FilterNoDup(ids, Selected(q.origin, q.selected.value));
    } else if q.excluded.Some? {
      forall id ensures id in Destinations(ids, q) <==> id in ids && id !in q.excluded.value {
        FilterMember(ids, NotExcluded(q.excluded.value), id);
      }
      FilterSubseq(ids, NotExcluded(q.excluded.value));
      FilterNoDup(ids, NotExcluded(q.excluded.value));
    } else {
      SubseqRefl(ids);
    }
  }
}
