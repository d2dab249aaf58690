/** The priority queue `flight_queue` of the search. `heapq` keeps a binary
    heap in a list; this model keeps the list in ascending order instead,
    which pops the same entries in the same order: `heappush` becomes an
    ordered insertion and `heappop` takes the head. */
module TripQueue {
  import opened FlightData
  import opened Seqs

  /** One heap tuple `(full_price, departure_day, return_day, idx, to_flight,
      from_flight)`; the flights sit in `trip`. */
  datatype Entry = Entry(price: int, dep: int, ret: int, idx: int, trip: Trip)

  /** Python's tuple order on the first four components. Two entries never
      share `idx`, so the flights are never compared. */
  predicate Before(a: Entry, b: Entry) {
    a.price < b.price ||
    (a.price == b.price &&
     (a.dep < b.dep ||
      (a.dep == b.dep &&
       (a.ret < b.ret ||
        (a.ret == b.ret && a.idx < b.idx)))))
  }

  predicate Ascending(q: seq<Entry>) {
    forall i, j :: 0 <= i < j < |q| ==> Before(q[i], q[j])
  }

  /** `heappush`: place `e` before the first entry it comes before. */
  function Insert(q: seq<Entry>, e: Entry): seq<Entry> {
    if q == [] then [e]
    else if Before(e, q[0]) then [e] + q
    else [q[0]] + Insert(q[1..], e)
  }

  /** The queue gains exactly `e`. */
  lemma {:induction false} InsertMultiset(q: seq<Entry>, e: Entry)
    ensures multiset(Insert(q, e)) == multiset(q) + multiset{e}
  {
    if q != [] && !Before(e, q[0]) {
      InsertMultiset(q[1..], e);
      assert q == [q[0]] + q[1..];
    }
  }

  lemma AscendingCons(x: Entry, s: seq<Entry>)
    requires Ascending(s)
    requires forall y :: y in s ==> Before(x, y)
    ensures Ascending([x] + s)
  {
    forall i, j | 0 <= i < j < |[x] + s| ensures Before(([x] + s)[i], ([x] + s)[j]) {
      if i > 0 {
        assert ([x] + s)[i] == s[i - 1];
      }
      assert ([x] + s)[j] == s[j - 1];
    }
  }

  /** A queue in ascending order stays so when the pushed entry carries a
      counter value not yet in it. */
  lemma {:induction false} InsertAscending(q: seq<Entry>, e: Entry)
    requires Ascending(q)
    requires forall x :: x in q ==> x.idx != e.idx
    ensures Ascending(Insert(q, e))
  {
    if q == [] {
    } else if Before(e, q[0]) {
      forall y | y in q ensures Before(e, y) {
        var j :| 0 <= j < |q| && q[j] == y;
        assert j == 0 || Before(q[0], q[j]);
      }
      AscendingCons(e, q);
    } else {
      var tail := q[1..];
      assert Ascending(tail) by {
        forall i, j | 0 <= i < j < |tail| ensures Before(tail[i], tail[j]) {
          assert tail[i] == q[i + 1] && tail[j] == q[j + 1];
        }
      }
      InsertAscending(tail, e);
      InsertMultiset(tail, e);
      var rest := Insert(tail, e);
      forall y | y in rest ensures Before(q[0], y) {
        assert y in multiset(rest);
        if y != e {
          var j :| 0 <= j < |tail| && tail[j] == y;
          assert q[j + 1] == y;
        }
      }
      AscendingCons(q[0], rest);
    }
  }

  /** A pushed candidate before it is numbered: day offsets and flights. */
  datatype Cand = Cand(dep: int, ret: int, trip: Trip)

  function EntryOf(c: Cand, idx: int): Entry {
    Entry(TripPrice(c.trip), c.dep, c.ret, idx, c.trip)
  }

  /** Candidates with the counter value `idx` each was pushed with. */
  function Numbered(cs: seq<Cand>): (es: seq<Entry>)
    ensures |es| == |cs|
  {
    seq(|cs|, i requires 0 <= i < |cs| => EntryOf(cs[i], i))
  }

  /** The queue after pushing `cs` in order, the i-th with counter value i. */
  function Ranked(cs: seq<Cand>): seq<Entry> {
    if cs == [] then []
    else Insert(Ranked(DropLast(cs)), EntryOf(Last(cs), |cs| - 1))
  }

  /** Pushing the next candidate with the next counter value extends the
      queue of all candidates pushed so far. */
  lemma PushNext(cs: seq<Cand>, c: Cand)
    ensures Ranked(cs + [c]) == Insert(Ranked(cs), EntryOf(c, |cs|))
  {
    assert DropLast(cs + [c]) == cs;
  }

  /** The queue holds exactly the numbered candidates. */
  lemma {:induction false} RankedMultiset(cs: seq<Cand>)
    ensures multiset(Ranked(cs)) == multiset(Numbered(cs))
  {
    if cs != [] {
      var pre := DropLast(cs);
      RankedMultiset(pre);
      InsertMultiset(Ranked(pre), EntryOf(Last(cs), |cs| - 1));
      assert Numbered(cs) == Numbered(pre) + [EntryOf(Last(cs), |cs| - 1)];
    }
  }

  /** Pushing with increasing counter values keeps the queue ascending. */
  lemma {:induction false} RankedAscending(cs: seq<Cand>)
    ensures Ascending(Ranked(cs))
  {
    if cs != [] {
      var pre := DropLast(cs);
      RankedAscending(pre);
      RankedMultiset(pre);
      var q := Ranked(pre);
      forall x | x in q ensures x.idx != |cs| - 1 {
        assert x in multiset(Numbered(pre));
      }
      InsertAscending(q, EntryOf(Last(cs), |cs| - 1));
    }
  }

  /** The queue holds exactly the numbered candidates, in ascending order, and
      each entry is the candidate its counter value numbers. */
  lemma RankedSpec(cs: seq<Cand>)
    ensures Ascending(Ranked(cs))
    ensures multiset(Ranked(cs)) == multiset(Numbered(cs))
    ensures |Ranked(cs)| == |cs|
    ensures forall e :: e in Ranked(cs) ==> 0 <= e.idx < |cs| && e == EntryOf(cs[e.idx], e.idx)
  {
    RankedAscending(cs);
    RankedMultiset(cs);
    var r := Ranked(cs);
    assert |r| == |multiset(r)| == |multiset(Numbered(cs))| == |cs|;
    forall e | e in r ensures 0 <= e.idx < |cs| && e == EntryOf(cs[e.idx], e.idx) {
      assert e in multiset(Numbered(cs));
    }
  }

  /** The head of an ascending queue comes before every other entry. */
  lemma HeadFirst(q: seq<Entry>, x: Entry)
    requires Ascending(q) && x in q
    ensures x == q[0] || Before(q[0], x)
  {
    var i :| 0 <= i < |q| && q[i] == x;
    assert i == 0 || Before(q[0], q[i]);
  }

  /** Two ascending queues holding the same entries are the same queue. */
  lemma {:induction false} AscendingUnique(a: seq<Entry>, b: seq<Entry>)
    requires Ascending(a) && Ascending(b) && multiset(a) == multiset(b)
    ensures a == b
  {
    if a != [] {
      assert a[0] in multiset(b);
      assert b != [] && b[0] in multiset(a);
      HeadFirst(b, a[0]);
      HeadFirst(a, b[0]);
      TailMultiset(a, b);
      AscendingTail(a);
      AscendingTail(b);
      AscendingUnique(a[1..], b[1..]);
      assert a == [a[0]] + a[1..] && b == [b[0]] + b[1..];
    } else {
      assert |b| == |multiset(b)| == 0;
    }
  }

  lemma AscendingTail(a: seq<Entry>)
    requires Ascending(a) && a != []
    ensures Ascending(a[1..])
  {
    forall i, j | 0 <= i < j < |a[1..]| ensures Before(a[1..][i], a[1..][j]) {
      assert a[1..][i] == a[i + 1] && a[1..][j] == a[j + 1];
    }
  }

  /** Equal multisets with equal first elements have equal tails. */
  lemma TailMultiset<T>(a: seq<T>, b: seq<T>)
    requires a != [] && b != [] && a[0] == b[0] && multiset(a) == multiset(b)
    ensures multiset(a[1..]) == multiset(b[1..])
  {
    assert a == [a[0]] + a[1..];
    assert b == [b[0]] + b[1..];
    forall z ensures multiset(a[1..])[z] == multiset(b[1..])[z] {
      assert multiset(a)[z] == multiset{a[0]}[z] + multiset(a[1..])[z];
      assert multiset(b)[z] == multiset{b[0]}[z] + multiset(b[1..])[z];
    }
  }

  /** What the queue is after pushing `cs` in order, stated without building
      it: ascending, and holding exactly the numbered candidates. */
  ghost predicate QueueOf(q: seq<Entry>, cs: seq<Cand>) {
    Ascending(q) && multiset(q) == multiset(Numbered(cs))
  }

  /** `heappush` of the next candidate with the next counter value. */
  lemma QueueOfPush(q: seq<Entry>, cs: seq<Cand>, c: Cand)
    requires QueueOf(q, cs)
    ensures QueueOf(Insert(q, EntryOf(c, |cs|)), cs + [c])
  {
    forall x | x in q ensures x.idx != |cs| {
      assert x in multiset(Numbered(cs));
    }
    InsertAscending(q, EntryOf(c, |cs|));
    InsertMultiset(q, EntryOf(c, |cs|));
    assert Numbered(cs + [c]) == Numbered(cs) + [EntryOf(c, |cs|)];
  }

  /** The characterisation determines the queue: it is `Ranked(cs)`. */
  lemma QueueOfRanked(q: seq<Entry>, cs: seq<Cand>)
    requires QueueOf(q, cs)
    ensures q == Ranked(cs)
  {
    RankedSpec(cs);
    AscendingUnique(q, Ranked(cs));
  }
}
