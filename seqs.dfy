/** Order-preserving filtering and subsequences, shared by the destination
    filter, the flight index and the capped emission. */
module Seqs {

  function Last<T>(s: seq<T>): T
    requires |s| > 0
  {
    s[|s| - 1]
  }

  function DropLast<T>(s: seq<T>): seq<T>
    requires |s| > 0
  {
    s[..|s| - 1]
  }

  predicate NoDup<T(==)>(s: seq<T>) {
    forall i, j :: 0 <= i < j < |s| ==> s[i] != s[j]
  }

  /** `a` is `b` with some elements left out, the rest in their order. */
  predicate Subseq<T(==)>(a: seq<T>, b: seq<T>)
    decreases |b|
  {
    a == [] ||
    (b != [] &&
     ((Last(a) == Last(b) && Subseq(DropLast(a), DropLast(b))) || Subseq(a, DropLast(b))))
  }

  /** The elements of `s` that satisfy `p`, in the order of `s`. */
  function Filter<T>(s: seq<T>, p: T -> bool): (r: seq<T>)
    ensures |r| <= |s|
  {
    if s == [] then []
    else Filter(DropLast(s), p) + (if p(Last(s)) then [Last(s)] else [])
  }

  lemma AppendAssoc<T>(a: seq<T>, b: seq<T>, c: seq<T>)
    ensures a + b + c == a + (b + c)
  {
  }

  lemma {:induction false} FilterMember<T>(s: seq<T>, p: T -> bool, x: T)
    ensures x in Filter(s, p) <==> x in s && p(x)
  {
    if s != [] {
      FilterMember(DropLast(s), p, x);
      assert s == DropLast(s) + [Last(s)];
    }
  }

  lemma FilterSnoc<T>(s: seq<T>, x: T, p: T -> bool)
    ensures Filter(s + [x], p) == Filter(s, p) + (if p(x) then [x] else [])
  {
    assert DropLast(s + [x]) == s;
  }

  lemma {:induction false} FilterConcat<T>(a: seq<T>, b: seq<T>, p: T -> bool)
    ensures Filter(a + b, p) == Filter(a, p) + Filter(b, p)
    decreases |b|
  {
    if b == [] {
      assert a + b == a;
    } else {
      assert DropLast(a + b) == a + DropLast(b);
      FilterConcat(a, DropLast(b), p);
    }
  }

  /** Filtering keeps a sequence whose every element passes. */
  lemma {:induction false} FilterKeepsAll<T>(s: seq<T>, p: T -> bool)
    requires forall x :: x in s ==> p(x)
    ensures Filter(s, p) == s
  {
    if s != [] {
      assert Filter(DropLast(s), p) == DropLast(s) by {
        assert forall i :: 0 <= i < |s| - 1 ==> DropLast(s)[i] == s[i];
        FilterKeepsAll(DropLast(s), p);
      }
      assert p(Last(s)) by {
        assert Last(s) == s[|s| - 1];
      }
      assert DropLast(s) + [Last(s)] == s;
    }
  }

  /** Two filters in a row are one filter by the conjunction. */
  lemma {:induction false} FilterFilter<T>(s: seq<T>, p: T -> bool, q: T -> bool, both: T -> bool)
    requires forall x :: both(x) == (p(x) && q(x))
    ensures Filter(Filter(s, p), q) == Filter(s, both)
  {
    if s != [] {
      var pre, x := DropLast(s), Last(s);
      FilterFilter(pre, p, q, both);
      assert Filter(s, both) == Filter(pre, both) + (if both(x) then [x] else []);
      if p(x) {
        assert Filter(s, p) == Filter(pre, p) + [x];
        FilterSnoc(Filter(pre, p), x, q);
      } else {
        assert Filter(s, p) == Filter(pre, p);
        assert !both(x);
        assert Filter(s, both) == Filter(pre, both);
      }
    }
  }

  lemma {:induction false} FilterNoDup<T>(s: seq<T>, p: T -> bool)
    requires NoDup(s)
    ensures NoDup(Filter(s, p))
  {
    if s != [] {
      var pre := DropLast(s);
      assert NoDup(pre) by {
        forall i, j | 0 <= i < j < |pre| ensures pre[i] != pre[j] {
          assert pre[i] == s[i] && pre[j] == s[j];
        }
      }
      FilterNoDup(pre, p);
      FilterMember(pre, p, Last(s));
      assert Last(s) !in pre by {
        forall i | 0 <= i < |pre| ensures pre[i] != Last(s) {
          assert pre[i] == s[i];
        }
      }
    }
  }

  lemma {:induction false} SubseqOfSnoc<T>(a: seq<T>, b: seq<T>, x: T)
    requires Subseq(a, b)
    ensures Subseq(a, b + [x]) && Subseq(a + [x], b + [x])
  {
    assert DropLast(b + [x]) == b;
    assert DropLast(a + [x]) == a;
  }

  /** What a filter keeps stands in the order of the filtered sequence. */
  lemma {:induction false} FilterSubseq<T>(s: seq<T>, p: T -> bool)
    ensures Subseq(Filter(s, p), s)
  {
    if s != [] {
      var pre, x := DropLast(s), Last(s);
      FilterSubseq(pre, p);
      SubseqOfSnoc(Filter(pre, p), pre, x);
      assert pre + [x] == s;
      if p(x) {
        assert Filter(s, p) == Filter(pre, p) + [x];
      } else {
        assert Filter(s, p) == Filter(pre, p);
      }
    }
  }

  /** An element of a list without repeats occurs neither before nor after its place. */
  lemma NotAround<T>(s: seq<T>, i: nat)
    requires NoDup(s) && i < |s|
    ensures s[i] !in s[..i] && s[i] !in s[i + 1..]
  {
    forall j | 0 <= j < |s| && j != i ensures s[j] != s[i] { }
  }

  /** Dropping the last element keeps a list free of repeats, and the last element is not in the rest. */
  lemma NoDupPrefix<T>(s: seq<T>)
    requires |s| > 0 && NoDup(s)
    ensures NoDup(DropLast(s)) && Last(s) !in DropLast(s)
  {
    assert forall i :: 0 <= i < |DropLast(s)| ==> DropLast(s)[i] == s[i];
  }

  lemma {:induction false} SubseqRefl<T>(s: seq<T>)
    ensures Subseq(s, s)
  {
    if s != [] {
      SubseqRefl(DropLast(s));
    }
  }

  /** `x` stands no later than `y` in `s`: some occurrence of `x` comes at or
      before some occurrence of `y`. */
  predicate NoLaterIn<T(==)>(s: seq<T>, x: T, y: T) {
    exists a, b :: 0 <= a <= b < |s| && s[a] == x && s[b] == y
  }

  /** Appending to `s` keeps what stood in order, and puts the new last
      element after everything before it. */
  lemma NoLaterInSnoc<T>(s: seq<T>, x: T, y: T)
    requires s != []
    ensures NoLaterIn(DropLast(s), x, y) ==> NoLaterIn(s, x, y)
    ensures x in DropLast(s) && y == Last(s) ==> NoLaterIn(s, x, y)
    ensures x == Last(s) && y == Last(s) ==> NoLaterIn(s, x, y)
  {
    var n := |s| - 1;
    if NoLaterIn(DropLast(s), x, y) {
      var a, b :| 0 <= a <= b < n && DropLast(s)[a] == x && DropLast(s)[b] == y;
      assert s[a] == x && s[b] == y;
    }
    if x in DropLast(s) && y == Last(s) {
      var a :| 0 <= a < n && DropLast(s)[a] == x;
      assert s[a] == x && s[n] == y;
    }
    if x == Last(s) && y == Last(s) {
      assert s[n] == x && s[n] == y;
    }
  }

  /** Every earlier element of `s` is related to every later one by `before`. */
  predicate SortedBy<T>(s: seq<T>, before: (T, T) -> bool) {
    forall i, j :: 0 <= i < j < |s| ==> before(s[i], s[j])
  }

  lemma ConcatSortedBy<T>(a: seq<T>, b: seq<T>, before: (T, T) -> bool)
    requires SortedBy(a, before) && SortedBy(b, before)
    requires forall x, y :: x in a && y in b ==> before(x, y)
    ensures SortedBy(a + b, before)
  {
    forall i, j | 0 <= i < j < |a + b| ensures before((a + b)[i], (a + b)[j]) {
      if j >= |a| {
        assert (a + b)[j] == b[j - |a|];
        if i >= |a| {
          assert (a + b)[i] == b[i - |a|];
        } else {
          assert (a + b)[i] == a[i] && a[i] in a;
        }
      }
    }
  }
}
