/** The date range of the flight data and the effective date and duration
    windows of a search (cheapest_flights.py, lines 77-118). */
module DateWindow {
  import opened FlightData
  import opened Seqs
  import opened Validation
  import opened Arith

  /** The date of the earliest flight. */
  function EarliestDate(flights: seq<Flight>): int
    requires |flights| > 0
  {
    if |flights| == 1 then flights[0].date
    else Min(EarliestDate(DropLast(flights)), Last(flights).date)
  }

  /** The date of the latest flight. */
  function LatestDate(flights: seq<Flight>): int
    requires |flights| > 0
  {
    if |flights| == 1 then flights[0].date
    else Max(LatestDate(DropLast(flights)), Last(flights).date)
  }

  /** The range spans the flights' dates exactly: both ends are dates of
      flights, and every flight lies between them. */
  lemma {:induction false} DateRangeSpec(flights: seq<Flight>)
    requires |flights| > 0
    ensures exists i :: 0 <= i < |flights| && flights[i].date == EarliestDate(flights)
    ensures exists i :: 0 <= i < |flights| && flights[i].date == LatestDate(flights)
    ensures forall i :: 0 <= i < |flights| ==> EarliestDate(flights) <= flights[i].date <= LatestDate(flights)
  {
    if |flights| > 1 {
      var pre := DropLast(flights);
      DateRangeSpec(pre);
      var j :| 0 <= j < |pre| && pre[j].date == EarliestDate(pre);
      var k :| 0 <= k < |pre| && pre[k].date == LatestDate(pre);
      assert flights[j] == pre[j] && flights[k] == pre[k];
      var lo := if EarliestDate(pre) <= Last(flights).date then j else |flights| - 1;
      var hi := if LatestDate(pre) >= Last(flights).date then k else |flights| - 1;
      assert flights[lo].date == EarliestDate(flights) && flights[hi].date == LatestDate(flights);
      forall i | 0 <= i < |flights| ensures EarliestDate(flights) <= flights[i].date <= LatestDate(flights) {
        if i < |pre| {
          assert flights[i] == pre[i];
        }
      }
    } else {
      assert flights[0].date == EarliestDate(flights) == LatestDate(flights);
    }
  }

  /** One more flight widens the range to its date. */
  lemma RangeSnoc(flights: seq<Flight>, i: nat)
    requires i < |flights|
    ensures i == 0 ==> EarliestDate(flights[..1]) == flights[0].date == LatestDate(flights[..1])
    ensures i > 0 ==> EarliestDate(flights[..i + 1]) == Min(EarliestDate(flights[..i]), flights[i].date)
    ensures i > 0 ==> LatestDate(flights[..i + 1]) == Max(LatestDate(flights[..i]), flights[i].date)
  {
    assert DropLast(flights[..i + 1]) == flights[..i];
  }

  /** Lines 77-87: one pass over the flights widening `date_range`, which
      stays `None` when there are no flights. */
  method ScanDateRange(flights: seq<Flight>) returns (range: Option<(int, int)>)
    ensures range.None? <==> flights == []
    ensures range.Some? ==> range.value == (EarliestDate(flights), LatestDate(flights))
  {
    range := None;
    for i := 0 to |flights|
      invariant i == 0 <==> range.None?
      invariant i > 0 ==> range.value == (EarliestDate(flights[..i]), LatestDate(flights[..i]))
    {
      var date := flights[i].date;
      RangeSnoc(flights, i);
      if range.None? {
        range := Some((date, date));
      } else {
        var (lo, hi) := range.value;
        range := Some((Min(date, lo), Max(date, hi)));
      }
    }
    assert flights[..|flights|] == flights;
  }

  /** The effective bounds of a search: dates of departure and return lie in
      `[minDate, maxDate]`, a trip lasts `minDays` to `maxDays` days. */
  datatype Window = Window(minDate: int, maxDate: int, minDays: int, maxDays: int) {
    /** `date_range_days`: the days between the first and last usable date. */
    function Span(): int { maxDate - minDate }
  }

  /** `r` is the point of `[lo, hi]` nearest to `v`. */
  predicate Nearest(v: int, lo: int, hi: int, r: int) {
    lo <= r <= hi && (lo <= v <= hi ==> r == v) && (v < lo ==> r == lo) && (hi < v ==> r == hi)
  }

  /** Lines 92-95: the earliest departure date, defaulting to the first
      flight date and otherwise clamped into `[lo, hi]`. */
  function FirstDate(minDate: Option<int>, lo: int, hi: int): (d: int)
    requires lo <= hi
    ensures lo <= d <= hi
    ensures minDate.None? ==> d == lo
    ensures minDate.Some? ==> Nearest(minDate.value, lo, hi, d)
  {
    if minDate.None? then lo else Max(Min(minDate.value, hi), lo)
  }

  /** Lines 98-101: the latest return date, defaulting to the last flight
      date and otherwise clamped into `[lo, hi]`. */
  function FinalDate(maxDate: Option<int>, lo: int, hi: int): (d: int)
    requires lo <= hi
    ensures lo <= d <= hi
    ensures maxDate.None? ==> d == hi
    ensures maxDate.Some? ==> Nearest(maxDate.value, lo, hi, d)
  {
    if maxDate.None? then hi else Min(Max(maxDate.value, lo), hi)
  }

  /** Lines 108-112: the shortest stay, defaulting to one day and otherwise
      clamped into `[1, span]`; 1 when the span is below one day. */
  function ShortestStay(minDays: Option<int>, span: int): (d: int)
    ensures 1 <= d <= Max(span, 1)
    ensures minDays.None? ==> d == 1
    ensures minDays.Some? && 1 <= span ==> Nearest(minDays.value, 1, span, d)
  {
    if minDays.None? then 1 else Max(Min(minDays.value, span), 1)
  }

  /** Lines 114-118: the longest stay, defaulting to the span and otherwise
      clamped into `[1, span]`; the span itself when it is below one day. */
  function LongestStay(maxDays: Option<int>, span: int): (d: int)
    ensures d <= span
    ensures maxDays.None? || span < 1 ==> d == span
    ensures maxDays.Some? && 1 <= span ==> Nearest(maxDays.value, 1, span, d)
  {
    if maxDays.None? then span else Min(Max(maxDays.value, 1), span)
  }

  /** The enumeration visits at least one (departure, return) day pair. */
  predicate HasDayPairs(w: Window) {
    w.minDays <= w.Span() && w.minDays <= w.maxDays
  }

  /** Lines 91-118, for the data's date range `[lo, hi]`: both dates lie in
      the data's range, and the stays are clamped to the span between them. */
  function EffectiveWindow(lo: int, hi: int, q: Request): (w: Window)
    requires lo <= hi
    ensures lo <= w.minDate <= hi && lo <= w.maxDate <= hi
    ensures w.minDate == FirstDate(q.minDate, lo, hi) && w.maxDate == FinalDate(q.maxDate, lo, hi)
    ensures w.minDays == ShortestStay(q.minDays, w.Span()) && w.maxDays == LongestStay(q.maxDays, w.Span())
  {
    var minDate := FirstDate(q.minDate, lo, hi);
    var maxDate := FinalDate(q.maxDate, lo, hi);
    var span := maxDate - minDate;
    Window(minDate, maxDate, ShortestStay(q.minDays, span), LongestStay(q.maxDays, span))
  }

  /** Once the request has passed validation the window is never inverted,
      the durations are ordered whenever the span is positive, and some day
      pair is enumerated exactly when the span is at least one day. */
  lemma ValidatedWindow(lo: int, hi: int, q: Request)
    requires lo <= hi
    ensures Obeys(q, DatesOrder) ==> EffectiveWindow(lo, hi, q).minDate <= EffectiveWindow(lo, hi, q).maxDate
    ensures Obeys(q, DaysOrder) && 1 <= EffectiveWindow(lo, hi, q).Span() ==>
      1 <= EffectiveWindow(lo, hi, q).minDays <= EffectiveWindow(lo, hi, q).maxDays
    ensures Obeys(q, DatesOrder) && Obeys(q, DaysOrder) ==>
      (HasDayPairs(EffectiveWindow(lo, hi, q)) <==> 1 <= EffectiveWindow(lo, hi, q).Span())
  {
  }
}
