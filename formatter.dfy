/** `TripFormatter.format` (cheapest_flights.py, lines 187-220): one line of
    text per round trip. Dates are day numbers here; how a day number is
    written as `yyyy-mm-dd` is the parameter `showDate`. */
module Formatting {
  import opened FlightData
  import opened Seqs
  import opened Arith
  import opened DestinationFilter

  // ---------------------------------------------------------------------
  // Numbers

  function DigitChar(d: int): char
    requires 0 <= d < 10
  {
    ('0' as int + d) as char
  }

  function DigitValue(c: char): int {
    c as int - '0' as int
  }

  predicate IsDigits(s: string) {
    forall i :: 0 <= i < |s| ==> '0' <= s[i] <= '9'
  }

  /** The value of a string of decimal digits. */
  function ParseDecimal(s: string): (n: nat)
    requires IsDigits(s)
  {
    if s == [] then 0 else ParseDecimal(DropLast(s)) * 10 + DigitValue(Last(s))
  }

  /** `%d` of a natural number: its decimal digits, with no leading zero. */
  function Decimal(n: nat): (s: string)
    ensures IsDigits(s)
    ensures |s| >= 1 && (|s| == 1 <==> n < 10)
    ensures s[0] == '0' <==> n == 0
    decreases n
  {
    if n < 10 then [DigitChar(n)] else Decimal(n / 10) + [DigitChar(n % 10)]
  }

  /** Reading back the digits gives the number. */
  lemma {:induction false} DecimalRoundTrip(n: nat)
    ensures ParseDecimal(Decimal(n)) == n
  {
    if n >= 10 {
      DecimalRoundTrip(n / 10);
      assert DropLast(Decimal(n)) == Decimal(n / 10);
    }
  }

  /** A leading zero does not change the value. */
  lemma {:induction false} LeadingZero(s: string)
    requires IsDigits(s)
    ensures IsDigits("0" + s) && ParseDecimal("0" + s) == ParseDecimal(s)
  {
    if s != [] {
      LeadingZero(DropLast(s));
      assert DropLast("0" + s) == "0" + DropLast(s);
    }
  }

  /** An optional minus sign followed by at least one digit. */
  predicate IsSigned(s: string) {
    (|s| >= 1 && IsDigits(s)) || (|s| >= 2 && s[0] == '-' && IsDigits(s[1..]))
  }

  function ParseSigned(s: string): int
    requires IsSigned(s)
  {
    if s[0] == '-' then -(ParseDecimal(s[1..]) as int) else ParseDecimal(s)
  }

  /** `%d` of an integer. */
  function SignedDecimal(n: int): (s: string)
    ensures IsSigned(s) && ParseSigned(s) == n
    ensures s[0] == '-' <==> n < 0
    ensures |s| == 1 <==> 0 <= n < 10
    ensures 0 <= n ==> s == Decimal(n)
    ensures n < 0 ==> s == "-" + Decimal(-n)
    ensures 0 < n ==> s[0] != '0'
    ensures n < 0 ==> |s| >= 2 && s[1] != '0'
  {
    if n < 0 then DecimalRoundTrip(-n); "-" + Decimal(-n)
    else DecimalRoundTrip(n); Decimal(n)
  }

  /** `%02d`: at least two characters, a zero in front of a single digit;
      the minus sign of a negative number counts towards the width. */
  function ZeroPad2(n: int): (s: string)
    ensures |s| >= 2 && (0 <= n < 100 ==> |s| == 2)
    ensures IsSigned(s) && ParseSigned(s) == n
    ensures 0 <= n < 10 ==> s == "0" + Decimal(n)
    ensures !(0 <= n < 10) ==> s == SignedDecimal(n)
  {
    if 0 <= n < 10 then
      var d := SignedDecimal(n);
      LeadingZero(d);
      "0" + d
    else
      assert n >= 100 ==> n / 10 >= 10;
      SignedDecimal(n)
  }

  /** `%0.2f` of a whole amount: its digits followed by `.00`. */
  function Money(total: int): (s: string)
    ensures |s| >= 4 && s[|s| - 3..] == ".00"
    ensures IsSigned(s[..|s| - 3]) && ParseSigned(s[..|s| - 3]) == total
    ensures s[..|s| - 3] == SignedDecimal(total)
  {
    var d := SignedDecimal(total);
    assert (d + ".00")[..|d|] == d;
    d + ".00"
  }

  // ---------------------------------------------------------------------
  // The destination label

  function Spaces(k: nat): (s: string)
    ensures |s| == k && forall i :: 0 <= i < k ==> s[i] == ' '
  {
    seq(k, _ => ' ')
  }

  /** `%-20.20s` with 20 as `width`: cut to `width` characters, then padded
      with spaces on the right to `width`. */
  function FitWidth(s: string, width: nat): (r: string)
    ensures |r| == width
    ensures r[..Min(|s|, width)] == s[..Min(|s|, width)]
    ensures forall i :: Min(|s|, width) <= i < width ==> r[i] == ' '
  {
    var t := if |s| <= width then s else s[..width];
    t + Spaces(width - |t|)
  }

  /** The airport as the line names it: the fitted name and ` (iata)` when
      the airport has both, the fitted name alone without an IATA code, and
      the airport id when it has no name. */
  function Label(a: Airport): (r: string)
    ensures a.name.None? ==> r == a.id
    ensures a.name.Some? ==> |r| >= 20 && r[..20] == FitWidth(a.name.value, 20)
    ensures a.name.Some? && a.iata.None? ==> |r| == 20
    ensures a.name.Some? && a.iata.Some? ==> r[20..] == " (" + a.iata.value + ")"
  {
    match a.name
    case None => a.id
    case Some(name) =>
      match a.iata
      case None => FitWidth(name, 20)
      case Some(code) => FitWidth(name, 20) + " (" + code + ")"
  }

  // ---------------------------------------------------------------------
  // The formatter

  /** `{airport['id']: airport for airport in airports}`: each key maps to
      an airport with that id. */
  function AirportMap(airports: seq<Airport>): (m: map<AirportId, Airport>)
    ensures forall x :: x in m ==> m[x].id == x
  {
    if airports == [] then map[]
    else AirportMap(DropLast(airports))[Last(airports).id := Last(airports)]
  }

  /** Every listed id is a key, and each key maps to an airport of the list. */
  lemma {:induction false} AirportMapSpec(airports: seq<Airport>)
    ensures forall i :: 0 <= i < |airports| ==> airports[i].id in AirportMap(airports)
    ensures forall x :: x in AirportMap(airports) ==> AirportMap(airports)[x] in airports
  {
    if airports != [] {
      var pre := DropLast(airports);
      AirportMapSpec(pre);
      assert forall i :: 0 <= i < |pre| ==> pre[i] == airports[i];
    }
  }

  /** The map and the key sequence of the search are built from the same
      dictionary: they have the same keys. */
  lemma {:induction false} AirportMapKeys(airports: seq<Airport>)
    ensures forall x :: x in AirportMap(airports) <==> x in AirportIds(airports)
  {
    if airports != [] {
      AirportMapKeys(DropLast(airports));
    }
  }

  /** The airport the map keeps for an id is the last one listed with it. */
  lemma {:induction false} AirportMapLast(airports: seq<Airport>, i: nat)
    requires i < |airports|
    requires forall j :: i < j < |airports| ==> airports[j].id != airports[i].id
    ensures airports[i].id in AirportMap(airports) && AirportMap(airports)[airports[i].id] == airports[i]
  {
    if i < |airports| - 1 {
      AirportMapLast(DropLast(airports), i);
    }
  }

  /** The number of days between the two flights of a trip. */
  function Duration(to: Flight, from: Flight): int {
    from.date - to.date
  }

  lemma Enclosed(head: string, middle: string, tail: string)
    ensures (head + middle + tail)[..|head|] == head
    ensures (head + middle + tail)[|head + middle + tail| - |tail|..] == tail
  {
  }

  datatype TripFormatter = TripFormatter(airports: map<AirportId, Airport>) {

    /** The line for the trip `to`, `from`; `None` is the `KeyError` of an
        unknown destination. It opens with the destination's label and the
        duration in days, and closes with the total price of both flights in
        the currency of the flight out. */
    function Format(to: Flight, from: Flight, showDate: int -> string): (r: Option<string>)
      ensures r.None? <==> to.destination !in airports
      ensures r.Some? ==>
        var head := "round-trip to " + Label(airports[to.destination]) + " " + ZeroPad2(Duration(to, from)) + " days (";
        |r.value| >= |head| && r.value[..|head|] == head
      ensures r.Some? ==>
        var tail := ") for " + Money(TripPrice(Trip(to, from))) + " " + to.currency;
        |r.value| >= |tail| && r.value[|r.value| - |tail|..] == tail
    {
      if to.destination !in airports then None
      else
        var head := "round-trip to " + Label(airports[to.destination]) + " " + ZeroPad2(Duration(to, from)) + " days (";
        var dates := showDate(to.date) + " - " + showDate(from.date);
        var tail := ") for " + Money(to.price + from.price) + " " + to.currency;
        Enclosed(head, dates, tail);
        Some(head + dates + tail)
    }
  }
}
