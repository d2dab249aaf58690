# Cheapest round trips: a verified model of flycatcher's search

flycatcher's `find_cheapest_flights` searches a list of one-way flights for
round trips from one origin airport. It yields them cheapest first. This
project models the search, and `TripFormatter.format` which formats one trip as a line of text,
in Dafny, and proves what the search promises.

The search runs as a pipeline. Each stage is a module here:

| stage | source lines | module |
|---|---|---|
| parameter checks | 40-55 | `Validation` |
| airport dictionary, allow-list and deny-list | 57-73 | `DestinationFilter` |
| date range of the data, effective date and stay window | 77-118 | `DateWindow` |
| (date, origin, destination) index | 123-138 | `FlightIndex` |
| the heap `flight_queue` | 159-160, 179 | `TripQueue` |
| enumeration of day pairs, destinations and flight pairs | 140-162 | `Enumeration` |
| `n` pops under the per-destination cap | 164-184 | `Emission` |
| the whole generator | 10-184 | `CheapestFlights` |
| the one-line trip formatter | 186-220 | `Formatting` |
| what the search promises, end to end | | `SearchProperties` |

Each loop of the search is a method. Each method is proved against a function
that states the loop's result as a value:
- The airport-filter loops produce `Filter` of the key sequence.
- The date scan produces `EarliestDate` and `LatestDate`.
- The index loop produces buckets given by `Bucket`.
- The five nested push loops produce `Ranked(Candidates(p))`: the queue after
  pushing every candidate with its counter value, in enumeration order.
- The pop loop produces `Emit`: the first `n` entries, less those the cap
  drops.

`FindCheapestFlights` chains the methods. Its result equals `Search`, and
`SearchProperties` proves the search's promises about `Search`.

Records are Dafny datatypes:
- Dates are whole day numbers.
- Prices are exact integers.
- An airport's optional `name` and `iata` keys are `Option`s.

A Python dictionary iterates in insertion order. The airport dictionary is
therefore kept as its key sequence, and that order is the order in which
destinations are enumerated.

`heapq` is replaced by a list kept in ascending order of
`(price, departure_day, return_day, idx)`. No two entries share `idx`, so
this order is total, and the list pops the same entries in the same order as
the binary heap.

A `ValueError` or a crash of the generator becomes an `Error` value:
- `InvalidParameter(p)` for the check about `p`;
- `UnknownAirport` for lines 61-62;
- `NoFlights` for the unpacking of an unset `date_range` at line 89;
- `OriginNotIndexed` for the `KeyError` at line 153.

The model follows the code where its documentation says otherwise:
- `n = 0` passes the checks, although the message of line 41 says "larger
  than 0". Such a search yields nothing (`ZeroLimit`).
- The deny-list removes the origin like any other id. The search then fails
  at line 153, but only if some day pair is enumerated, that is when the
  window spans at least one day (`DenyListedOrigin`).
- An empty flight list is an error, not an empty result.
- Trips dropped by the cap still use up `n`: the loop pops `n` times
  (`SearchCap`).
- The origin is enumerated as a destination as well. It yields trips only if
  the data has flights from the origin to itself.

## Model

| member | source | states |
|---|---|---|
| Validation.Validate | cheapest_flights.py:40-55 | A request passes exactly when it obeys all eight rules (`n >= 0`, positive `min_days`, `max_days`, `max_price` and cap, ordered days and dates, not both lists). A rejection names a broken rule, and every rule checked before it is obeyed. |
| DestinationFilter.AirportIds | cheapest_flights.py:59 | The dictionary's keys: each id once, every listed airport's id present, and every key the id of a listed airport. |
| DestinationFilter.FirstAtSpec | cheapest_flights.py:59 | `FirstAt` is the index of the first airport with the id: the airport there has it and none before it does. |
| DestinationFilter.FirstAtFound | cheapest_flights.py:59 | An id is a key iff some airport has it. |
| DestinationFilter.FirstAtSnoc | cheapest_flights.py:59 | Inserting one more airport keeps the first occurrence of an existing key. A new key is appended, and it first occurs at the new airport. |
| DestinationFilter.AirportIdsOrder | cheapest_flights.py:59 | Keys are in insertion order: each key's first occurrence comes before the next key's. With `AirportIds` this fixes the key sequence. |
| DestinationFilter.PopMiddle | cheapest_flights.py:68 | `pop` of a key that occurs once removes it and leaves the keys before and after it in place. |
| DestinationFilter.PopStep | cheapest_flights.py:66-68 | One turn of the allow-list loop: a kept id leaves the live keys as they are, and popping a dropped id extends the filtered prefix by one key. |
| DestinationFilter.SelectDestinations | cheapest_flights.py:65-68 | The loop leaves exactly the keys that are the origin or listed, in dictionary order. |
| DestinationFilter.ExcludeStep | cheapest_flights.py:72-73 | One turn of the deny-list loop: popping the next listed id equals filtering by one more deny-list entry. |
| DestinationFilter.ExcludeDestinations | cheapest_flights.py:71-73 | The loop leaves exactly the keys not on the deny-list, in dictionary order. Listed ids that are absent are ignored, and the origin is not spared. |
| DestinationFilter.DestinationsSpec | cheapest_flights.py:64-73 | With an allow-list, an id survives iff it is known and is the origin or listed. With a deny-list, iff it is known and not listed. With neither, all ids survive. Survivors keep their order and stay distinct. |
| DateWindow.DateRangeSpec | cheapest_flights.py:80-89 | The earliest and latest dates are dates of flights in the list, and every flight's date lies between them. |
| DateWindow.ScanDateRange | cheapest_flights.py:77-89 | The scan leaves `date_range` unset iff there are no flights. Otherwise it holds (earliest date, latest date). |
| DateWindow.FirstDate | cheapest_flights.py:91-95 | `min_date` defaults to the earliest flight date. A given date becomes the nearest date in [earliest, latest]. |
| DateWindow.FinalDate | cheapest_flights.py:97-101 | `max_date` defaults to the latest flight date. A given date becomes the nearest date in [earliest, latest]. |
| DateWindow.ShortestStay | cheapest_flights.py:108-112 | `min_days` defaults to 1. A given value becomes the nearest value in [1, D] when D >= 1, and the result always lies in [1, max(D, 1)]. |
| DateWindow.LongestStay | cheapest_flights.py:114-118 | `max_days` defaults to D, is at most D, and a given value becomes the nearest value in [1, D] when D >= 1. |
| DateWindow.EffectiveWindow | cheapest_flights.py:91-118 | Both effective dates lie in the data's range, and the stays are clamped against D = max_date - min_date. |
| DateWindow.ValidatedWindow | cheapest_flights.py:91-118 | After the checks, `min_date <= max_date`. When D >= 1, `1 <= min_days <= max_days`. Some day pair is enumerated iff D >= 1. |
| FlightIndex.BucketMember | cheapest_flights.py:133-138 | A flight is in the bucket of (date, origin, destination) iff it is in the flight list on that date and route. |
| FlightIndex.HoldsSnoc | cheapest_flights.py:133-138 | Appending a flight to the bucket of its own key keeps every bucket equal to the filtered flight list. |
| FlightIndex.BuildIndex | cheapest_flights.py:123-138 | The index has a bucket for exactly every window date and pair of kept airports. Each bucket holds the flights of its date and route, in list order. |
| TripQueue.InsertMultiset | cheapest_flights.py:159-160 | `heappush` adds exactly the pushed entry. |
| TripQueue.InsertAscending | cheapest_flights.py:159-160 | `heappush` of an entry with a fresh counter value keeps the queue in tuple order. |
| TripQueue.RankedSpec | cheapest_flights.py:145-162 | The queue after all pushes is in tuple order, holds exactly the numbered candidates, and each entry is the candidate its counter value numbers. |
| TripQueue.AscendingUnique | cheapest_flights.py:179 | Two queues in tuple order holding the same entries are equal, so the pop order is determined by the entries. |
| TripQueue.QueueOfPush | cheapest_flights.py:159-161 | Pushing the next candidate with the next counter value keeps the queue's characterisation. |
| TripQueue.QueueOfRanked | cheapest_flights.py:145-162 | A queue with that characterisation is the ranked queue. |
| Enumeration.OutboundPairsMember | cheapest_flights.py:156-162 | The pairs pushed for one flight back are exactly those with a flight out of the list, on these days, within the price limit. |
| Enumeration.InboundPairsMember | cheapest_flights.py:155-162 | The pairs pushed for one destination and day pair: a flight out and a flight back from the two buckets, within the price limit. |
| Enumeration.RoutePairsMember | cheapest_flights.py:153-162 | The pairs pushed for destination `x` are exactly the round trips to `x` on those days, drawn from the data, within the price limit. |
| Enumeration.DestinationPairsMember | cheapest_flights.py:153-162 | Over a destination sequence: exactly the round trips to one of its destinations. |
| Enumeration.ReturnSweepMember | cheapest_flights.py:146-162 | Over the return days from `dep + min_days` up to `end`: exactly the round trips returning on one of those days. |
| Enumeration.DaySweepMember | cheapest_flights.py:146-162 | For one departure day: exactly the qualifying round trips leaving that day. |
| Enumeration.DepartureSweepMember | cheapest_flights.py:145-162 | Over the first `k` departure days: exactly the qualifying round trips leaving before day `k`. |
| Enumeration.DeparturesBelow | cheapest_flights.py:145 | Every pair swept for the first `k` departure days departs before day `k`. |
| Enumeration.ReturnSweepDep | cheapest_flights.py:146 | Every pair swept for a departure day departs on that day. |
| Enumeration.CandidatesExactly | cheapest_flights.py:145-162 | A pair is pushed iff it qualifies: both flights from the data, out from the origin to a kept destination and back, in the window, staying `min_days` to `max_days` days, within the price limit. |
| Enumeration.ReturnSweepOrdered | cheapest_flights.py:146-162 | Within a departure day, pairs are pushed in non-decreasing order of return day. |
| Enumeration.DepartureSweepOrdered | cheapest_flights.py:145-162 | Pairs are pushed in non-decreasing order of (departure day, return day). |
| Enumeration.CandidatesDayOrdered | cheapest_flights.py:145-162 | The counter `idx` grows with (departure day, return day). |
| Enumeration.OutboundPairsOrder | cheapest_flights.py:156-161 | For one flight back, pairs are pushed in the bucket order of the flights out. |
| Enumeration.InboundPairsOrder | cheapest_flights.py:155-161 | For one destination, pairs are pushed in the bucket order of the flights back. For the same flight back, they follow the flights out, provided the bucket lists no record twice. |
| Enumeration.DestinationPairsOrder | cheapest_flights.py:153-161 | For one day pair, pairs are pushed in the dictionary order of the destinations. Within a destination they follow its two buckets. |
| Enumeration.ReturnSweepPushOrder | cheapest_flights.py:146-161 | For one departure day, pairs are pushed by return day, and within a return day in the order above. |
| Enumeration.DepartureSweepPushOrder | cheapest_flights.py:145-161 | Pairs are pushed by departure day, and within a departure day in the order above. |
| Enumeration.CandidatesPushOrder | cheapest_flights.py:145-161 | The counter `idx` follows `PushOrder`, the lexicographic order of the five nested loops. |
| Enumeration.OutboundPairsNoDup | cheapest_flights.py:156-162 | With distinct flights out, no pair is pushed twice for one flight back. |
| Enumeration.InboundPairsNoDup | cheapest_flights.py:155-162 | With distinct flights, no pair is pushed twice for one destination. |
| Enumeration.DestinationPairsNoDup | cheapest_flights.py:153-162 | With distinct flights and destinations, no pair is pushed twice for one day pair. |
| Enumeration.ReturnSweepNoDup | cheapest_flights.py:146-162 | No pair is pushed twice for one departure day. |
| Enumeration.DepartureSweepNoDup | cheapest_flights.py:145-162 | No pair is pushed twice over the first `k` departure days. |
| Enumeration.CandidatesOnce | cheapest_flights.py:145-162 | With no repeated flight record, every qualifying pair is pushed exactly once. |
| Enumeration.PushOutbound | cheapest_flights.py:156-162 | The innermost loop pushes exactly the pairs of the specification, with consecutive counter values. |
| Enumeration.PushInbound | cheapest_flights.py:155-162 | The loop over flights back pushes exactly the pairs of the specification. |
| Enumeration.LookupRoute | cheapest_flights.py:153-155 | The two index lookups return the buckets out to and back from the destination. |
| Enumeration.PushDestinations | cheapest_flights.py:153-162 | The loop over destinations pushes exactly the pairs of the specification. |
| Enumeration.PushReturnDays | cheapest_flights.py:146-162 | The loop over return days fails iff the origin is missing from the index and the loop body runs. Otherwise it pushes exactly the pairs of the specification. |
| Enumeration.ReturnStep | cheapest_flights.py:146 | Each return day the loop visits lies in the date window, and its pairs extend the sweep by one day. |
| Enumeration.ReturnSweepDone | cheapest_flights.py:146 | The source's bound is `end`, that is `min(departure_day + max_days, date_range_days) + 1`. Dafny's `for` needs a lower bound no greater than its upper bound, so the loop runs to `max(end, first)`. That sweeps the same days as `end`, and the loop runs iff `first < end`. |
| Enumeration.Enumerate | cheapest_flights.py:140-162 | The enumeration fails iff the origin is missing from the index and some day pair exists. Otherwise the queue is the ranked queue of all candidates. |
| Emission.Pops | cheapest_flights.py:164-168 | The number of pops is the queue's size when `n` is unset, and `min(n, size)` when `n` is set (never negative after the checks). |
| Emission.UncappedKeepsAll | cheapest_flights.py:180-181 | Without a cap every popped entry is yielded. |
| Emission.CappedCount | cheapest_flights.py:172-183 | With cap `k`, each destination gets `min(k, trips popped to it)` trips yielded. |
| Emission.CappedSubseq | cheapest_flights.py:178-183 | The yielded entries are a subsequence of the popped ones. |
| Emission.CappedAscending | cheapest_flights.py:178-183 | Entries popped in tuple order are yielded in tuple order. |
| Emission.EmitUncapped | cheapest_flights.py:164-183 | Without a cap the yielded entries are the first `n` of the queue. |
| Emission.EmitMember | cheapest_flights.py:178-181 | Only popped entries are yielded: every yielded entry is among the first `Pops(n, |q|)` entries of the queue. |
| Emission.EmitAscending | cheapest_flights.py:178-181 | Yielded entries are in tuple order. |
| Emission.TalliesPush | cheapest_flights.py:182-183 | Incrementing the destination's count keeps `visited_airports` equal to the per-destination count of yielded trips. |
| Emission.PopOnce | cheapest_flights.py:179-183 | One pop removes the head. It yields the trip exactly when the cap allows, and keeps the counts. |
| Emission.EmitTrips | cheapest_flights.py:164-184 | The pop loop yields exactly the trips of `Emit`. |
| CheapestFlights.RankedDestinations | cheapest_flights.py:153-162 | Every queued trip flies to a key of the airport dictionary, so the lookup at line 180 succeeds. |
| CheapestFlights.FindCheapestFlights | cheapest_flights.py:10-184 | The imperative search returns exactly `Search`: the error it raises or the trips it yields, in order. |
| SearchProperties.CandOf | cheapest_flights.py:145-149 | A trip's departure and return offsets are its dates measured from `min_date`. |
| SearchProperties.QualifiesIff | cheapest_flights.py:145-162 | A candidate qualifies iff its trip is a round trip of the search and its offsets are those of its dates. |
| SearchProperties.YieldedFromCandidates | cheapest_flights.py:145-181 | Every yielded entry is the qualifying candidate that its counter value numbers. |
| SearchProperties.SearchSound | cheapest_flights.py:133-181 | Every yielded trip goes from the origin to a kept destination and back, uses flights from the data, lies in the window, stays `min_days` to `max_days` days, and keeps within the price limit. |
| SearchProperties.SearchComplete | cheapest_flights.py:145-181 | With `n` unset and no cap, every such round trip is yielded. |
| SearchProperties.RankedTrips | cheapest_flights.py:159-160 | Every pushed candidate's trip is in the queue. |
| SearchProperties.SearchCheapest | cheapest_flights.py:164-181 | Without a cap: the yielded trips are the first `min(n, #candidates)` of the queue (all when `n` is unset), and none costs more than any trip left in it. |
| SearchProperties.TieOrder | cheapest_flights.py:159-160 | Of two entries of equal price in tuple order, the first was pushed first. |
| SearchProperties.YieldedOrder | cheapest_flights.py:145-181 | Yielded entries are in non-decreasing price order, ties in push order, and each is the candidate its counter numbers. |
| SearchProperties.SearchOrder | cheapest_flights.py:145-181 | Yielded trips are in non-decreasing total price. Equal prices come in push order, and push order is `PushOrder`: departure day, then return day, then destination in dictionary order, then flight back in bucket order, then flight out in bucket order. |
| SearchProperties.SearchOnce | cheapest_flights.py:145-162 | With no repeated flight record, no trip is yielded twice. |
| SearchProperties.SearchCap | cheapest_flights.py:172-183 | With cap `k`, each destination gets `min(k, trips popped to it)` trips, so never more than `k`. At most `n` trips are yielded, because dropped trips still use up pops. |
| SearchProperties.SearchRejects | cheapest_flights.py:40-89 | An `InvalidParameter` error (the `ValueError`s of lines 40-55) is raised iff a rule is broken, and it names the first broken rule. Then come the unknown origin (the `ValueError` of line 62) and the empty flight list (the failed unpacking at line 89), in that order. |
| SearchProperties.DenyListedOrigin | cheapest_flights.py:71-153 | A valid search for a known origin over some flights fails iff the deny-list names the origin and the window spans at least one day. Otherwise it succeeds. |
| SearchProperties.ZeroLimit | cheapest_flights.py:164-178 | `n = 0` yields no trip. |
| SearchProperties.YieldedTripsFormat | cheapest_flights.py:193-212 | Every yielded trip can be formatted over the same airport list, and its duration lies in [`min_days`, `max_days`], at least one day. |
| Formatting.Decimal | cheapest_flights.py:214-216 | `%d` of a natural number: digits only, one digit iff below 10, and a leading zero only for 0. |
| Formatting.DecimalRoundTrip | cheapest_flights.py:214-216 | Reading back the digits gives the number. |
| Formatting.SignedDecimal | cheapest_flights.py:214-216 | `%d` of an integer reads back as the integer, starts with `-` iff it is negative, and is one character iff it is 0-9. It is canonical: the digits of `Decimal` of the magnitude, with no leading zero, and prefixed by `-` when negative. |
| Formatting.ZeroPad2 | cheapest_flights.py:214-216 | `%02d`: at least two characters, exactly two for 0-99, and it reads back as the number. For 0-9 it is a zero followed by the digit. Otherwise it is `%d` of the number unchanged. |
| Formatting.Money | cheapest_flights.py:214-219 | `%0.2f` of a whole amount ends in `.00` and reads back as the amount before that suffix. That prefix is exactly the canonical `%d` of the amount. |
| Formatting.FitWidth | cheapest_flights.py:208-210 | `%-20.20s`: exactly 20 characters, beginning with the first 20 characters of the text and padded with spaces. |
| Formatting.Label | cheapest_flights.py:206-212 | The id when the airport has no name. Otherwise the fitted name, followed by ` (iata)` when the airport has an IATA code. |
| Formatting.AirportMap | cheapest_flights.py:59 | Every key of `{airport['id']: airport ...}` maps to an airport with that id. |
| Formatting.AirportMapSpec | cheapest_flights.py:59 | Every listed id is a key, and every key maps to a listed airport. |
| Formatting.AirportMapKeys | cheapest_flights.py:59 | The map the formatter reads and the key sequence the search enumerates have the same keys. |
| Formatting.AirportMapLast | cheapest_flights.py:59 | A later airport with the same id replaces an earlier one. |
| Formatting.TripFormatter.Format | cheapest_flights.py:193-220 | Fails iff the destination is unknown (the `KeyError`). Otherwise the line opens with `round-trip to`, the label, the duration as `%02d` and ` days (`, and closes with `) for`, the total of both prices and the outbound flight's currency. |

## Left out
- The command-line block (lines 223-293) is not modelled: argument parsing, pickle loading, printing.
- `ryanair_downloader.py` and `flycatcher/downloader.py` are not modelled: network I/O, clocks and randomised throttling.
- Logging calls (lines 75, 103-104, 120-121, 170) are not modelled; they have no effect on the result.
- Dates are whole day numbers. `strptime`, `strftime` and the `yyyy-mm-dd` strings of the index keys are not modelled.
- The index is one map keyed by (date, origin, destination), not three nested dictionaries keyed by date strings.
- Prices are integers. Float prices and the rounding of `%0.2f` are not modelled.
- Formatting.Money: formats whole amounts only; `%0.2f` of a fractional price is not modelled.
- Formatting.TripFormatter.Format: the two dates in the middle of the line come from the parameter `showDate`. The contract states the text before and after them, not the date text.
- The generator is modelled by the list it would yield when run to the end. An error is raised on the first `next()` in the source; here it is the result. A consumer that stops early is not modelled.
- `heapq`'s binary heap layout is replaced by an ascending list. Only the pop order is modelled, and it is the same.
- Malformed records (a flight without `date`, `price` or `currency`, an airport without `id`) are excluded by the types; the `KeyError`s they raise are not modelled.
- Emission.EmitTrips: requires that every queued trip flies to a key of `visited_airports`. The search always meets this (`CheapestFlights.RankedDestinations`); other queues are not considered.
- SearchProperties.SearchComplete: stated for `n` unset and no cap. With a limit or a cap not every trip is yielded; `SearchCheapest` and `SearchCap` state what is.
- SearchProperties.SearchOrder: the last level, flight out for the same flight back, is stated only when the flight-back bucket lists no record twice. With a repeated record the same flight back is visited twice, and its two runs of flights out interleave by position, not by flight.
- SearchProperties.SearchOnce: stated for flight lists without repeated records. A record listed twice is paired twice by the source as well.
