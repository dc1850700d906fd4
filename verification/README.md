# Flight display: a verified model of the poll cycle and its rules

This project models, in Dafny, the core of a Raspberry-Pi flight display
that polls the Flightradar24 API for aircraft near a point and shows them
in a table. The model covers:

- the detail cache: lazy expiry on read, hit and miss counters, missing-id
  lookup, and sweeps of expired and departed entries;
- one pass of the background poller: position fetch, detail fetch for new
  flights, fill-if-empty merge, the sweep on every tenth pass, error
  counting and back-off. It also covers the drain of its queue into the
  application;
- the `Flight` record and the defaults its constructor fills in;
- the extraction of flight fields from a JSON response, following Python's
  `or`-chain truthiness, skipping unparseable items. It also covers the
  15-callsign limit of detail requests and the messages for HTTP failures;
- the application's stable sort by a configured key, the `max_flights`
  slice, and the state and status line after an update or an error;
- the formatting helpers: comma-grouped altitude, zero-padded heading and
  the eight-point compass;
- the eight cell texts of a table row, the alternating row colours, and the
  table's row list.

Files and modules:

- `wrappers.dfy` (`Wrappers`): `Option` and `Result`.
- `formatting.dfy` (`Formatting`): `flight_display/utils.py`.
- `models.dfy` (`Models`): `flight_display/models.py`.
- `flight_cache.dfy` (`DetailCache`): `flight_display/flight_cache.py`.
- `api_client.dfy` (`ApiClient`): `flight_display/api_client.py`.
- `flight_table.dfy` (`Table`): `flight_display/ui/flight_table.py`.
- `app.dfy` (`App`): `flight_display/app.py`.
- `updater.dfy` (`Updater`): `flight_display/updater.py`.

Modelling choices:

- Time is an explicit integer `now`, in seconds.
- Coordinates are integers, standing for fixed-point degrees.
- A distance is a natural number of tenths of a kilometre. This is what
  the table shows with one decimal place.
- The haversine distance from the monitored centre is a function-valued
  field of the poller, `distanceFromCentre`.
- The two fetches of a pass are inputs to the pass.
- Stateful classes (`FlightCache`, `DataUpdater`, `FlightTable`,
  `FlightDisplayApp`) are Dafny classes whose methods are specified against
  pure functions (`LookupIn`, `Evict`, `RunPass`, `RowsFor`, `AfterUpdate`,
  `Replay`); the properties are proved about those functions.

## Model

| member | source | states |
|---|---|---|
| Formatting.Decimal | flight_display/utils.py:37 | the decimal text of a natural number: digits only, reading back as the number, no leading zero |
| Formatting.IntToString | flight_display/ui/flight_table.py:168 | `str()` of an integer: the decimal text, with a leading `-` for negatives |
| Formatting.FormatHeading | flight_display/utils.py:40-42 | for 0..999 exactly three digits whose value is the heading; never shorter than three characters; negatives start with `-` |
| Formatting.GroupThousands | flight_display/utils.py:37 | grouping keeps the leading digit and never shortens the text |
| Formatting.GroupThousandsCorrect | flight_display/utils.py:37 | commas split the digits into groups of exactly three from the right, with a leading group of one to three; removing them gives back the digits |
| Formatting.FormatAltitude | flight_display/utils.py:35-37 | for altitude >= 0, well grouped and equal to the decimal text once commas are removed; negatives start with `-` |
| Formatting.RoundEighths | flight_display/utils.py:48 | the chosen multiple of 45 degrees lies strictly within 22.5 degrees of the heading |
| Formatting.NoRoundingTie | flight_display/utils.py:48 | an integer heading is never exactly halfway between two multiples of 45, so the rounding mode of `round` never matters |
| Formatting.NearestIsRoundEighths | flight_display/utils.py:48 | the nearest multiple is unique: any k within 22.5 degrees is the one computed |
| Formatting.CompassIndex | flight_display/utils.py:48 | the index is always a valid position in the eight-entry list |
| Formatting.CompassDirection | flight_display/utils.py:45-49 | the result is always one of the eight listed directions |
| Formatting.CompassPeriodic | flight_display/utils.py:47-49 | the direction depends only on the heading modulo 360 |
| Formatting.CompassSamples | flight_display/utils.py:45-49 | 0 and 22 give N, 23 and 45 give NE, 180 gives S, 337 gives NW, 338 gives N, -30 gives NW |
| Models.AirlineFromCallsign | flight_display/models.py:30-31 | the first three characters of a callsign of length at least three, otherwise `N/A` |
| Models.Normalize | flight_display/models.py:26-37 | afterwards callsign, airline, type, origin and destination are non-empty; an already normalised record is unchanged; no other field changes |
| Models.NormalizeIdempotent | flight_display/models.py:26-37 | normalising twice is the same as normalising once |
| Models.PostInit | flight_display/models.py:26-37 | field by field: an empty callsign becomes `N/A`; an empty airline comes from the defaulted callsign; an empty type becomes `N/A`; empty airports become `---`; non-empty fields and all other fields are kept |
| DetailCache.CachedFlightDetails.IsExpired | flight_display/flight_cache.py:23-25 | the age of the entry exceeds the time-to-live; its boundary is stated by `ExpiryIsStrict` |
| DetailCache.ExpiryIsStrict | flight_display/flight_cache.py:23-25 | an entry is expired exactly when its age exceeds the time-to-live; at age equal to the time-to-live it is live |
| DetailCache.LookupIn | flight_display/flight_cache.py:51-72 | a read reports an entry exactly when the id is stored and not expired, and then reports the stored entry |
| DetailCache.MissingInExactly | flight_display/flight_cache.py:105-119 | the missing ids are a subset of the asked ids: exactly those never stored or expired |
| DetailCache.EvictRemovesOnlyExpired | flight_display/flight_cache.py:66-69 | reading a set of ids removes exactly the expired entries among them and leaves every other entry as it was |
| DetailCache.DropExpiredLeavesOnlyLive | flight_display/flight_cache.py:128-138 | the sweep keeps exactly the live entries, unchanged |
| DetailCache.DropExpiredRemovesExpiredKeys | flight_display/flight_cache.py:128-138 | the sweep removes the expired keys, and the size drops by their number |
| DetailCache.EvictAgain | flight_display/flight_cache.py:115-119 | reading one set of ids after another is the same as reading their union |
| DetailCache.MissingStep | flight_display/flight_cache.py:115-119 | adding one id to the asked set adds it to the missing set exactly when a read of it reports nothing |
| DetailCache.LookupAfterEvict | flight_display/flight_cache.py:61-72 | what a read reports is not changed by earlier reads at the same time |
| DetailCache.StoredEntryIsLive | flight_display/flight_cache.py:94-102 | right after a put stamped `now` (ttl >= 0), a read returns exactly the stored entry, and reads of other ids are unaffected |
| DetailCache.FlightCache.constructor | flight_display/flight_cache.py:39-49 | an empty cache with zero hits and misses and the given time-to-live |
| DetailCache.FlightCache.Get | flight_display/flight_cache.py:51-72 | absent id: None, one more miss, nothing else changes. Expired id: None, that key removed, size down by one, one more miss. Live id: the entry, one more hit, map unchanged |
| DetailCache.FlightCache.Put | flight_display/flight_cache.py:74-102 | the entry for the id is overwritten with the given details stamped `now`; other keys and the counters are unchanged |
| DetailCache.FlightCache.GetMissingIds | flight_display/flight_cache.py:105-119 | returns the ids that are absent or expired; expired ones are evicted; hits plus misses grow by the number of ids; misses grow by the number returned |
| DetailCache.FlightCache.CleanupExpired | flight_display/flight_cache.py:121-138 | removes exactly the expired entries and returns how many; the size drops by that count; the counters are unchanged |
| DetailCache.FlightCache.CleanupDeparted | flight_display/flight_cache.py:140-157 | keeps exactly the entries whose ids are current, so the keys are a subset of them; returns how many keys were not current |
| DetailCache.FlightCache.Size | flight_display/flight_cache.py:160-162 | the number of entries, so zero exactly when the cache is empty |
| DetailCache.FlightCache.Stats | flight_display/flight_cache.py:165-174 | the size, hits and misses of the cache |
| DetailCache.FlightCache.Clear | flight_display/flight_cache.py:176-180 | empties the cache and zeroes both counters |
| ApiClient.Chain | flight_display/api_client.py:186-198 | `a or b or ...` yields one of its operands |
| ApiClient.ChainYieldsFirstTruthy | flight_display/api_client.py:186-198 | it yields the first truthy operand |
| ApiClient.ChainOfFalsyYieldsLast | flight_display/api_client.py:186-198 | with no truthy operand it yields the last one |
| ApiClient.ChainTruthyIffSomeOperand | flight_display/api_client.py:186-198 | the result is truthy exactly when some operand is |
| ApiClient.Chain3 | flight_display/api_client.py:186 | the three-operand chain used for the flight id, written out |
| ApiClient.AircraftTypeResolution | flight_display/api_client.py:208-218 | a dict `aircraft` with a dict `model` gives its `code`; a truthy non-dict model gives `str(model)`; otherwise `typecode`, then `aircraft_type`, then empty |
| ApiClient.AirportResolution | flight_display/api_client.py:220-232 | a dict field gives `iata`, then `icao`, then empty; origin falls back to `orig_iata` then `origin_iata`; destination to `dest_iata` then `destination_iata`; any other field gives empty |
| ApiClient.AirlineResolution | flight_display/api_client.py:234-256 | a dict `airline` gives `icao`, else `iata`; a string `airline` is returned as is; otherwise a callsign of length >= 3 gives its first three characters, else empty |
| ApiClient.ExtractAircraftType | flight_display/api_client.py:208-218 | the aircraft type of an item; its cases are stated by `AircraftTypeResolution` |
| ApiClient.ExtractAirport | flight_display/api_client.py:220-232 | the airport code of an item; its cases are stated by `AirportResolution` |
| ApiClient.ExtractAirline | flight_display/api_client.py:234-256 | the airline code of an item; its cases are stated by `AirlineResolution` and `AirlineFallbackAgreesWithDefault` |
| ApiClient.ParseItem | flight_display/api_client.py:185-199 | one item as a flight through the constructor defaults, or nothing when building it fails; `WellFormedItemParses` says when it succeeds and `ParsedFlightFields` what the flight holds |
| ApiClient.ParsedFlightFields | flight_display/api_client.py:185-199 | a parsed flight is normalised, has distance 0 and a registration; its vertical speed is None exactly when `vspeed` is absent or null; its id is the id the `fr24_id or flightId or id` chain gives; a text `fr24_id` or `callsign` is taken as is |
| ApiClient.FlightIdResolution | flight_display/api_client.py:186 | the id is the first truthy of `fr24_id`, `flightId` and `id`: a text value as is, a number as its decimal text, and empty when all are falsy and `id` is absent |
| ApiClient.WellFormedItemParses | flight_display/api_client.py:185-199 | an item parses whenever every field it reads holds the kind of value expected (numbers or falsy values in numeric fields, strings or falsy values in text fields, nested objects as the extractors read them); missing fields always qualify |
| ApiClient.AirlineFallbackAgreesWithDefault | flight_display/api_client.py:251-254 | with no `airline` key, the parsed airline is what the constructor would derive from the parsed callsign |
| ApiClient.ParseItems | flight_display/api_client.py:175-206 | parsing succeeds exactly when every item is an object, and yields at most one flight per item |
| ApiClient.ParseItemsFailsAtFirstNonObject | flight_display/api_client.py:178-186 | the error raised is the one for the first item that is not an object |
| ApiClient.ParseItemsConcat | flight_display/api_client.py:178-203 | the output for a concatenation is the concatenation of the outputs: items keep their order |
| ApiClient.ParseItemsStep | flight_display/api_client.py:178-203 | each item either stops the parse, appends its flight, or is skipped |
| ApiClient.ParseSingleItem | flight_display/api_client.py:178-203 | one object yields its flight, or nothing when it cannot be parsed |
| ApiClient.ParsedFlightsAreNormalized | flight_display/api_client.py:185-200 | every flight in a parsed response is normalised |
| ApiClient.ResponseItems | flight_display/api_client.py:176 | a non-object response fails with the `get` error; a missing `data` key gives no items; a `data` list gives its elements |
| ApiClient.ParseEach | flight_display/api_client.py:175-206 | the loop yields the parse of all items |
| ApiClient.ParseResponse | flight_display/api_client.py:165-206 | the parse of the response, with no more flights than items |
| ApiClient.FailureMessage | flight_display/api_client.py:145-163 | `Invalid API key` exactly for status 401 and `Rate limit exceeded` exactly for status 429; any other status gives `HTTP error: ` + the detail; a timeout, a connection error and any other request failure give `Request timed out: `, `Connection error: ` and `Request failed: ` + the detail |
| ApiClient.FailureMessagesDistinct | flight_display/api_client.py:145-163 | failures of different kinds (timeout, connection, 401, 429, other status, other request failure) never share a message |
| ApiClient.FetchFlights | flight_display/api_client.py:133-163 | an API error exactly when no response arrived, its message the failure message of that outcome; fetched flights are normalised |
| ApiClient.LimitCallsigns | flight_display/api_client.py:81-82 | the first `min(n, 15)` callsigns, in order |
| ApiClient.DetailsRequest | flight_display/api_client.py:78-83 | no request exactly for an empty list; otherwise exactly the first `min(n, 15)` callsigns |
| ApiClient.DetailsRequestAbsorbsLimit | flight_display/api_client.py:81-83 | truncating to 15 before the call, as the poller does, changes nothing |
| Table.RouteCell | flight_display/ui/flight_table.py:156-159 | `---` exactly when both airports are `---`; otherwise `origin -> destination` |
| Table.AltitudeCell | flight_display/ui/flight_table.py:167 | `---` exactly for zero; a positive altitude is well grouped and reads back as its decimal text |
| Table.SpeedCell | flight_display/ui/flight_table.py:168 | `---` exactly for zero; otherwise the plain digits of the speed, with a `-` for negatives |
| Table.HeadingCell | flight_display/ui/flight_table.py:169 | `---` exactly for zero, so due north shows `---`; 1..999 gives three digits reading back as the heading |
| Table.DistanceCell | flight_display/ui/flight_table.py:170 | one digit after the point; with the point removed the digits read back as the tenths |
| Table.CellValues | flight_display/ui/flight_table.py:161-171 | one value per column, in column order: callsign, airline, aircraft type, route, altitude, speed, heading and distance cells of the flight |
| Table.RowColour | flight_display/ui/flight_table.py:130 | the background of a row by its index; the alternation is stated by `RowColoursAlternate` |
| Table.RowColoursAlternate | flight_display/ui/flight_table.py:130 | even rows use the secondary background, odd rows the alternate one; neighbours differ |
| Table.RowsFor | flight_display/ui/flight_table.py:127-133 | one row per flight in order: row i holds the cell values of flight i on the background `RowColour(i)`, so `RowColoursAlternate` applies to the rows |
| Table.FlightTable.constructor | flight_display/ui/flight_table.py:22 | no rows |
| Table.FlightTable.SetFlights | flight_display/ui/flight_table.py:120-133 | the rows become exactly the rows for the flights, in order |
| Table.FlightTable.Clear | flight_display/ui/flight_table.py:191-195 | no rows |
| App.LexLess | flight_display/app.py:155 | Python's `<` on strings; it is a strict total order by `LexLessIrreflexive`, `LexLessTransitive` and `LexLessTotal` |
| App.LexLessIrreflexive | flight_display/app.py:155 | no callsign sorts before itself |
| App.LexLessTransitive | flight_display/app.py:155 | the string order is transitive |
| App.LexLessTotal | flight_display/app.py:155 | any two distinct callsigns are ordered one way or the other |
| App.PrecedesIrreflexive | flight_display/app.py:147-157 | no flight precedes itself, in either direction |
| App.PrecedesTransitive | flight_display/app.py:147-157 | precedence is transitive, in either direction |
| App.Insert | flight_display/app.py:151-157 | inserting adds one element |
| App.InsertAddsOne | flight_display/app.py:151-157 | inserting adds exactly the inserted flight to the multiset |
| App.InsertKeepsOrder | flight_display/app.py:151-157 | inserting into an ordered list keeps it ordered |
| App.InsertIsStable | flight_display/app.py:151-157 | inserting after all flights of the same key keeps the relative order of that key |
| App.SortedBy | flight_display/app.py:151-157 | sorting keeps the length |
| App.SortedByPermutes | flight_display/app.py:151-157 | sorting is a permutation |
| App.SortedByIsOrdered | flight_display/app.py:151-157 | the result is ordered by the key, non-decreasing ascending and non-increasing descending |
| App.SortedByIsStable | flight_display/app.py:151-157 | for every key, the flights with that key keep their original relative order, in both directions |
| App.OrderedKeysAreMonotone | flight_display/app.py:147-157 | in an ordered list the altitude, distance, speed or callsign never decreases (ascending) or never increases (descending) |
| App.SortFlights | flight_display/app.py:137-159 | a permutation of the input; an unknown key returns the input unchanged; a known key gives a list ordered by it that keeps the order of equal keys |
| App.SliceTo | flight_display/app.py:107 | Python's `s[:n]`: `min(len, n)` elements for n >= 0, `len + n` (at least 0) for negative n, always a prefix |
| App.Displayed | flight_display/app.py:103-107 | `min(len, max_flights)` flights, a prefix of the sorted list |
| App.StatusText | flight_display/app.py:134 | a message of at most 30 characters is shown verbatim; a longer one becomes `Error: ` + its first 30 characters + `...` |
| App.AfterUpdate | flight_display/app.py:100-115 | connected, the full unsorted list stored, as many rows as displayed flights, status `Connected` |
| App.AfterError | flight_display/app.py:126-135 | disconnected; the stored flights and rows are unchanged; the count is that of the stored flights; the text is the status text of the message |
| App.FlightDisplayApp.constructor | flight_display/app.py:27-30 | disconnected, no flights, no rows, status `Initializing...` |
| App.FlightDisplayApp.OnDataUpdate | flight_display/app.py:93-115 | the application ends in the state after an update with these flights |
| App.FlightDisplayApp.OnError | flight_display/app.py:119-135 | the application ends in the state after this error |
| Updater.CurrentIdsExactly | flight_display/updater.py:85 | the current ids are exactly the non-empty ids of the fetched flights |
| Updater.MissingCallsigns | flight_display/updater.py:93-96 | no more callsigns than flights, none of them empty |
| Updater.MissingCallsignsEmptyIff | flight_display/updater.py:93-98 | the list is empty exactly when no flight with a missing id has a callsign |
| Updater.MissingCallsignsConcat | flight_display/updater.py:93-96 | the filter keeps light-list order |
| Updater.DetailCallsigns | flight_display/updater.py:98-104 | a request carries exactly the first `min(n, 15)` of the n missing callsigns |
| Updater.DetailRequestRule | flight_display/updater.py:91-98 | a detail request is made exactly when ids are missing, the endpoint is `full`, and some missing flight has a callsign |
| Updater.MergeCached | flight_display/updater.py:123-134 | an empty descriptive field takes the cached value, a missing registration takes a present cached one, and a non-empty field or present registration is never changed; no other field is touched |
| Updater.MergeIdempotent | flight_display/updater.py:123-134 | merging twice with the same entry adds nothing |
| Updater.MergeOnlyFillsRegistration | flight_display/updater.py:125-134 | on a normalised flight the merge can change only the registration |
| Updater.MergeDetails | flight_display/updater.py:123-134 | the field-by-field in-place merge yields exactly `MergeCached`, so the lemmas about the merge apply to it |
| Updater.EnrichWith | flight_display/updater.py:121-142 | given what the cache returned for a flight's id, the result is the merged flight with its distance, as `Enrich` defines it |
| Updater.EnrichAll | flight_display/updater.py:121-142 | one published flight per fetched flight |
| Updater.PutAll | flight_display/updater.py:107-116 | storing details keeps every stored id and adds exactly the detailed ids |
| Updater.PutAllStores | flight_display/updater.py:107-116 | after storing details, each detailed id has an entry stamped `now` holding the details of a flight with that id; other entries are unchanged |
| Updater.PutAllLastWins | flight_display/updater.py:107-116 | when several detailed flights share an id, the entry holds the last one: later puts overwrite earlier ones |
| Updater.RunPass | flight_display/updater.py:72-173 | a failed light fetch queues an error and leaves the cache alone with no request; after a light fetch, the pass fails exactly when a request was made and its fetch hit an unexpected error; a success publishes one flight per position |
| Updater.FailedDetailsAddNothing | flight_display/updater.py:102-118 | a failed detail fetch leaves the pass exactly as if no details had come back, and the pass still publishes a success |
| Updater.SuccessfulPassPublishes | flight_display/updater.py:120-150 | a success publishes one flight per position; each differs from a normalised position only in registration and distance; the distance is that of the position; the registration is the cached one when the position has none and the read finds a live entry with one, and the position's own otherwise |
| Updater.PassFillsFromCache | flight_display/updater.py:120-142 | for any position record: with no live entry only the distance is set; with one, each empty descriptive field takes the cached value and each filled one stays, and a missing registration takes a present cached one |
| Updater.SweepOnTenthPass | flight_display/updater.py:144-147 | the sweep runs exactly on every tenth pass: then departed and expired entries are dropped and only live entries of current flights remain; on other passes the cache is what the reads and stores left |
| Updater.DataUpdater.constructor | flight_display/updater.py:41-50 | an empty queue, not running, no errors, pass count 0, and a fresh empty cache with a one-hour time-to-live |
| Updater.DataUpdater.Start | flight_display/updater.py:52-62 | running afterwards; the error count is reset only if it was not already running |
| Updater.DataUpdater.Stop | flight_display/updater.py:64-70 | not running afterwards; nothing else changes |
| Updater.DataUpdater.IsRunning | flight_display/updater.py:197-200 | the running flag, set by `Start` and cleared by `Stop` |
| Updater.DataUpdater.PutDetails | flight_display/updater.py:107-116 | the cache becomes the old cache with every detailed flight stored in order; the counters are unchanged |
| Updater.DataUpdater.EnrichFlights | flight_display/updater.py:120-142 | each flight is merged with the live cached entry read for its id and given its distance; the reads evict what they find expired; one read per flight is counted |
| Updater.DataUpdater.FetchMissingDetails | flight_display/updater.py:87-118 | the missing-id read, the detail request (if any) and the stored details as the pass prescribes; an unexpected detail failure is reported |
| Updater.DataUpdater.Sweep | flight_display/updater.py:144-147 | departed entries are dropped before expired ones |
| Updater.DataUpdater.WorkerStep | flight_display/updater.py:72-173 | the pass count rises by one even on failure; one item is queued; the cache and request follow the pass; a success zeroes the error count and a failure raises it; the wait is 30 only after an API error of the light fetch with at least five errors in a row, otherwise the refresh interval |
| Updater.DataUpdater.ProcessQueue | flight_display/updater.py:175-192 | every queued item is handed to the application oldest first; the queue ends empty; the application ends in the replayed state |
| Updater.Replay | flight_display/updater.py:184-192 | after draining, the application is connected exactly when the newest item was a success; with nothing queued the connection is unchanged |
| Updater.ReplayShowsLatestSuccess | flight_display/updater.py:184-192 | after draining, the application holds and shows the flights of the newest success; errors leave them alone |

## Left out

- `haversine_distance` (flight_display/utils.py:6-32) uses floating-point trigonometry. It is the uninterpreted field `distanceFromCentre` of the poller. Distances are whole tenths of a kilometre and coordinates are integers.
- Threads, the stop event, its timed waits, `Thread.join(timeout=5)` and the `root.after` rescheduling of the queue drain are concurrency and timers. A pass is the method `WorkerStep`, which returns its wait. `is_running` is the flag `running`, so a thread that outlives the join timeout is not modelled.
- HTTP transport is left out: the session, headers, URL and parameter building, `response.json()` and the bounds string. An HTTP exchange is the `HttpOutcome` input, and only the mapping from failures to messages is kept.
- `get_live_flights_light` and `get_live_flights` (flight_display/api_client.py:45-104) only choose an endpoint and forward to `_fetch_flights`. Their outcome is the `FetchOutcome` input of a pass.
- `time.time()` is the parameter `now`.
- The `hit_rate` string of `stats` is float formatting. `Stats` keeps the size and the two counters.
- The `_details_fetch_interval` field of the poller is never read by the source, so it has no counterpart.
- Configuration loading, demo data, `main`, logging, and every Tk widget, font, colour and the "last update" clock text are outside the core.
- ApiClient.ParseItem: JSON numbers are integers. A text number in a numeric field (Python's `float("51.5")`) is treated as unparseable, and the item is skipped.
- ApiClient.ParseItem: a truthy non-text value in a text field is treated as unparseable. Python would keep the raw value. The same goes for `str()` of a non-empty list or dict in the aircraft model.
- ApiClient.ParseItem: a non-empty list or dict under `fr24_id`, `flightId` or `id` is treated as unparseable and the item is skipped. Python would keep the item with the `str()` text of the value (such as `[1]`) as its flight id.
- Updater.DataUpdater.WorkerStep: one `now` serves the whole pass. The source reads the clock again for every `get`, every `put` and every expiry test of the sweep. So an entry that expires while the detail fetch waits (up to its 30-second timeout) is not captured: the model neither refetches it nor drops it from the merge in that pass.
- Updater.RunPass: like `WorkerStep`, it takes a single `now` for the lookups, the stores, the merge and the sweep of a pass.
- DetailCache.FlightCache.CleanupExpired: the clock is read once per sweep. The source reads it again for every entry.
