/**
 * The application's handling of poll results: ordering the flights by the
 * configured key, limiting how many are shown, and the state and status
 * line left behind by a successful update or an error. The wall-clock
 * "last update" time and the widget colours are not part of the model.
 */
module App {
  import opened Wrappers
  import opened Models
  import opened Table

  /** The display settings the handlers read. */
  datatype DisplayConfig = DisplayConfig(sortBy: string, sortAscending: bool, maxFlights: int)

  datatype SortField = ByDistance | ByAltitude | ByCallsign | BySpeed

  /** The recognised values of the `sort_by` setting. */
  function SortFieldOf(name: string): Option<SortField>
  {
    if name == "distance" then Some(ByDistance)
    else if name == "altitude" then Some(ByAltitude)
    else if name == "callsign" then Some(ByCallsign)
    else if name == "speed" then Some(BySpeed)
    else None
  }

  datatype SortKey = Number(n: int) | Text(s: string)

  function KeyOf(field: SortField, f: Flight): SortKey
  {
    match field
    case ByDistance => Number(f.distanceTenths)
    case ByAltitude => Number(f.altitude)
    case ByCallsign => Text(f.callsign)
    case BySpeed => Number(f.groundSpeed)
  }

  /** Python's `<` on strings: the first differing character decides, and a proper prefix comes first. */
  predicate LexLess(a: string, b: string)
    decreases |a|
  {
    if a == [] then b != []
    else if b == [] then false
    else a[0] < b[0] || (a[0] == b[0] && LexLess(a[1..], b[1..]))
  }

  lemma {:induction false} LexLessIrreflexive(a: string)
    ensures !LexLess(a, a)
    decreases |a|
  {
    if a != [] {
      LexLessIrreflexive(a[1..]);
    }
  }

  lemma {:induction false} LexLessTransitive(a: string, b: string, c: string)
    requires LexLess(a, b) && LexLess(b, c)
    ensures LexLess(a, c)
    decreases |a|
  {
    if a != [] && b != [] && c != [] && a[0] == b[0] && b[0] == c[0] {
      LexLessTransitive(a[1..], b[1..], c[1..]);
    }
  }

  /** Any two different strings are ordered one way or the other. */
  lemma {:induction false} LexLessTotal(a: string, b: string)
    ensures a == b || LexLess(a, b) || LexLess(b, a)
    decreases |a|
  {
    if a != [] && b != [] && a[0] == b[0] {
      LexLessTotal(a[1..], b[1..]);
      if a[1..] == b[1..] {
        assert a == [a[0]] + a[1..] && b == [b[0]] + b[1..];
      }
    }
  }

  /** The key order; keys of different kinds never meet, since one sort uses one field. */
  predicate KeyLess(a: SortKey, b: SortKey)
  {
    match (a, b)
    case (Number(x), Number(y)) => x < y
    case (Text(x), Text(y)) => LexLess(x, y)
    case _ => false
  }

  /** `x` must come before `y` in the requested direction. */
  predicate Precedes(field: SortField, ascending: bool, x: Flight, y: Flight)
  {
    if ascending then KeyLess(KeyOf(field, x), KeyOf(field, y)) else KeyLess(KeyOf(field, y), KeyOf(field, x))
  }

  lemma PrecedesIrreflexive(field: SortField, ascending: bool, x: Flight)
    ensures !Precedes(field, ascending, x, x)
  {
    if field == ByCallsign {
      LexLessIrreflexive(x.callsign);
    }
  }

  lemma PrecedesTransitive(field: SortField, ascending: bool, x: Flight, y: Flight, z: Flight)
    requires Precedes(field, ascending, x, y) && Precedes(field, ascending, y, z)
    ensures Precedes(field, ascending, x, z)
  {
    if field == ByCallsign {
      if ascending {
        LexLessTransitive(x.callsign, y.callsign, z.callsign);
      } else {
        LexLessTransitive(z.callsign, y.callsign, x.callsign);
      }
    }
  }

  /** No later flight must come before an earlier one. */
  predicate Ordered(field: SortField, ascending: bool, s: seq<Flight>)
  {
    forall i, j :: 0 <= i < j < |s| ==> !Precedes(field, ascending, s[j], s[i])
  }

  /** `x` inserted into `s` before the first flight it must precede: after every flight with an equal key. */
  function Insert(field: SortField, ascending: bool, x: Flight, s: seq<Flight>): (r: seq<Flight>)
    ensures |r| == |s| + 1
    decreases |s|
  {
    if s == [] then [x]
    else if Precedes(field, ascending, x, s[0]) then [x] + s
    else [s[0]] + Insert(field, ascending, x, s[1..])
  }

  lemma {:induction false} InsertAddsOne(field: SortField, ascending: bool, x: Flight, s: seq<Flight>)
    ensures multiset(Insert(field, ascending, x, s)) == multiset(s) + multiset{x}
    decreases |s|
  {
    if s != [] && !Precedes(field, ascending, x, s[0]) {
      InsertAddsOne(field, ascending, x, s[1..]);
      assert s == [s[0]] + s[1..];
    }
  }

  /** Every flight of `Insert(x, s)` is `x` or a flight of `s`. */
  lemma InsertElement(field: SortField, ascending: bool, x: Flight, s: seq<Flight>, j: nat)
    requires j < |s| + 1
    ensures Insert(field, ascending, x, s)[j] == x
            || exists k :: 0 <= k < |s| && s[k] == Insert(field, ascending, x, s)[j]
  {
    var y := Insert(field, ascending, x, s)[j];
    InsertAddsOne(field, ascending, x, s);
    assert y in multiset(Insert(field, ascending, x, s));
    assert y == x || y in multiset(s);
  }

  /** Putting `x` in front of an ordered list whose head it must precede keeps the list ordered. */
  lemma InsertAtFrontKeepsOrder(field: SortField, ascending: bool, x: Flight, s: seq<Flight>)
    requires Ordered(field, ascending, s)
    requires s != [] && Precedes(field, ascending, x, s[0])
    ensures Ordered(field, ascending, [x] + s)
  {
    var r := [x] + s;
    forall i, j | 0 <= i < j < |r|
      ensures !Precedes(field, ascending, r[j], r[i])
    {
      if i == 0 && Precedes(field, ascending, r[j], x) {
        if j == 1 {
          PrecedesTransitive(field, ascending, s[0], x, s[0]);
          PrecedesIrreflexive(field, ascending, s[0]);
        } else {
          PrecedesTransitive(field, ascending, s[j - 1], x, s[0]);
        }
      }
    }
  }

  /** Keeping the head of an ordered list and inserting `x` behind it keeps the list ordered. */
  lemma InsertBehindKeepsOrder(field: SortField, ascending: bool, x: Flight, s: seq<Flight>)
    requires Ordered(field, ascending, s)
    requires s != [] && !Precedes(field, ascending, x, s[0])
    requires Ordered(field, ascending, Insert(field, ascending, x, s[1..]))
    ensures Ordered(field, ascending, [s[0]] + Insert(field, ascending, x, s[1..]))
  {
    var rest := Insert(field, ascending, x, s[1..]);
    var r := [s[0]] + rest;
    forall i, j | 0 <= i < j < |r|
      ensures !Precedes(field, ascending, r[j], r[i])
    {
      if i == 0 {
        InsertElement(field, ascending, x, s[1..], j - 1);
        if rest[j - 1] != x {
          var k :| 0 <= k < |s[1..]| && s[1..][k] == rest[j - 1];
          assert s[k + 1] == rest[j - 1];
        }
      } else {
        assert r[i] == rest[i - 1] && r[j] == rest[j - 1];
      }
    }
  }

  lemma {:induction false} InsertKeepsOrder(field: SortField, ascending: bool, x: Flight, s: seq<Flight>)
    requires Ordered(field, ascending, s)
    ensures Ordered(field, ascending, Insert(field, ascending, x, s))
    decreases |s|
  {
    if s == [] {
    } else if Precedes(field, ascending, x, s[0]) {
      InsertAtFrontKeepsOrder(field, ascending, x, s);
    } else {
      OrderedTail(field, ascending, s);
      InsertKeepsOrder(field, ascending, x, s[1..]);
      InsertBehindKeepsOrder(field, ascending, x, s);
    }
  }

  /**
   * Python's `sorted` with `reverse` set when descending: a stable sort,
   * built by inserting the flights one after the other.
   */
  function SortedBy(field: SortField, ascending: bool, flights: seq<Flight>): (r: seq<Flight>)
    ensures |r| == |flights|
    decreases |flights|
  {
    if flights == [] then []
    else Insert(field, ascending, flights[|flights| - 1], SortedBy(field, ascending, flights[..|flights| - 1]))
  }

  /** Sorting returns a permutation of its input. */
  lemma {:induction false} SortedByPermutes(field: SortField, ascending: bool, flights: seq<Flight>)
    ensures multiset(SortedBy(field, ascending, flights)) == multiset(flights)
    decreases |flights|
  {
    if flights != [] {
      var init := flights[..|flights| - 1];
      SortedByPermutes(field, ascending, init);
      InsertAddsOne(field, ascending, flights[|flights| - 1], SortedBy(field, ascending, init));
      assert flights == init + [flights[|flights| - 1]];
    }
  }

  lemma {:induction false} SortedByIsOrdered(field: SortField, ascending: bool, flights: seq<Flight>)
    ensures Ordered(field, ascending, SortedBy(field, ascending, flights))
    decreases |flights|
  {
    if flights != [] {
      var init := flights[..|flights| - 1];
      SortedByIsOrdered(field, ascending, init);
      InsertKeepsOrder(field, ascending, flights[|flights| - 1], SortedBy(field, ascending, init));
    }
  }

  /** The flights of `s` whose key equals `k`, in their order in `s`. */
  function Tied(field: SortField, k: SortKey, s: seq<Flight>): seq<Flight>
    decreases |s|
  {
    if s == [] then [] else (if KeyOf(field, s[0]) == k then [s[0]] else []) + Tied(field, k, s[1..])
  }

  lemma {:induction false} TiedConcat(field: SortField, k: SortKey, a: seq<Flight>, b: seq<Flight>)
    ensures Tied(field, k, a + b) == Tied(field, k, a) + Tied(field, k, b)
    decreases |a|
  {
    if a == [] {
      assert a + b == b;
    } else {
      assert (a + b)[1..] == a[1..] + b;
      TiedConcat(field, k, a[1..], b);
    }
  }

  lemma {:induction false} NoneTied(field: SortField, k: SortKey, s: seq<Flight>)
    requires forall j :: 0 <= j < |s| ==> KeyOf(field, s[j]) != k
    ensures Tied(field, k, s) == []
    decreases |s|
  {
    if s != [] {
      NoneTied(field, k, s[1..]);
    }
  }

  lemma OrderedTail(field: SortField, ascending: bool, s: seq<Flight>)
    requires s != [] && Ordered(field, ascending, s)
    ensures Ordered(field, ascending, s[1..])
  {
    forall i, j | 0 <= i < j < |s[1..]|
      ensures !Precedes(field, ascending, s[1..][j], s[1..][i])
    {
      assert s[1..][j] == s[j + 1] && s[1..][i] == s[i + 1];
    }
  }

  /** A flight that goes in front has no equal-keyed flight behind it. */
  lemma InsertAtFrontIsStable(field: SortField, ascending: bool, k: SortKey, x: Flight, s: seq<Flight>)
    requires Ordered(field, ascending, s)
    requires s != [] && Precedes(field, ascending, x, s[0])
    ensures Tied(field, k, Insert(field, ascending, x, s))
            == Tied(field, k, s) + (if KeyOf(field, x) == k then [x] else [])
  {
    var tail := if KeyOf(field, x) == k then [x] else [];
    assert Insert(field, ascending, x, s) == [x] + s;
    assert ([x] + s)[1..] == s;
    assert Tied(field, k, [x] + s) == tail + Tied(field, k, s);
    if KeyOf(field, x) == k {
      forall j | 0 <= j < |s|
        ensures KeyOf(field, s[j]) != k
      {
        if KeyOf(field, s[j]) == k {
          assert Precedes(field, ascending, s[j], s[0]);
          if j == 0 {
            PrecedesIrreflexive(field, ascending, s[0]);
          }
        }
      }
      NoneTied(field, k, s);
    }
  }

  /** Inserting into an ordered list puts the new flight after every flight with the same key. */
  lemma {:induction false} InsertIsStable(field: SortField, ascending: bool, k: SortKey, x: Flight, s: seq<Flight>)
    requires Ordered(field, ascending, s)
    ensures Tied(field, k, Insert(field, ascending, x, s))
            == Tied(field, k, s) + (if KeyOf(field, x) == k then [x] else [])
    decreases |s|
  {
    var tail := if KeyOf(field, x) == k then [x] else [];
    if s == [] {
      assert [x][1..] == [];
      assert Tied(field, k, [x]) == tail + Tied(field, k, []);
    } else if Precedes(field, ascending, x, s[0]) {
      InsertAtFrontIsStable(field, ascending, k, x, s);
    } else {
      OrderedTail(field, ascending, s);
      InsertIsStable(field, ascending, k, x, s[1..]);
      var rest := Insert(field, ascending, x, s[1..]);
      var head := if KeyOf(field, s[0]) == k then [s[0]] else [];
      assert Insert(field, ascending, x, s) == [s[0]] + rest;
      assert ([s[0]] + rest)[1..] == rest;
      assert Tied(field, k, [s[0]] + rest) == head + Tied(field, k, rest);
      assert Tied(field, k, s) == head + Tied(field, k, s[1..]);
      assert head + (Tied(field, k, s[1..]) + tail) == (head + Tied(field, k, s[1..])) + tail;
    }
  }

  /** Inserting into a sorted list places the new flight after every flight with the same key. */
  lemma InsertIntoSortedIsStable(field: SortField, ascending: bool, k: SortKey, x: Flight, init: seq<Flight>)
    ensures Tied(field, k, Insert(field, ascending, x, SortedBy(field, ascending, init)))
            == Tied(field, k, SortedBy(field, ascending, init)) + (if KeyOf(field, x) == k then [x] else [])
  {
    SortedByIsOrdered(field, ascending, init);
    InsertIsStable(field, ascending, k, x, SortedBy(field, ascending, init));
  }

  /** Sorting keeps flights with equal keys in their original relative order, in both directions. */
  lemma {:induction false} SortedByIsStable(field: SortField, ascending: bool, k: SortKey, flights: seq<Flight>)
    ensures Tied(field, k, SortedBy(field, ascending, flights)) == Tied(field, k, flights)
    decreases |flights|
  {
    if flights != [] {
      var init, last := flights[..|flights| - 1], flights[|flights| - 1];
      var tail := if KeyOf(field, last) == k then [last] else [];
      assert SortedBy(field, ascending, flights) == Insert(field, ascending, last, SortedBy(field, ascending, init));
      InsertIntoSortedIsStable(field, ascending, k, last, init);
      SortedByIsStable(field, ascending, k, init);
      assert flights == init + [last];
      TiedConcat(field, k, init, [last]);
      assert [last][1..] == [];
      assert Tied(field, k, [last]) == tail + Tied(field, k, []);
    }
  }

  /**
   * In an ordered list the keys ascend (or descend): numbers by value,
   * callsigns by Python's string order.
   */
  lemma OrderedKeysAreMonotone(field: SortField, ascending: bool, s: seq<Flight>, i: nat, j: nat)
    requires Ordered(field, ascending, s) && i < j < |s|
    ensures ascending && field == ByAltitude ==> s[i].altitude <= s[j].altitude
    ensures !ascending && field == ByAltitude ==> s[i].altitude >= s[j].altitude
    ensures ascending && field == ByDistance ==> s[i].distanceTenths <= s[j].distanceTenths
    ensures !ascending && field == ByDistance ==> s[i].distanceTenths >= s[j].distanceTenths
    ensures ascending && field == BySpeed ==> s[i].groundSpeed <= s[j].groundSpeed
    ensures !ascending && field == BySpeed ==> s[i].groundSpeed >= s[j].groundSpeed
    ensures ascending && field == ByCallsign ==> s[i].callsign == s[j].callsign || LexLess(s[i].callsign, s[j].callsign)
    ensures !ascending && field == ByCallsign ==> s[i].callsign == s[j].callsign || LexLess(s[j].callsign, s[i].callsign)
  {
    assert !Precedes(field, ascending, s[j], s[i]);
    LexLessTotal(s[i].callsign, s[j].callsign);
  }

  /**
   * `_sort_flights`: for a recognised key, the flights ordered by it and
   * stable; for any other setting, the list as given.
   */
  function SortFlights(config: DisplayConfig, flights: seq<Flight>): (r: seq<Flight>)
    ensures multiset(r) == multiset(flights) && |r| == |flights|
    ensures SortFieldOf(config.sortBy).None? ==> r == flights
    ensures SortFieldOf(config.sortBy).Some? ==>
              var field := SortFieldOf(config.sortBy).value;
              && Ordered(field, config.sortAscending, r)
              && forall k :: Tied(field, k, r) == Tied(field, k, flights)
  {
    match SortFieldOf(config.sortBy)
    case None => flights
    case Some(field) =>
      var r := SortedBy(field, config.sortAscending, flights);
      SortedByPermutes(field, config.sortAscending, flights);
      SortedByIsOrdered(field, config.sortAscending, flights);
      assert forall k :: Tied(field, k, r) == Tied(field, k, flights) by {
        forall k {
          SortedByIsStable(field, config.sortAscending, k, flights);
        }
      }
      r
  }

  /** Python's `s[:n]`: a negative `n` counts back from the end. */
  function SliceTo<T>(s: seq<T>, n: int): (r: seq<T>)
    ensures n >= 0 ==> |r| == Min(|s|, n)
    ensures n < 0 ==> |r| == Max(0, |s| + n)
    ensures |r| <= |s| && r == s[..|r|]
  {
    if n >= 0 then s[..Min(|s|, n)] else s[..Max(0, |s| + n)]
  }

  /** The flights an update shows: sorted, then cut to `max_flights`. */
  function Displayed(config: DisplayConfig, flights: seq<Flight>): (r: seq<Flight>)
    ensures config.maxFlights >= 0 ==> |r| == Min(|flights|, config.maxFlights)
    ensures |r| <= |flights| && r == SortFlights(config, flights)[..|r|]
  {
    SliceTo(SortFlights(config, flights), config.maxFlights)
  }

  /** The error text the status line shows: long messages cut to 30 characters. */
  function StatusText(message: string): (r: string)
    ensures |message| <= 30 ==> r == message
    ensures |message| > 30 ==> |r| == 40 && r[..7] == "Error: " && r[7..37] == message[..30] && r[37..] == "..."
    ensures |r| <= 40
  {
    if |message| > 30 then "Error: " + message[..30] + "..." else message
  }

  /** The flight count and status text of the status bar. */
  datatype StatusLine = StatusLine(flightCount: nat, text: string)

  const InitialStatus: StatusLine := StatusLine(0, "Initializing...")

  /** Everything the handlers change, as one value. */
  datatype AppView = AppView(connected: bool, lastFlights: seq<Flight>, status: StatusLine, rows: seq<Row>)

  /** `_on_data_update`: connected, the full list kept, the displayed list in the table. */
  function AfterUpdate(config: DisplayConfig, flights: seq<Flight>): (v: AppView)
    ensures v.connected && v.lastFlights == flights
    ensures |v.rows| == v.status.flightCount && v.status.text == "Connected"
    ensures config.maxFlights >= 0 ==> |v.rows| == Min(|flights|, config.maxFlights)
  {
    var shown := Displayed(config, flights);
    AppView(true, flights, StatusLine(|shown|, "Connected"), RowsFor(shown))
  }

  /** `_on_error`: disconnected, the last flights and the table kept, the error on the status line. */
  function AfterError(v: AppView, message: string): (w: AppView)
    ensures !w.connected && w.lastFlights == v.lastFlights && w.rows == v.rows
    ensures w.status == StatusLine(|v.lastFlights|, StatusText(message))
  {
    v.(connected := false, status := StatusLine(|v.lastFlights|, StatusText(message)))
  }

  class FlightDisplayApp {
    const config: DisplayConfig
    const table: FlightTable
    var connected: bool
    var lastFlights: seq<Flight>
    var status: StatusLine

    constructor(config: DisplayConfig)
      ensures this.config == config && fresh(table)
      ensures View() == AppView(false, [], InitialStatus, [])
    {
      this.config := config;
      table := new FlightTable();
      connected := false;
      lastFlights := [];
      status := InitialStatus;
    }

    function View(): AppView
      reads this, table
    {
      AppView(connected, lastFlights, status, table.flightRows)
    }

    /** `_on_data_update`. */
    method OnDataUpdate(flights: seq<Flight>)
      modifies this, table
      ensures View() == AfterUpdate(config, flights)
    {
      connected := true;
      lastFlights := flights;
      var shown := SortFlights(config, flights);
      shown := SliceTo(shown, config.maxFlights);
      table.SetFlights(shown);
      status := StatusLine(|shown|, "Connected");
    }

    /** `_on_error`. */
    method OnError(message: string)
      modifies this
      ensures View() == AfterError(old(View()), message)
    {
      connected := false;
      status := StatusLine(|lastFlights|, StatusText(message));
    }
  }
}
