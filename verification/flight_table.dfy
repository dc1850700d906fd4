/**
 * The flight table: the eight display strings of a row, the alternating
 * row background, and the list of rows the table currently shows. Widget
 * construction, fonts and scrolling are not part of the model; a row is
 * its cell texts and its background colour.
 */
module Table {
  import opened Models
  import opened Formatting

  /** Column identifiers, in display order. */
  const ColumnIds: seq<string> := ["callsign", "airline", "aircraft", "route", "altitude", "speed", "heading", "distance"]

  /** Background of even rows. */
  const BgSecondary: string := "#16213e"
  /** Background of odd rows. */
  const RowAlt: string := "#1e2a4a"

  /** Shown in place of a missing value. */
  const Placeholder: string := "---"

  /** `ORG -> DST`, or the placeholder when neither airport is known. */
  function RouteCell(f: Flight): (r: string)
    ensures r == Placeholder <==> f.origin == NoAirport && f.destination == NoAirport
    ensures r != Placeholder ==> r == f.origin + " -> " + f.destination
  {
    if f.origin == NoAirport && f.destination == NoAirport then Placeholder
    else
      var route := f.origin + " -> " + f.destination;
      assert |route| >= 4;
      route
  }

  /** Comma-grouped altitude, or the placeholder for zero. */
  function AltitudeCell(altitude: int): (r: string)
    ensures r == Placeholder <==> altitude == 0
    ensures altitude > 0 ==> WellGrouped(r) && WithoutCommas(r) == Decimal(altitude)
  {
    if altitude != 0 then
      var s := FormatAltitude(altitude);
      assert s[0] != '-' || s[1] != '-';
      s
    else Placeholder
  }

  /** Ground speed in plain digits, or the placeholder for zero. */
  function SpeedCell(speed: int): (r: string)
    ensures r == Placeholder <==> speed == 0
    ensures speed > 0 ==> AllDigits(r) && DigitsValue(r) == speed
    ensures speed < 0 ==> |r| >= 2 && r[0] == '-' && AllDigits(r[1..]) && DigitsValue(r[1..]) == -speed
  {
    if speed != 0 then
      var s := IntToString(speed);
      assert speed < 0 ==> s[1..] == Decimal(-speed) && IsDigit(s[1]);
      assert speed > 0 ==> IsDigit(s[0]);
      s
    else Placeholder
  }

  /** Three-digit zero-padded heading, or the placeholder for zero (so due north shows the placeholder). */
  function HeadingCell(heading: int): (r: string)
    ensures r == Placeholder <==> heading == 0
    ensures 0 < heading <= 999 ==> |r| == 3 && AllDigits(r) && DigitsValue(r) == heading
  {
    if heading != 0 then
      var s := FormatHeading(heading);
      assert heading > 0 ==> IsDigit(s[0]);
      s
    else Placeholder
  }

  /**
   * The distance with one decimal place. With the point taken out, the
   * digits read as the number of tenths.
   */
  function DistanceCell(tenths: nat): (r: string)
    ensures |r| >= 3 && r[|r| - 2] == '.'
    ensures AllDigits(r[..|r| - 2]) && IsDigit(r[|r| - 1])
    ensures AllDigits(r[..|r| - 2] + r[|r| - 1..]) && DigitsValue(r[..|r| - 2] + r[|r| - 1..]) == tenths
  {
    var whole := Decimal(tenths / 10);
    var r := whole + "." + [DigitChar(tenths % 10)];
    assert r[..|r| - 2] == whole;
    assert r[|r| - 1..] == [DigitChar(tenths % 10)];
    var digits := whole + [DigitChar(tenths % 10)];
    assert digits[..|digits| - 1] == whole;
    r
  }

  /** The cell texts of one row, in column order. */
  function CellValues(f: Flight): (r: seq<string>)
    ensures |r| == |ColumnIds|
    ensures r[0] == f.callsign && r[1] == f.airline && r[2] == f.aircraftType && r[3] == RouteCell(f)
    ensures r[4] == AltitudeCell(f.altitude) && r[5] == SpeedCell(f.groundSpeed)
    ensures r[6] == HeadingCell(f.heading) && r[7] == DistanceCell(f.distanceTenths)
  {
    var altitude, speed, heading, distance :=
      AltitudeCell(f.altitude), SpeedCell(f.groundSpeed), HeadingCell(f.heading), DistanceCell(f.distanceTenths);
    [f.callsign, f.airline, f.aircraftType, RouteCell(f), altitude, speed, heading, distance]
  }

  /** The background of row `idx`: even rows one shade, odd rows the other. */
  function RowColour(idx: nat): string
  {
    if idx % 2 == 0 then BgSecondary else RowAlt
  }

  /** Neighbouring rows differ in colour, and the pattern repeats every two rows. */
  lemma RowColoursAlternate(idx: nat)
    ensures RowColour(idx) != RowColour(idx + 1)
    ensures RowColour(idx + 2) == RowColour(idx)
    ensures RowColour(idx) == BgSecondary <==> idx % 2 == 0
  {
  }

  datatype Row = Row(values: seq<string>, background: string)

  /** The rows the table shows for `flights`, one per flight, in order. */
  function RowsFor(flights: seq<Flight>): (rows: seq<Row>)
    ensures |rows| == |flights|
    ensures forall i :: 0 <= i < |rows| ==> |rows[i].values| == |ColumnIds|
    ensures forall i :: 0 <= i < |flights| ==> rows[i] == Row(CellValues(flights[i]), RowColour(i))
  {
    seq(|flights|, i requires 0 <= i < |flights| => Row(CellValues(flights[i]), RowColour(i)))
  }

  class FlightTable {
    var flightRows: seq<Row>

    constructor()
      ensures flightRows == []
    {
      flightRows := [];
    }

    /** `set_flights`: clear, then append one row per flight. */
    method SetFlights(flights: seq<Flight>)
      modifies this
      ensures flightRows == RowsFor(flights)
    {
      Clear();
      var rows := RowsFor(flights);
      var idx := 0;
      while idx < |flights|
        invariant 0 <= idx <= |flights|
        invariant flightRows == rows[..idx]
      {
        flightRows := flightRows + [Row(CellValues(flights[idx]), RowColour(idx))];
        idx := idx + 1;
      }
      assert rows[..idx] == rows;
    }

    /** `clear`: no rows left. */
    method Clear()
      modifies this
      ensures flightRows == []
    {
      flightRows := [];
    }
  }
}
