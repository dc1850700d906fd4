/**
 * The response side of the FlightRadar24 client: a JSON value type, the
 * synonym chains that pick a field out of an item (Python's `a or b`),
 * the field extractors, skip-on-error batch parsing, the callsign limit of
 * the details request and the classification of transport failures.
 *
 * The HTTP exchange itself is an input: a request either yields a decoded
 * body or one of the failures the client distinguishes.
 */
module ApiClient {
  import opened Wrappers
  import opened Formatting
  import opened Models

  /** A decoded JSON value. Numbers are integers in this model. */
  datatype Json =
    | JNull
    | JBool(b: bool)
    | JNum(n: int)
    | JStr(s: string)
    | JArray(elems: seq<Json>)
    | JObject(fields: map<string, Json>)

  /** Python truthiness of a decoded value. */
  predicate Truthy(v: Json)
  {
    match v
    case JNull => false
    case JBool(b) => b
    case JNum(n) => n != 0
    case JStr(s) => s != ""
    case JArray(a) => a != []
    case JObject(m) => m != map[]
  }

  const Empty: Json := JStr("")

  /** `d.get(key, default)`. */
  function GetOr(m: map<string, Json>, key: string, default: Json): Json
  {
    if key in m then m[key] else default
  }

  /** `vs[0] or vs[1] or ...`: the first truthy operand, or the last operand when none is truthy. */
  function Chain(vs: seq<Json>): (r: Json)
    requires vs != []
    ensures r in vs
    decreases |vs|
  {
    if |vs| == 1 || Truthy(vs[0]) then vs[0] else Chain(vs[1..])
  }

  /** When operand `i` is the first truthy one, the chain yields it. */
  lemma {:induction false} ChainYieldsFirstTruthy(vs: seq<Json>, i: nat)
    requires i < |vs| && Truthy(vs[i])
    requires forall j :: 0 <= j < i ==> !Truthy(vs[j])
    ensures Chain(vs) == vs[i]
    decreases i
  {
    if i > 0 {
      assert !Truthy(vs[0]);
      ChainYieldsFirstTruthy(vs[1..], i - 1);
    }
  }

  /** When no operand is truthy, the chain yields the last one. */
  lemma {:induction false} ChainOfFalsyYieldsLast(vs: seq<Json>)
    requires vs != []
    requires forall j :: 0 <= j < |vs| ==> !Truthy(vs[j])
    ensures Chain(vs) == vs[|vs| - 1]
    decreases |vs|
  {
    if |vs| > 1 {
      assert !Truthy(vs[0]);
      ChainOfFalsyYieldsLast(vs[1..]);
    }
  }

  /** The chain is truthy exactly when one of its operands is. */
  lemma {:induction false} ChainTruthyIffSomeOperand(vs: seq<Json>)
    requires vs != []
    ensures Truthy(Chain(vs)) <==> exists j :: 0 <= j < |vs| && Truthy(vs[j])
    decreases |vs|
  {
    if |vs| > 1 && !Truthy(vs[0]) {
      ChainTruthyIffSomeOperand(vs[1..]);
      if exists j :: 0 <= j < |vs| && Truthy(vs[j]) {
        var j :| 0 <= j < |vs| && Truthy(vs[j]);
        assert j > 0 && vs[1..][j - 1] == vs[j];
      }
    }
  }

  /** The three-operand chain spelled out. */
  lemma Chain3(a: Json, b: Json, c: Json)
    ensures Chain([a, b, c]) == if Truthy(a) then a else if Truthy(b) then b else c
  {
    assert [a, b, c][1..] == [b, c];
    assert [b, c][1..] == [c];
  }

  /** Python's name of the type of a decoded value, as it appears in error messages. */
  function TypeName(v: Json): string
  {
    match v
    case JNull => "NoneType"
    case JBool(_) => "bool"
    case JNum(_) => "int"
    case JStr(_) => "str"
    case JArray(_) => "list"
    case JObject(_) => "dict"
  }

  /** `str(v)`; the representation of a non-empty list or dict is not modelled. */
  function PyStr(v: Json): Option<string>
  {
    match v
    case JNull => Some("None")
    case JBool(b) => Some(if b then "True" else "False")
    case JNum(n) => Some(IntToString(n))
    case JStr(s) => Some(s)
    case JArray(a) => if a == [] then Some("[]") else None
    case JObject(m) => if m == map[] then Some("{}") else None
  }

  /**
   * The text a string field ends up holding: a string is kept, a falsy
   * value reads as empty (every text field treats both alike), and a truthy
   * non-string is outside the model.
   */
  function TextOf(v: Json): Option<string>
  {
    if v.JStr? then Some(v.s) else if !Truthy(v) then Some("") else None
  }

  /** `int(v)` or `float(v)` of a decoded value; a numeric string is outside the model. */
  function ToNumber(v: Json): Option<int>
  {
    match v
    case JNum(n) => Some(n)
    case JBool(b) => Some(if b then 1 else 0)
    case _ => None
  }

  /** A non-empty string value. */
  predicate IsText(v: Json) { v.JStr? && v.s != "" }

  /**
   * `_extract_aircraft_type`: the code of a nested aircraft model, else the
   * model itself as a string, else the flat `typecode`/`aircraft_type` fields.
   */
  function ExtractAircraftType(item: map<string, Json>): Option<string>
  {
    if "aircraft" in item && item["aircraft"].JObject? then
      var model := GetOr(item["aircraft"].fields, "model", JObject(map[]));
      if model.JObject? then
        TextOf(Chain([GetOr(model.fields, "code", Empty), Empty]))
      else if Truthy(model) then PyStr(model)
      else Some("")
    else
      TextOf(Chain([GetOr(item, "typecode", Empty), GetOr(item, "aircraft_type", Empty), Empty]))
  }

  /** The resolution order of `_extract_aircraft_type`. */
  lemma AircraftTypeResolution(item: map<string, Json>)
    ensures "aircraft" in item && item["aircraft"].JObject? && "model" !in item["aircraft"].fields ==> ExtractAircraftType(item) == Some("")
    ensures "aircraft" in item && item["aircraft"].JObject? && "model" in item["aircraft"].fields ==>
              var model := item["aircraft"].fields["model"];
              && (model.JObject? && "code" in model.fields && IsText(model.fields["code"]) ==> ExtractAircraftType(item) == Some(model.fields["code"].s))
              && (model.JObject? && ("code" !in model.fields || !Truthy(model.fields["code"])) ==> ExtractAircraftType(item) == Some(""))
              && (model.JStr? ==> ExtractAircraftType(item) == Some(model.s))
              && (model.JNum? && model.n != 0 ==> ExtractAircraftType(item) == Some(IntToString(model.n)))
    ensures !("aircraft" in item && item["aircraft"].JObject?) ==>
              var t, a := GetOr(item, "typecode", Empty), GetOr(item, "aircraft_type", Empty);
              && (IsText(t) ==> ExtractAircraftType(item) == Some(t.s))
              && (!Truthy(t) && IsText(a) ==> ExtractAircraftType(item) == Some(a.s))
              && (!Truthy(t) && !Truthy(a) ==> ExtractAircraftType(item) == Some(""))
  {
    if "aircraft" in item && item["aircraft"].JObject? {
      var model := GetOr(item["aircraft"].fields, "model", JObject(map[]));
      if model.JObject? {
        assert [GetOr(model.fields, "code", Empty), Empty][1..] == [Empty];
      }
    } else {
      Chain3(GetOr(item, "typecode", Empty), GetOr(item, "aircraft_type", Empty), Empty);
    }
  }

  /**
   * `_extract_airport`: `iata`, else `icao`, of a nested airport object;
   * otherwise the flat fields (`orig_iata`, `origin_iata` for the origin,
   * `dest_iata`, `destination_iata` for the destination).
   */
  function ExtractAirport(item: map<string, Json>, field: string): Option<string>
  {
    if field in item && item[field].JObject? then
      var d := item[field].fields;
      var iata, icao := GetOr(d, "iata", Empty), GetOr(d, "icao", Empty);
      TextOf(Chain([iata, icao, Empty]))
    else if field == "origin" then
      var a, b := GetOr(item, "orig_iata", Empty), GetOr(item, "origin_iata", Empty);
      TextOf(Chain([a, b, Empty]))
    else if field == "destination" then
      var a, b := GetOr(item, "dest_iata", Empty), GetOr(item, "destination_iata", Empty);
      TextOf(Chain([a, b, Empty]))
    else
      Some("")
  }

  /** The resolution order of `_extract_airport`. */
  lemma AirportResolution(item: map<string, Json>, field: string)
    ensures field in item && item[field].JObject? ==>
              var d := item[field].fields;
              var iata, icao := GetOr(d, "iata", Empty), GetOr(d, "icao", Empty);
              && (IsText(iata) ==> ExtractAirport(item, field) == Some(iata.s))
              && (!Truthy(iata) && IsText(icao) ==> ExtractAirport(item, field) == Some(icao.s))
              && (!Truthy(iata) && !Truthy(icao) ==> ExtractAirport(item, field) == Some(""))
    ensures !(field in item && item[field].JObject?) && field == "origin" ==>
              var a, b := GetOr(item, "orig_iata", Empty), GetOr(item, "origin_iata", Empty);
              && (IsText(a) ==> ExtractAirport(item, field) == Some(a.s))
              && (!Truthy(a) && IsText(b) ==> ExtractAirport(item, field) == Some(b.s))
              && (!Truthy(a) && !Truthy(b) ==> ExtractAirport(item, field) == Some(""))
    ensures !(field in item && item[field].JObject?) && field == "destination" ==>
              var a, b := GetOr(item, "dest_iata", Empty), GetOr(item, "destination_iata", Empty);
              && (IsText(a) ==> ExtractAirport(item, field) == Some(a.s))
              && (!Truthy(a) && IsText(b) ==> ExtractAirport(item, field) == Some(b.s))
              && (!Truthy(a) && !Truthy(b) ==> ExtractAirport(item, field) == Some(""))
    ensures !(field in item && item[field].JObject?) && field != "origin" && field != "destination" ==> ExtractAirport(item, field) == Some("")
  {
    if field in item && item[field].JObject? {
      var d := item[field].fields;
      Chain3(GetOr(d, "iata", Empty), GetOr(d, "icao", Empty), Empty);
    } else if field == "origin" {
      Chain3(GetOr(item, "orig_iata", Empty), GetOr(item, "origin_iata", Empty), Empty);
    } else if field == "destination" {
      Chain3(GetOr(item, "dest_iata", Empty), GetOr(item, "destination_iata", Empty), Empty);
    }
  }

  /**
   * `_extract_airline`: `icao`, else `iata`, of a nested airline object; a
   * string airline as it is; otherwise the first three characters of the
   * callsign. `None` is the `TypeError` that `len` raises on a number or
   * boolean callsign, or that slicing raises on a dict callsign of three or
   * more keys. A list callsign of three or more elements slices to a list,
   * which as an airline is outside the model, so it is `None` too.
   */
  function ExtractAirline(item: map<string, Json>): Option<string>
  {
    if "airline" in item && item["airline"].JObject? then
      var d := item["airline"].fields;
      TextOf(Chain([GetOr(d, "icao", Empty), GetOr(d, "iata", Empty)]))
    else if "airline" in item && item["airline"].JStr? then
      Some(item["airline"].s)
    else
      var cs := GetOr(item, "callsign", Empty);
      if !Truthy(cs) then Some("")
      else
        match cs
        case JStr(s) => Some(if |s| >= 3 then s[..3] else "")
        case JArray(l) => if |l| >= 3 then None else Some("")
        case JObject(m) => if |m| >= 3 then None else Some("")
        case _ => None
  }

  /** The resolution order of `_extract_airline`. */
  lemma AirlineResolution(item: map<string, Json>)
    ensures "airline" in item && item["airline"].JObject? ==>
              var d := item["airline"].fields;
              var icao, iata := GetOr(d, "icao", Empty), GetOr(d, "iata", Empty);
              && (IsText(icao) ==> ExtractAirline(item) == Some(icao.s))
              && (!Truthy(icao) && IsText(iata) ==> ExtractAirline(item) == Some(iata.s))
              && (!Truthy(icao) && !Truthy(iata) ==> ExtractAirline(item) == Some(""))
    ensures "airline" in item && item["airline"].JStr? ==> ExtractAirline(item) == Some(item["airline"].s)
    ensures !("airline" in item && (item["airline"].JObject? || item["airline"].JStr?)) ==>
              var cs := GetOr(item, "callsign", Empty);
              && (cs.JStr? && |cs.s| >= 3 ==> ExtractAirline(item) == Some(cs.s[..3]))
              && (cs.JStr? && |cs.s| < 3 ==> ExtractAirline(item) == Some(""))
              && (!Truthy(cs) ==> ExtractAirline(item) == Some(""))
              && (cs.JNum? && cs.n != 0 ==> ExtractAirline(item) == None)
  {
    if "airline" in item && item["airline"].JObject? {
      var d := item["airline"].fields;
      assert [GetOr(d, "icao", Empty), GetOr(d, "iata", Empty)][1..] == [GetOr(d, "iata", Empty)];
    }
  }

  /** `vertical_speed`: `None` exactly when `vspeed` is absent or null. */
  function VerticalSpeedOf(item: map<string, Json>): Option<Option<int>>
  {
    var v := GetOr(item, "vspeed", JNull);
    if v.JNull? then Some(None)
    else
      var n :- ToNumber(Chain([v, JNum(0)]));
      Some(Some(n))
  }

  /** A numeric field under either of two names, falling back to zero. */
  function NumberField(item: map<string, Json>, k1: string, k2: string): Option<int>
  {
    ToNumber(Chain([GetOr(item, k1, JNum(0)), GetOr(item, k2, JNum(0)), JNum(0)]))
  }

  /** `fr24_id or flightId or id`, as text. */
  function FlightIdOf(item: map<string, Json>): Option<string>
  {
    PyStr(Chain([GetOr(item, "fr24_id", Empty), GetOr(item, "flightId", Empty), GetOr(item, "id", Empty)]))
  }

  /** `callsign or ""`. */
  function CallsignOf(item: map<string, Json>): Option<string>
  {
    TextOf(Chain([GetOr(item, "callsign", Empty), Empty]))
  }

  /** `gspeed or groundSpeed or speed or 0`. */
  function GroundSpeedOf(item: map<string, Json>): Option<int>
  {
    ToNumber(Chain([GetOr(item, "gspeed", JNum(0)), GetOr(item, "groundSpeed", JNum(0)), GetOr(item, "speed", JNum(0)), JNum(0)]))
  }

  /** `registration or hex or ""`. */
  function RegistrationOf(item: map<string, Json>): Option<string>
  {
    TextOf(Chain([GetOr(item, "registration", Empty), GetOr(item, "hex", Empty), Empty]))
  }

  /** The flight id is the first truthy of `fr24_id`, `flightId` and `id`, in that order. */
  lemma FlightIdResolution(item: map<string, Json>)
    ensures var a, b, c := GetOr(item, "fr24_id", Empty), GetOr(item, "flightId", Empty), GetOr(item, "id", Empty);
            && (IsText(a) ==> FlightIdOf(item) == Some(a.s))
            && (!Truthy(a) && IsText(b) ==> FlightIdOf(item) == Some(b.s))
            && (!Truthy(a) && !Truthy(b) && IsText(c) ==> FlightIdOf(item) == Some(c.s))
            && (a.JNum? && a.n != 0 ==> FlightIdOf(item) == Some(IntToString(a.n)))
            && (!Truthy(a) && !Truthy(b) && "id" !in item ==> FlightIdOf(item) == Some(""))
  {
    Chain3(GetOr(item, "fr24_id", Empty), GetOr(item, "flightId", Empty), GetOr(item, "id", Empty));
  }

  /**
   * One item of the response turned into a flight, or `None` when building
   * it raises one of the errors the parser skips. `None` also stands for a
   * value outside the model: a text number in a numeric field, a truthy
   * non-text value in a text field, or a non-empty list or dict as the
   * flight id, whose `str()` text is not modelled. The record passes
   * through the defaults of the flight constructor.
   */
  function ParseItem(item: map<string, Json>): Option<Flight>
  {
    var flightId := FlightIdOf(item);
    var callsign := CallsignOf(item);
    var airline := ExtractAirline(item);
    var aircraftType := ExtractAircraftType(item);
    var origin := ExtractAirport(item, "origin");
    var destination := ExtractAirport(item, "destination");
    var latitude := NumberField(item, "lat", "latitude");
    var longitude := NumberField(item, "lon", "longitude");
    var altitude := NumberField(item, "alt", "altitude");
    var groundSpeed := GroundSpeedOf(item);
    var heading := NumberField(item, "track", "heading");
    var registration := RegistrationOf(item);
    var verticalSpeed := VerticalSpeedOf(item);
    if && flightId.Some? && callsign.Some? && airline.Some? && aircraftType.Some?
       && origin.Some? && destination.Some? && latitude.Some? && longitude.Some?
       && altitude.Some? && groundSpeed.Some? && heading.Some? && registration.Some?
       && verticalSpeed.Some?
    then
      Some(Normalize(Flight(flightId.value, callsign.value, airline.value, aircraftType.value,
                            origin.value, destination.value, latitude.value, longitude.value,
                            altitude.value, groundSpeed.value, heading.value, 0,
                            Some(registration.value), verticalSpeed.value)))
    else
      None
  }

  /**
   * A parsed flight carries the constructor defaults, no distance yet, a
   * registration string, a vertical speed exactly when `vspeed` is given,
   * and the first-choice id and callsign when they are non-empty strings.
   */
  lemma ParsedFlightFields(item: map<string, Json>)
    ensures ParseItem(item).Some? ==> IsNormalized(ParseItem(item).value) && ParseItem(item).value.distanceTenths == 0 && ParseItem(item).value.registration.Some?
    ensures ParseItem(item).Some? ==> (ParseItem(item).value.verticalSpeed.None? <==> "vspeed" !in item || item["vspeed"].JNull?)
    ensures ParseItem(item).Some? ==> Some(ParseItem(item).value.flightId) == FlightIdOf(item)
    ensures ParseItem(item).Some? && "fr24_id" in item && IsText(item["fr24_id"]) ==> ParseItem(item).value.flightId == item["fr24_id"].s
    ensures ParseItem(item).Some? && "callsign" in item && IsText(item["callsign"]) ==> ParseItem(item).value.callsign == item["callsign"].s
  {
    FlightIdResolution(item);
    assert [GetOr(item, "callsign", Empty), Empty][1..] == [Empty];
  }

  /** A value a text field accepts: a string, or a falsy value read as empty. */
  predicate TextOk(v: Json) { v.JStr? || !Truthy(v) }

  /** A value a numeric field accepts: a number, a boolean, or a falsy value that falls through to zero. */
  predicate NumberOk(v: Json) { v.JNum? || v.JBool? || !Truthy(v) }

  /** A value whose `str()` the model knows: anything but a non-empty list or dict. */
  predicate StrOk(v: Json) { !(v.JArray? && v.elems != []) && !(v.JObject? && v.fields != map[]) }

  /** The nested objects of an item hold what the extractors read from them. */
  predicate NestedOk(item: map<string, Json>)
  {
    && ("airline" in item && item["airline"].JObject? ==>
          TextOk(GetOr(item["airline"].fields, "icao", Empty)) && TextOk(GetOr(item["airline"].fields, "iata", Empty)))
    && ("aircraft" in item && item["aircraft"].JObject? ==>
          var model := GetOr(item["aircraft"].fields, "model", JObject(map[]));
          (model.JObject? ==> TextOk(GetOr(model.fields, "code", Empty))) && StrOk(model))
    && ("origin" in item && item["origin"].JObject? ==>
          TextOk(GetOr(item["origin"].fields, "iata", Empty)) && TextOk(GetOr(item["origin"].fields, "icao", Empty)))
    && ("destination" in item && item["destination"].JObject? ==>
          TextOk(GetOr(item["destination"].fields, "iata", Empty)) && TextOk(GetOr(item["destination"].fields, "icao", Empty)))
  }

  /** Every field the parser reads holds a value of the kind it expects (a missing field always does). */
  predicate WellFormedItem(item: map<string, Json>)
  {
    && StrOk(GetOr(item, "fr24_id", Empty)) && StrOk(GetOr(item, "flightId", Empty)) && StrOk(GetOr(item, "id", Empty))
    && TextOk(GetOr(item, "callsign", Empty))
    && TextOk(GetOr(item, "registration", Empty)) && TextOk(GetOr(item, "hex", Empty))
    && TextOk(GetOr(item, "typecode", Empty)) && TextOk(GetOr(item, "aircraft_type", Empty))
    && TextOk(GetOr(item, "orig_iata", Empty)) && TextOk(GetOr(item, "origin_iata", Empty))
    && TextOk(GetOr(item, "dest_iata", Empty)) && TextOk(GetOr(item, "destination_iata", Empty))
    && NumberOk(GetOr(item, "lat", JNum(0))) && NumberOk(GetOr(item, "latitude", JNum(0)))
    && NumberOk(GetOr(item, "lon", JNum(0))) && NumberOk(GetOr(item, "longitude", JNum(0)))
    && NumberOk(GetOr(item, "alt", JNum(0))) && NumberOk(GetOr(item, "altitude", JNum(0)))
    && NumberOk(GetOr(item, "gspeed", JNum(0))) && NumberOk(GetOr(item, "groundSpeed", JNum(0)))
    && NumberOk(GetOr(item, "speed", JNum(0)))
    && NumberOk(GetOr(item, "track", JNum(0))) && NumberOk(GetOr(item, "heading", JNum(0)))
    && NumberOk(GetOr(item, "vspeed", JNull))
    && NestedOk(item)
  }

  /** An item whose fields all hold values of the expected kinds always yields a flight. */
  lemma WellFormedItemParses(item: map<string, Json>)
    requires WellFormedItem(item)
    ensures ParseItem(item).Some?
  {
    ExtractorsAccept(item);
    var ids := [GetOr(item, "fr24_id", Empty), GetOr(item, "flightId", Empty), GetOr(item, "id", Empty)];
    assert Chain(ids) in ids;
    assert FlightIdOf(item).Some?;
    TextChainAccepts([GetOr(item, "callsign", Empty), Empty]);
    TextChainAccepts([GetOr(item, "registration", Empty), GetOr(item, "hex", Empty), Empty]);
    NumberFieldAccepts(item, "lat", "latitude");
    NumberFieldAccepts(item, "lon", "longitude");
    NumberFieldAccepts(item, "alt", "altitude");
    NumberFieldAccepts(item, "track", "heading");
    NumberChainAccepts([GetOr(item, "gspeed", JNum(0)), GetOr(item, "groundSpeed", JNum(0)), GetOr(item, "speed", JNum(0)), JNum(0)]);
    ParseItemOfParts(item);
  }

  /** The parse succeeds once every field it reads has been read without error. */
  lemma ParseItemOfParts(item: map<string, Json>)
    requires FlightIdOf(item).Some? && CallsignOf(item).Some?
    requires ExtractAirline(item).Some? && ExtractAircraftType(item).Some?
    requires ExtractAirport(item, "origin").Some? && ExtractAirport(item, "destination").Some?
    requires NumberField(item, "lat", "latitude").Some? && NumberField(item, "lon", "longitude").Some?
    requires NumberField(item, "alt", "altitude").Some? && NumberField(item, "track", "heading").Some?
    requires GroundSpeedOf(item).Some? && RegistrationOf(item).Some?
    requires VerticalSpeedOf(item).Some?
    ensures ParseItem(item).Some?
  {
  }

  lemma ExtractorsAccept(item: map<string, Json>)
    requires TextOk(GetOr(item, "callsign", Empty)) && NestedOk(item)
    requires TextOk(GetOr(item, "typecode", Empty)) && TextOk(GetOr(item, "aircraft_type", Empty))
    requires TextOk(GetOr(item, "orig_iata", Empty)) && TextOk(GetOr(item, "origin_iata", Empty))
    requires TextOk(GetOr(item, "dest_iata", Empty)) && TextOk(GetOr(item, "destination_iata", Empty))
    requires NumberOk(GetOr(item, "vspeed", JNull))
    ensures ExtractAirline(item).Some? && ExtractAircraftType(item).Some?
    ensures ExtractAirport(item, "origin").Some? && ExtractAirport(item, "destination").Some?
    ensures VerticalSpeedOf(item).Some?
  {
  }

  /** A chain of acceptable text values yields an acceptable one. */
  lemma TextChainAccepts(vs: seq<Json>)
    requires vs != [] && forall i :: 0 <= i < |vs| ==> TextOk(vs[i])
    ensures TextOf(Chain(vs)).Some?
  {
  }

  /**
   * A chain of acceptable numeric values ending in a number yields a number:
   * a falsy value is passed over and only the last operand may be one.
   */
  lemma {:induction false} NumberChainAccepts(vs: seq<Json>)
    requires vs != [] && vs[|vs| - 1].JNum? && forall i :: 0 <= i < |vs| ==> NumberOk(vs[i])
    ensures ToNumber(Chain(vs)).Some?
    decreases |vs|
  {
    if |vs| > 1 && !Truthy(vs[0]) {
      NumberChainAccepts(vs[1..]);
    }
  }

  lemma NumberFieldAccepts(item: map<string, Json>, k1: string, k2: string)
    requires NumberOk(GetOr(item, k1, JNum(0))) && NumberOk(GetOr(item, k2, JNum(0)))
    ensures NumberField(item, k1, k2).Some?
  {
    NumberChainAccepts([GetOr(item, k1, JNum(0)), GetOr(item, k2, JNum(0)), JNum(0)]);
  }

  /**
   * Without an `airline` field the extractor and the constructor default
   * agree: the parsed airline is the one the constructor derives from the
   * parsed callsign.
   */
  lemma AirlineFallbackAgreesWithDefault(item: map<string, Json>)
    requires "airline" !in item
    requires ParseItem(item).Some?
    ensures ParseItem(item).value.airline == AirlineFromCallsign(ParseItem(item).value.callsign)
  {
    var cs := GetOr(item, "callsign", Empty);
    assert [cs, Empty][1..] == [Empty];
  }

  /** The message of the `AttributeError` raised by calling `.get` on a non-dict. */
  function NoGetMessage(v: Json): string
  {
    "'" + TypeName(v) + "' object has no attribute 'get'"
  }

  /**
   * The flights of a list of items, skipping the items that `parse`
   * rejects (`ParseItem` in the client).
   * An item that is not a dict raises an error that the parser does not
   * catch: the whole batch fails with it.
   */
  function ParseItems(parse: map<string, Json> -> Option<Flight>, items: seq<Json>): (r: Result<seq<Flight>, string>)
    ensures r.Ok? <==> forall i :: 0 <= i < |items| ==> items[i].JObject?
    ensures r.Ok? ==> |r.value| <= |items|
    decreases |items|
  {
    if items == [] then Ok([])
    else
      var init, last := items[..|items| - 1], items[|items| - 1];
      match ParseItems(parse, init)
      case Err(e) => Err(e)
      case Ok(prior) =>
        if !last.JObject? then Err(NoGetMessage(last))
        else match parse(last.fields)
          case Some(f) => Ok(prior + [f])
          case None => Ok(prior)
  }

  /** The error of a failing batch comes from its first item that is not a dict. */
  lemma {:induction false} ParseItemsFailsAtFirstNonObject(parse: map<string, Json> -> Option<Flight>, items: seq<Json>, k: nat)
    requires k < |items| && !items[k].JObject?
    requires forall i :: 0 <= i < k ==> items[i].JObject?
    ensures ParseItems(parse, items) == Err(NoGetMessage(items[k]))
    decreases |items|
  {
    var init := items[..|items| - 1];
    if k < |items| - 1 {
      assert init[k] == items[k];
      ParseItemsFailsAtFirstNonObject(parse, init, k);
    } else {
      assert forall i :: 0 <= i < |init| ==> init[i].JObject?;
    }
  }

  /** Items are parsed independently and in order: parsing a concatenation concatenates the results. */
  lemma {:induction false} ParseItemsConcat(parse: map<string, Json> -> Option<Flight>, a: seq<Json>, b: seq<Json>)
    requires ParseItems(parse, a).Ok? && ParseItems(parse, b).Ok?
    ensures ParseItems(parse, a + b) == Ok(ParseItems(parse, a).value + ParseItems(parse, b).value)
    decreases |b|
  {
    if b == [] {
      assert a + b == a;
      assert ParseItems(parse, b) == Ok([]);
      assert ParseItems(parse, a).value + [] == ParseItems(parse, a).value;
    } else {
      var binit, last := b[..|b| - 1], b[|b| - 1];
      assert (a + b)[..|a + b| - 1] == a + binit;
      assert (a + b)[|a + b| - 1] == last;
      assert ParseItems(parse, binit).Ok?;
      ParseItemsConcat(parse, a, binit);
      var pa, pb := ParseItems(parse, a).value, ParseItems(parse, binit).value;
      assert last.JObject?;
      match parse(last.fields) {
        case Some(f) =>
          assert ParseItems(parse, b).value == pb + [f];
          assert ParseItems(parse, a + b).value == (pa + pb) + [f];
          assert (pa + pb) + [f] == pa + (pb + [f]);
        case None =>
          assert ParseItems(parse, b).value == pb;
      }
    }
  }

  /** Parsing one more item: a dict extends the result by its flight or by nothing, anything else fails the batch. */
  lemma ParseItemsStep(parse: map<string, Json> -> Option<Flight>, items: seq<Json>, i: nat)
    requires i < |items| && ParseItems(parse, items[..i]).Ok?
    ensures !items[i].JObject? ==> ParseItems(parse, items[..i + 1]) == Err(NoGetMessage(items[i]))
    ensures items[i].JObject? && parse(items[i].fields).Some? ==>
              ParseItems(parse, items[..i + 1]) == Ok(ParseItems(parse, items[..i]).value + [parse(items[i].fields).value])
    ensures items[i].JObject? && parse(items[i].fields).None? ==>
              ParseItems(parse, items[..i + 1]) == ParseItems(parse, items[..i])
  {
    assert items[..i + 1][..i] == items[..i];
    assert items[..i + 1][i] == items[i];
  }

  /** A single dict item yields its flight, or nothing when it fails to parse. */
  lemma ParseSingleItem(parse: map<string, Json> -> Option<Flight>, item: map<string, Json>)
    ensures ParseItems(parse, [JObject(item)]) == Ok(if parse(item).Some? then [parse(item).value] else [])
  {
    assert [JObject(item)][..0] == [];
    assert ParseItems(parse, []) == Ok([]);
    if parse(item).Some? {
      assert [] + [parse(item).value] == [parse(item).value];
    }
  }

  /** Every flight of a parsed batch carries the constructor defaults. */
  lemma {:induction false} ParsedFlightsAreNormalized(items: seq<Json>)
    requires ParseItems(ParseItem, items).Ok?
    ensures forall j :: 0 <= j < |ParseItems(ParseItem, items).value| ==> IsNormalized(ParseItems(ParseItem, items).value[j])
    decreases |items|
  {
    if items != [] {
      var init, last := items[..|items| - 1], items[|items| - 1];
      ParsedFlightsAreNormalized(init);
      ParsedFlightFields(last.fields);
    }
  }

  /**
   * The sequence the parser iterates: the `data` entry of the body, an
   * empty list when there is none. Iterating a string yields its characters
   * and iterating a dict its keys; anything else cannot be iterated.
   */
  function ResponseItems(data: Json): (r: Result<seq<Json>, string>)
    ensures !data.JObject? ==> r == Err(NoGetMessage(data))
    ensures data.JObject? && "data" !in data.fields ==> r == Ok([])
    ensures data.JObject? && "data" in data.fields && data.fields["data"].JArray? ==> r == Ok(data.fields["data"].elems)
  {
    if !data.JObject? then Err(NoGetMessage(data))
    else
      var list := GetOr(data.fields, "data", JArray([]));
      match list
      case JArray(items) => Ok(items)
      case JStr(s) => Ok(seq(|s|, i requires 0 <= i < |s| => JStr([s[i]])))
      case JObject(m) => if m == map[] then Ok([]) else Err(NoGetMessage(JStr("")))
      case _ => Err("'" + TypeName(list) + "' object is not iterable")
  }

  /** What `_parse_response` returns or raises for a decoded body. */
  function ParsedResponse(data: Json): Result<seq<Flight>, string>
  {
    var items :- ResponseItems(data);
    ParseItems(ParseItem, items)
  }

  /**
   * The loop of `_parse_response`: append the flight of each item, skip an
   * item its parser rejects, and stop at an item that is not a dict.
   */
  method ParseEach(parse: map<string, Json> -> Option<Flight>, items: seq<Json>) returns (r: Result<seq<Flight>, string>)
    ensures r == ParseItems(parse, items)
  {
    var flights: seq<Flight> := [];
    var i := 0;
    while i < |items|
      invariant 0 <= i <= |items|
      invariant ParseItems(parse, items[..i]) == Ok(flights)
      invariant forall j :: 0 <= j < i ==> items[j].JObject?
    {
      var item := items[i];
      ParseItemsStep(parse, items, i);
      if !item.JObject? {
        ParseItemsFailsAtFirstNonObject(parse, items, i);
        return Err(NoGetMessage(item));
      }
      match parse(item.fields) {
        case Some(f) => flights := flights + [f];
        case None =>
      }
      i := i + 1;
    }
    assert items[..i] == items;
    r := Ok(flights);
  }

  /** `_parse_response`: read the item list of the body, then parse it item by item. */
  method ParseResponse(data: Json) returns (r: Result<seq<Flight>, string>)
    ensures r == ParsedResponse(data)
    ensures r.Ok? && data.JObject? && "data" in data.fields && data.fields["data"].JArray? ==>
              |r.value| <= |data.fields["data"].elems|
  {
    var source := ResponseItems(data);
    if source.Err? {
      return Err(source.error);
    }
    r := ParseEach(ParseItem, source.value);
  }

  /** How one HTTP exchange with the API ended. */
  datatype HttpOutcome =
    | Responded(body: Json)                 // status below 400, body decoded
    | TimedOut(detail: string)
    | ConnectionFailed(detail: string)
    | HttpStatus(code: int, detail: string) // status 400 or above
    | RequestFailed(detail: string)         // any other failure of the request library

  /** What a fetch hands to its caller: flights, an `FR24APIError`, or another exception. */
  datatype FetchOutcome =
    | Fetched(flights: seq<Flight>)
    | ApiError(message: string)
    | Unexpected(message: string)

  /** The message of the `FR24APIError` raised for a failed exchange. */
  function FailureMessage(o: HttpOutcome): (r: string)
    requires !o.Responded?
    ensures r == "Invalid API key" <==> o.HttpStatus? && o.code == 401
    ensures r == "Rate limit exceeded" <==> o.HttpStatus? && o.code == 429
    ensures o.HttpStatus? && o.code != 401 && o.code != 429 ==> r == "HTTP error: " + o.detail
    ensures o.TimedOut? ==> r == "Request timed out: " + o.detail
    ensures o.ConnectionFailed? ==> r == "Connection error: " + o.detail
    ensures o.RequestFailed? ==> r == "Request failed: " + o.detail
  {
    match o
    case TimedOut(d) =>
      var m := "Request timed out: " + d;
      assert m[8] == 't';
      m
    case ConnectionFailed(d) =>
      var m := "Connection error: " + d;
      assert m[0] == 'C';
      m
    case HttpStatus(code, d) =>
      if code == 401 then "Invalid API key"
      else if code == 429 then "Rate limit exceeded"
      else
        var m := "HTTP error: " + d;
        assert m[0] == 'H';
        m
    case RequestFailed(d) =>
      var m := "Request failed: " + d;
      assert m[8] == 'f';
      m
  }

  datatype FailureKind = TimeoutKind | ConnectionKind | Unauthorized | RateLimited | OtherStatus | OtherFailure

  function KindOf(o: HttpOutcome): FailureKind
    requires !o.Responded?
  {
    match o
    case TimedOut(_) => TimeoutKind
    case ConnectionFailed(_) => ConnectionKind
    case HttpStatus(code, _) => if code == 401 then Unauthorized else if code == 429 then RateLimited else OtherStatus
    case RequestFailed(_) => OtherFailure
  }

  /** Failures of different kinds never share a message. */
  lemma FailureMessagesDistinct(o1: HttpOutcome, o2: HttpOutcome)
    requires !o1.Responded? && !o2.Responded?
    ensures KindOf(o1) != KindOf(o2) ==> FailureMessage(o1) != FailureMessage(o2)
  {
    if KindOf(o1) != KindOf(o2) {
      var m1, m2 := FailureMessage(o1), FailureMessage(o2);
      assert |m1| >= 9 && |m2| >= 9;
      assert m1[0] != m2[0] || m1[8] != m2[8];
    }
  }

  /** `_fetch_flights` once the exchange has ended: parse the body or classify the failure. */
  function FetchResult(o: HttpOutcome): FetchOutcome
  {
    if o.Responded? then
      match ParsedResponse(o.body)
      case Ok(flights) => Fetched(flights)
      case Err(e) => Unexpected(e)
    else ApiError(FailureMessage(o))
  }

  method FetchFlights(o: HttpOutcome) returns (r: FetchOutcome)
    ensures r == FetchResult(o)
    ensures r.ApiError? <==> !o.Responded?
    ensures r.ApiError? ==> r.message == FailureMessage(o)
    ensures r.Fetched? ==> forall j :: 0 <= j < |r.flights| ==> IsNormalized(r.flights[j])
  {
    if o.Responded? {
      var parsed := ParseResponse(o.body);
      match parsed {
        case Ok(flights) =>
          ParsedFlightsAreNormalized(ResponseItems(o.body).value);
          r := Fetched(flights);
        case Err(e) => r := Unexpected(e);
      }
    } else {
      r := ApiError(FailureMessage(o));
    }
  }

  /** The API accepts at most this many callsigns per details request. */
  const MaxCallsignsPerRequest: nat := 15

  /** The first `MaxCallsignsPerRequest` callsigns, in order. */
  function LimitCallsigns(callsigns: seq<string>): (r: seq<string>)
    ensures |r| == Min(|callsigns|, MaxCallsignsPerRequest)
    ensures r == callsigns[..|r|]
  {
    callsigns[..Min(|callsigns|, MaxCallsignsPerRequest)]
  }

  /**
   * `get_flight_details`: the callsigns actually sent, or `None` when the
   * list is empty and no request is made.
   */
  function DetailsRequest(callsigns: seq<string>): (r: Option<seq<string>>)
    ensures r.None? <==> callsigns == []
    ensures r.Some? ==> 1 <= |r.value| <= MaxCallsignsPerRequest && |r.value| <= |callsigns|
    ensures r.Some? ==> r.value == callsigns[..|r.value|]
    ensures r.Some? ==> |r.value| == Min(|callsigns|, MaxCallsignsPerRequest)
  {
    if callsigns == [] then None else Some(LimitCallsigns(callsigns))
  }

  /** Truncating before the call, as the poller does, changes nothing. */
  lemma DetailsRequestAbsorbsLimit(callsigns: seq<string>)
    ensures DetailsRequest(LimitCallsigns(callsigns)) == DetailsRequest(callsigns)
  {
    var once := LimitCallsigns(callsigns);
    assert once[..|once|] == once;
  }
}
