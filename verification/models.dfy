/**
 * The flight record and the defaults its constructor fills in.
 *
 * Coordinates are integers in a fixed-point unit of the caller's choosing,
 * and the distance from the monitored centre is a whole number of tenths
 * of a kilometre (the great-circle distance is rounded to one decimal).
 */
module Models {
  import opened Wrappers

  /** Placeholder for an unknown callsign, airline or aircraft type. */
  const Unknown: string := "N/A"
  /** Placeholder for an unknown airport. */
  const NoAirport: string := "---"

  datatype Flight = Flight(
    flightId: string,
    callsign: string,
    airline: string,
    aircraftType: string,
    origin: string,
    destination: string,
    latitude: int,
    longitude: int,
    altitude: int,        // feet
    groundSpeed: int,     // knots
    heading: int,         // degrees
    distanceTenths: nat,  // tenths of a kilometre
    registration: Option<string>,
    verticalSpeed: Option<int>)  // feet per minute

  /** Python truthiness of an optional string: present and non-empty. */
  predicate Present(s: Option<string>) { s.Some? && s.value != "" }

  /** The five descriptive fields that the constructor never leaves empty. */
  predicate IsNormalized(f: Flight)
  {
    f.callsign != "" && f.airline != "" && f.aircraftType != "" && f.origin != "" && f.destination != ""
  }

  /** Airline code guessed from a callsign: its first three characters, when it has that many. */
  function AirlineFromCallsign(callsign: string): (a: string)
    ensures |callsign| >= 3 ==> |a| == 3 && a == callsign[..3]
    ensures |callsign| < 3 ==> a == Unknown
  {
    if |callsign| >= 3 then callsign[..3] else Unknown
  }

  /** The record the dataclass constructor leaves behind, described field by field. */
  function Normalize(f: Flight): (g: Flight)
    ensures IsNormalized(g)
    ensures IsNormalized(f) ==> g == f
    ensures g.(callsign := f.callsign, airline := f.airline, aircraftType := f.aircraftType,
               origin := f.origin, destination := f.destination) == f
  {
    var callsign := if f.callsign == "" then Unknown else f.callsign;
    f.(callsign := callsign,
       airline := if f.airline == "" then AirlineFromCallsign(callsign) else f.airline,
       aircraftType := if f.aircraftType == "" then Unknown else f.aircraftType,
       origin := if f.origin == "" then NoAirport else f.origin,
       destination := if f.destination == "" then NoAirport else f.destination)
  }

  /** Normalizing twice is the same as normalizing once. */
  lemma NormalizeIdempotent(f: Flight)
    ensures Normalize(Normalize(f)) == Normalize(f)
  {
  }

  /**
   * `__post_init__`: overwrite the empty descriptive fields one after the
   * other. The airline default reads the callsign as already defaulted.
   */
  method PostInit(f: Flight) returns (g: Flight)
    ensures g == Normalize(f)
    ensures g.callsign == (if f.callsign == "" then Unknown else f.callsign)
    ensures f.airline == "" && f.callsign == "" ==> g.airline == Unknown
    ensures f.airline == "" && |f.callsign| >= 3 ==> g.airline == f.callsign[..3]
    ensures f.airline == "" && 0 < |f.callsign| < 3 ==> g.airline == Unknown
    ensures f.airline != "" ==> g.airline == f.airline
    ensures g.aircraftType == (if f.aircraftType == "" then Unknown else f.aircraftType)
    ensures g.origin == (if f.origin == "" then NoAirport else f.origin)
    ensures g.destination == (if f.destination == "" then NoAirport else f.destination)
    ensures g.registration == f.registration && g.verticalSpeed == f.verticalSpeed
    ensures g.latitude == f.latitude && g.longitude == f.longitude && g.groundSpeed == f.groundSpeed
  {
    g := f;
    if g.callsign == "" {
      g := g.(callsign := Unknown);
    }
    if g.airline == "" {
      g := g.(airline := if |g.callsign| >= 3 then g.callsign[..3] else Unknown);
    }
    if g.aircraftType == "" {
      g := g.(aircraftType := Unknown);
    }
    if g.origin == "" {
      g := g.(origin := NoAirport);
    }
    if g.destination == "" {
      g := g.(destination := NoAirport);
    }
  }
}
