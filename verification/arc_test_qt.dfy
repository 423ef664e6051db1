/**
 * The Qt ground-station window (ArcTest): the comma-separated telemetry
 * parser with its mission statistics, the map position and trajectory fed
 * from real telemetry, and the demo simulation the animation timer runs
 * while no device is connected.
 *
 * QString::toDouble is taken as a given function (0 where the text is not
 * a number, as Qt does). The trigonometry that turns simulated time into a
 * ground position (`groundTrack`) and the speed formula with its square
 * root (`speed`) are given functions of the simulation time.
 */
module ArcTestQt {
  import opened Wrappers
  import opened Text
  import opened Mission
  import opened Folds

  /** Launch site (ArcTest.h). */
  const LAUNCH_LAT: real := 34.0522
  const LAUNCH_LON: real := -118.2437
  /** Simulated launch speed upward, m/s (ArcTest.h). */
  const INITIAL_VELOCITY_Z: real := 800.0
  /** The altitude the simulation compares against before starting the flight timer. */
  const SIM_FLIGHT_ALTITUDE: real := 10010.0

  // ── parseTelemtryData ─────────────────────────────────────────────────────

  /** The eight telemetry fields. */
  datatype Key = Lat | Lon | Alt | Vel | Acc | Temp | Pres | Bat

  /** The prefix that selects each field. */
  function Prefix(k: Key): string {
    match k
    case Lat => "LAT:"
    case Lon => "LON:"
    case Alt => "ALT:"
    case Vel => "VEL:"
    case Acc => "ACC:"
    case Temp => "TEMP:"
    case Pres => "PRES:"
    case Bat => "BAT:"
  }

  /**
   * The field a part assigns: the first prefix in the if-else chain that the
   * part starts with. No prefix is a prefix of another, so the choice does
   * not depend on the order of the chain: a part starts with a key's prefix
   * exactly when that key is chosen.
   */
  function KeyOf(part: string): (k: Option<Key>)
    ensures forall key :: StartsWith(part, Prefix(key)) <==> k == Some(key)
  {
    PrefixUnique(part);
    if StartsWith(part, "LAT:") then Some(Lat)
    else if StartsWith(part, "LON:") then Some(Lon)
    else if StartsWith(part, "ALT:") then Some(Alt)
    else if StartsWith(part, "VEL:") then Some(Vel)
    else if StartsWith(part, "ACC:") then Some(Acc)
    else if StartsWith(part, "TEMP:") then Some(Temp)
    else if StartsWith(part, "PRES:") then Some(Pres)
    else if StartsWith(part, "BAT:") then Some(Bat)
    else None
  }

  /** The prefixes already differ in their first three characters, so a part starts with at most one of them. */
  lemma PrefixUnique(part: string)
    ensures forall a, b :: StartsWith(part, Prefix(a)) && StartsWith(part, Prefix(b)) ==> a == b
  {
    forall a, b | StartsWith(part, Prefix(a)) && StartsWith(part, Prefix(b))
      ensures a == b
    {
      assert Prefix(a)[0] == part[0] == Prefix(b)[0];
      assert Prefix(a)[1] == part[1] == Prefix(b)[1];
      assert Prefix(a)[2] == part[2] == Prefix(b)[2];
    }
  }

  /** `part.mid(4)`: everything after the fourth character, empty for a shorter part. */
  function ValueText(part: string): string {
    if |part| < 4 then [] else part[4..]
  }

  /**
   * The text handed to toDouble is what follows the prefix for the
   * four-character prefixes, but keeps the colon for TEMP: and PRES:,
   * whose prefixes are five characters long.
   */
  lemma ValueAfterPrefix(part: string, k: Key)
    requires KeyOf(part) == Some(k)
    ensures |Prefix(k)| == 4 ==> ValueText(part) == part[|Prefix(k)|..]
    ensures |Prefix(k)| == 5 ==> ValueText(part) == [':'] + part[|Prefix(k)|..]
    ensures k == Temp || k == Pres <==> |Prefix(k)| == 5
  {
    assert StartsWith(part, Prefix(k));
    if |Prefix(k)| == 5 {
      assert part[4] == Prefix(k)[4] == ':';
      assert part[4..] == [part[4]] + part[5..];
    }
  }

  /** The eight locals of the parser. */
  datatype Fields = Fields(lat: real, lon: real, alt: real, vel: real, acc: real, temp: real, pres: real, bat: real)
  {
    function Get(k: Key): real {
      match k
      case Lat => lat
      case Lon => lon
      case Alt => alt
      case Vel => vel
      case Acc => acc
      case Temp => temp
      case Pres => pres
      case Bat => bat
    }

    /** Assigns one field and keeps the other seven. */
    function Set(k: Key, v: real): (f: Fields)
      ensures f.Get(k) == v
      ensures forall other :: other != k ==> f.Get(other) == Get(other)
    {
      match k
      case Lat => this.(lat := v)
      case Lon => this.(lon := v)
      case Alt => this.(alt := v)
      case Vel => this.(vel := v)
      case Acc => this.(acc := v)
      case Temp => this.(temp := v)
      case Pres => this.(pres := v)
      case Bat => this.(bat := v)
    }
  }

  /** All eight locals start at 0. */
  const ZERO_FIELDS := Fields(0.0, 0.0, 0.0, 0.0, 0.0, 0.0, 0.0, 0.0)

  /** The effect of one part on the locals. */
  function Assign(f: Fields, part: string, toDouble: string -> real): (f': Fields)
    ensures KeyOf(part) == None ==> f' == f
    ensures forall k :: KeyOf(part) == Some(k) ==> f'.Get(k) == toDouble(ValueText(part))
    ensures forall k :: KeyOf(part) != Some(k) ==> f'.Get(k) == f.Get(k)
  {
    match KeyOf(part)
    case None => f
    case Some(k) => f.Set(k, toDouble(ValueText(part)))
  }

  /** The locals after the loop has seen `parts`, in order. */
  function Parsed(parts: seq<string>, toDouble: string -> real): Fields
    decreases |parts|
  {
    if parts == [] then ZERO_FIELDS
    else Assign(Parsed(parts[..|parts| - 1], toDouble), parts[|parts| - 1], toDouble)
  }

  /** Parsed is the fold of Assign over the parts. */
  lemma {:induction false} ParsedFold(parts: seq<string>, toDouble: string -> real, step: (Fields, string) -> Fields)
    requires forall f, p :: step(f, p) == Assign(f, p, toDouble)
    ensures Parsed(parts, toDouble) == Fold(ZERO_FIELDS, parts, step)
    decreases |parts|
  {
    if parts != [] {
      ParsedFold(parts[..|parts| - 1], toDouble, step);
    }
  }

  /** A field holds the value of the last part carrying its prefix: later parts overwrite earlier ones. */
  lemma LastPartWins(parts: seq<string>, toDouble: string -> real, k: Key, i: nat)
    requires i < |parts| && KeyOf(parts[i]) == Some(k)
    requires forall j :: i < j < |parts| ==> KeyOf(parts[j]) != Some(k)
    ensures Parsed(parts, toDouble).Get(k) == toDouble(ValueText(parts[i]))
  {
    var step := (f: Fields, p: string) => Assign(f, p, toDouble);
    var sets := (p: string) => KeyOf(p) == Some(k);
    var value := (p: string) => toDouble(ValueText(p));
    var holds := (f: Fields, x: real) => f.Get(k) == x;
    ParsedFold(parts, toDouble, step);
    LastUpdateWins(ZERO_FIELDS, parts, step, sets, value, holds, i);
  }

  /** A field no part carries stays 0. */
  lemma {:induction false} AbsentFieldIsZero(parts: seq<string>, toDouble: string -> real, k: Key)
    requires forall j :: 0 <= j < |parts| ==> KeyOf(parts[j]) != Some(k)
    ensures Parsed(parts, toDouble).Get(k) == 0.0
    decreases |parts|
  {
    if parts != [] {
      var init := parts[..|parts| - 1];
      forall j | 0 <= j < |init|
        ensures KeyOf(init[j]) != Some(k)
      {
        assert init[j] == parts[j];
      }
      AbsentFieldIsZero(init, toDouble, k);
      assert Parsed(parts, toDouble) == Assign(Parsed(init, toDouble), parts[|parts| - 1], toDouble);
    }
  }

  /** A point of the map (x = longitude, y = latitude, z = altitude). */
  datatype Position = Position(lat: real, lon: real, alt: real)

  /** The launch site at ground level. */
  const LAUNCH_POINT := Position(LAUNCH_LAT, LAUNCH_LON, GROUND_LEVEL)

  /** Whether a parsed position moves the rocket: both coordinates non-zero. */
  predicate HasCoordinates(f: Fields) {
    f.lat != 0.0 && f.lon != 0.0
  }

  class ArcTest {
    const toDouble: string -> real
    /** Latitude and longitude of the simulated rocket at a simulation time. */
    const groundTrack: real -> (real, real)
    /** The simulated speed at a simulation time. */
    const speed: real -> real

    var currentTime: real
    /** m_trajectoryPoints. */
    var trajectory: seq<Position>
    /** Where the rocket graphic stands. */
    var rocket: Position
    /** The numbers in the Lat/Lon/Alt label, once written. */
    var gpsShown: Option<Position>
    /** The number in the altitude label, once written. */
    var altitudeShown: Option<real>
    var maxAltitude: real
    var maxVelocity: real
    var flightStarted: bool
    var isConnected: bool
    var useRealTelemetry: bool

    /** The mission statistics as one value. */
    function Stats(): Stats
      reads this
    {
      Mission.Stats(maxAltitude, maxVelocity, flightStarted)
    }

    ghost predicate Valid()
      reads this
    {
      0.0 <= currentTime && trajectory != []
    }

    /** The window at start-up: rocket and trajectory at the launch site, clock and statistics at zero, no device. */
    constructor (toDouble: string -> real, groundTrack: real -> (real, real), speed: real -> real)
      ensures Valid()
      ensures this.toDouble == toDouble && this.groundTrack == groundTrack && this.speed == speed
      ensures currentTime == 0.0 && trajectory == [LAUNCH_POINT] && rocket == LAUNCH_POINT
      ensures gpsShown == None && altitudeShown == None
      ensures Stats() == NO_STATS && !isConnected && !useRealTelemetry
    {
      this.toDouble := toDouble;
      this.groundTrack := groundTrack;
      this.speed := speed;
      currentTime := 0.0;
      trajectory := [LAUNCH_POINT];
      rocket := LAUNCH_POINT;
      gpsShown, altitudeShown := None, None;
      maxAltitude, maxVelocity, flightStarted := 0.0, 0.0, false;
      isConnected, useRealTelemetry := false, false;
    }

    /**
     * parseTelemtryData: split the text on ',', assign each part to the
     * field its prefix names, show the values, update the mission
     * statistics, and move the rocket when both coordinates are non-zero.
     * The simulation clock and the connection are left alone.
     */
    method ParseTelemetryData(text: string)
      requires Valid()
      modifies this
      ensures Valid()
      ensures var f := Parsed(Split(text, ','), toDouble);
        && altitudeShown == Some(f.alt)
        && gpsShown == Some(Position(f.lat, f.lon, f.alt))
        && Stats() == Track(old(Stats()), Reading(f.alt, f.vel), FLIGHT_ALTITUDE)
        && (HasCoordinates(f) ==> rocket == Position(f.lat, f.lon, f.alt)
                                  && trajectory == old(trajectory) + [rocket])
        && (!HasCoordinates(f) ==> rocket == old(rocket) && trajectory == old(trajectory))
      ensures currentTime == old(currentTime)
      ensures isConnected == old(isConnected) && useRealTelemetry == old(useRealTelemetry)
    {
      var parts := Split(text, ',');
      var fields := ZERO_FIELDS;
      var i := 0;
      while i < |parts|
        invariant 0 <= i <= |parts|
        invariant fields == Parsed(parts[..i], toDouble)
      {
        fields := Assign(fields, parts[i], toDouble);
        assert parts[..i + 1][..i] == parts[..i];
        i := i + 1;
      }
      assert parts[..i] == parts;
      var (lat, lon, alt, vel) := (fields.lat, fields.lon, fields.alt, fields.vel);
      altitudeShown := Some(alt);
      UpdateStatistics(Reading(alt, vel), FLIGHT_ALTITUDE);
      gpsShown := Some(Position(lat, lon, alt));
      if lat != 0.0 && lon != 0.0 {
        UpdateRocketPositionFromTelemetry(lat, lon, alt);
      }
    }

    /**
     * The mission-tracking block shared by both update paths: each maximum
     * rises to the new value when it is larger, and the flight latch sets
     * once the altitude exceeds `threshold`.
     */
    method UpdateStatistics(r: Reading, threshold: real)
      modifies this
      ensures Stats() == Track(old(Stats()), r, threshold)
      ensures currentTime == old(currentTime) && trajectory == old(trajectory) && rocket == old(rocket)
      ensures gpsShown == old(gpsShown) && altitudeShown == old(altitudeShown)
      ensures isConnected == old(isConnected) && useRealTelemetry == old(useRealTelemetry)
    {
      if r.alt > maxAltitude {
        maxAltitude := r.alt;
      }
      if r.vel > maxVelocity {
        maxVelocity := r.vel;
      }
      if !flightStarted && r.alt > threshold {
        flightStarted := true;
      }
    }

    /** updateRocketPositionFromTelemetry: the rocket moves to the point and the point joins the trajectory. */
    method UpdateRocketPositionFromTelemetry(lat: real, lon: real, alt: real)
      requires Valid()
      modifies this
      ensures Valid()
      ensures rocket == Position(lat, lon, alt)
      ensures trajectory == old(trajectory) + [rocket]
      ensures currentTime == old(currentTime) && Stats() == old(Stats())
      ensures gpsShown == old(gpsShown) && altitudeShown == old(altitudeShown)
      ensures isConnected == old(isConnected) && useRealTelemetry == old(useRealTelemetry)
    {
      rocket := Position(lat, lon, alt);
      trajectory := trajectory + [rocket];
    }

    /** The simulated rocket position at time t: the ground track and the capped ballistic altitude. */
    function SimPosition(t: real): Position
      reads this
    {
      Position(groundTrack(t).0, groundTrack(t).1, CapAltitude(SimAltitude(INITIAL_VELOCITY_Z, t)))
    }

    /** Back to the launch site: clock 0, trajectory reduced to the launch point, label at the launch point, statistics cleared. */
    method ResetSimulation()
      requires Valid()
      modifies this
      ensures Valid()
      ensures currentTime == 0.0 && trajectory == [LAUNCH_POINT] && gpsShown == Some(LAUNCH_POINT)
      ensures Stats() == NO_STATS
      ensures rocket == old(rocket) && altitudeShown == old(altitudeShown)
      ensures isConnected == old(isConnected) && useRealTelemetry == old(useRealTelemetry)
    {
      currentTime := 0.0;
      trajectory := [LAUNCH_POINT];
      gpsShown := Some(LAUNCH_POINT);
      maxAltitude, maxVelocity, flightStarted := 0.0, 0.0, false;
    }

    /**
     * updateRocketPosition, one animation tick. With real telemetry in use
     * nothing changes. Otherwise the rocket moves to the simulated position
     * at the current clock, the statistics take its altitude and speed, the
     * point joins the trajectory and the clock advances; a position below
     * ground, or a clock past SIM_PERIOD, restarts the simulation instead.
     * The simulation never starts the flight timer, because the capped
     * altitude never reaches SIM_FLIGHT_ALTITUDE.
     */
    method UpdateRocketPosition()
      requires Valid()
      modifies this
      ensures Valid()
      ensures isConnected == old(isConnected) && useRealTelemetry == old(useRealTelemetry)
      ensures old(useRealTelemetry) ==> unchanged(this)
      ensures !old(useRealTelemetry) && SimPosition(old(currentTime)).alt < GROUND_LEVEL ==>
        && currentTime == 0.0 && trajectory == [LAUNCH_POINT] && gpsShown == Some(LAUNCH_POINT)
        && Stats() == NO_STATS && rocket == old(rocket) && altitudeShown == old(altitudeShown)
      ensures !old(useRealTelemetry) && SimPosition(old(currentTime)).alt >= GROUND_LEVEL ==>
        var t := old(currentTime);
        && rocket == SimPosition(t)
        && altitudeShown == Some(SimPosition(t).alt)
        && currentTime == NextTime(t)
        && (PeriodOver(t) ==> trajectory == [LAUNCH_POINT] && gpsShown == Some(LAUNCH_POINT) && Stats() == NO_STATS)
        && (!PeriodOver(t) ==> trajectory == old(trajectory) + [rocket] && gpsShown == Some(rocket)
                               && Stats() == Track(old(Stats()), Reading(rocket.alt, speed(t)), SIM_FLIGHT_ALTITUDE))
      ensures !old(useRealTelemetry) ==> currentTime <= SIM_PERIOD
      ensures !old(flightStarted) ==> !flightStarted
    {
      if useRealTelemetry {
        return;
      }
      var t := currentTime;
      var newAlt := SimAltitude(INITIAL_VELOCITY_Z, t);
      if newAlt > MAX_ALTITUDE {
        newAlt := MAX_ALTITUDE;
      }
      if newAlt < GROUND_LEVEL {
        ResetSimulation();
        return;
      }
      var (newLat, newLon) := groundTrack(t);
      var newPosition := Position(newLat, newLon, newAlt);
      assert newPosition == SimPosition(t);
      rocket := newPosition;
      gpsShown := Some(newPosition);
      var currentVel := speed(t);
      altitudeShown := Some(newAlt);
      // The flight timer starts only above SIM_FLIGHT_ALTITUDE, which the capped altitude never reaches.
      UpdateStatistics(Reading(newAlt, currentVel), SIM_FLIGHT_ALTITUDE);
      trajectory := trajectory + [newPosition];
      currentTime := currentTime + TIME_STEP;
      if currentTime > SIM_PERIOD {
        ResetSimulation();
      }
    }

    /**
     * connectToDevice: with no port selected nothing happens; otherwise,
     * when the port opens, the window switches to real telemetry.
     * The serial settings it applies are not part of this model.
     */
    method ConnectToDevice(selectedPort: string, opens: bool)
      modifies this
      ensures selectedPort != [] && opens ==> isConnected && useRealTelemetry
      ensures !(selectedPort != [] && opens) ==> isConnected == old(isConnected) && useRealTelemetry == old(useRealTelemetry)
      ensures currentTime == old(currentTime) && trajectory == old(trajectory) && rocket == old(rocket)
      ensures gpsShown == old(gpsShown) && altitudeShown == old(altitudeShown) && Stats() == old(Stats())
    {
      if selectedPort == [] {
        return;
      }
      if opens {
        isConnected := true;
        useRealTelemetry := true;
      }
    }

    /** disconnectFromDevice: back to the simulation. */
    method DisconnectFromDevice()
      modifies this
      ensures !isConnected && !useRealTelemetry
      ensures currentTime == old(currentTime) && trajectory == old(trajectory) && rocket == old(rocket)
      ensures gpsShown == old(gpsShown) && altitudeShown == old(altitudeShown) && Stats() == old(Stats())
    {
      isConnected := false;
      useRealTelemetry := false;
    }
  }

  /**
   * From start-up, the simulation clock stays in [0, SIM_PERIOD], and at
   * every such clock the simulated rocket is above ground: the below-ground
   * reset of updateRocketPosition is dead code with the default launch speed.
   */
  lemma SimulationStaysAboveGround(t: real)
    requires 0.0 <= t <= SIM_PERIOD
    ensures SimAltitude(INITIAL_VELOCITY_Z, t) >= GROUND_LEVEL
    ensures CapAltitude(SimAltitude(INITIAL_VELOCITY_Z, t)) >= GROUND_LEVEL
  {
    ClimbOutlastsPeriod(t);
  }
}
