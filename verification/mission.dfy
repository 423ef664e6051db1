/**
 * What both ground-station windows (the Qt/C++ one and its PyQt port) keep
 * about a flight: the running maxima of altitude and speed, the
 * flight-started latch, and the demo simulation's altitude profile with its
 * cap at 10,000 ft and its 60-second replay period.
 *
 * Doubles are modelled as reals; rounding is not modelled.
 */
module Mission {
  /** 10,000 ft in metres. */
  const MAX_ALTITUDE: real := 3048.0
  const GROUND_LEVEL: real := 0.0
  /** The simulation restarts once its clock passes this many seconds. */
  const SIM_PERIOD: real := 60.0
  /** Seconds of simulated flight per animation tick. */
  const TIME_STEP: real := 0.1
  const GRAVITY: real := -9.81
  /** Altitude above which a parsed reading starts the flight timer. */
  const FLIGHT_ALTITUDE: real := 10.0

  /** m_maxAltitude, m_maxVelocity and m_flightStarted. */
  datatype Stats = Stats(maxAltitude: real, maxVelocity: real, flightStarted: bool)

  /** The statistics at start-up and after every simulation reset. */
  const NO_STATS := Stats(0.0, 0.0, false)

  /** One altitude and speed fed to the statistics. */
  datatype Reading = Reading(alt: real, vel: real)

  /**
   * One statistics update: each maximum is raised to the new value when the
   * value is larger, and the latch sets once the altitude exceeds
   * `threshold` and is never cleared here.
   */
  function Track(s: Stats, r: Reading, threshold: real): (s': Stats)
    ensures s'.maxAltitude >= s.maxAltitude && s'.maxAltitude >= r.alt
    ensures s'.maxAltitude == s.maxAltitude || s'.maxAltitude == r.alt
    ensures s'.maxVelocity >= s.maxVelocity && s'.maxVelocity >= r.vel
    ensures s'.maxVelocity == s.maxVelocity || s'.maxVelocity == r.vel
    ensures s'.flightStarted <==> s.flightStarted || r.alt > threshold
  {
    Stats(
      if r.alt > s.maxAltitude then r.alt else s.maxAltitude,
      if r.vel > s.maxVelocity then r.vel else s.maxVelocity,
      s.flightStarted || r.alt > threshold)
  }

  /** The statistics after a run of readings, oldest first. */
  function TrackAll(s: Stats, rs: seq<Reading>, threshold: real): Stats
    decreases |rs|
  {
    if rs == [] then s else TrackAll(Track(s, rs[0], threshold), rs[1..], threshold)
  }

  /**
   * Over any run of readings the maxima never decrease and end as the
   * largest value seen (or the starting value when none is larger), and the
   * latch is set exactly when it was set before or some altitude exceeded
   * the threshold.
   */
  lemma {:induction false} TrackAllSummary(s: Stats, rs: seq<Reading>, threshold: real)
    ensures var e := TrackAll(s, rs, threshold);
      && e.maxAltitude >= s.maxAltitude && (forall i :: 0 <= i < |rs| ==> e.maxAltitude >= rs[i].alt)
      && (e.maxAltitude == s.maxAltitude || exists i :: 0 <= i < |rs| && e.maxAltitude == rs[i].alt)
      && e.maxVelocity >= s.maxVelocity && (forall i :: 0 <= i < |rs| ==> e.maxVelocity >= rs[i].vel)
      && (e.maxVelocity == s.maxVelocity || exists i :: 0 <= i < |rs| && e.maxVelocity == rs[i].vel)
      && (e.flightStarted <==> s.flightStarted || exists i :: 0 <= i < |rs| && rs[i].alt > threshold)
    decreases |rs|
  {
    if rs != [] {
      var s1 := Track(s, rs[0], threshold);
      TrackAllSummary(s1, rs[1..], threshold);
      var e := TrackAll(s, rs, threshold);
      assert e == TrackAll(s1, rs[1..], threshold);
      forall i | 0 <= i < |rs|
        ensures e.maxAltitude >= rs[i].alt && e.maxVelocity >= rs[i].vel
      {
        if i > 0 {
          assert rs[i] == rs[1..][i - 1];
        }
      }
      if e.maxAltitude != s.maxAltitude && e.maxAltitude != s1.maxAltitude {
        var j :| 0 <= j < |rs[1..]| && e.maxAltitude == rs[1..][j].alt;
        assert e.maxAltitude == rs[j + 1].alt;
      }
      if e.maxVelocity != s.maxVelocity && e.maxVelocity != s1.maxVelocity {
        var j :| 0 <= j < |rs[1..]| && e.maxVelocity == rs[1..][j].vel;
        assert e.maxVelocity == rs[j + 1].vel;
      }
      if e.flightStarted && !s1.flightStarted {
        var j :| 0 <= j < |rs[1..]| && rs[1..][j].alt > threshold;
        assert rs[j + 1].alt > threshold;
      }
      if !e.flightStarted {
        forall i | 0 <= i < |rs|
          ensures rs[i].alt <= threshold
        {
          if i > 0 {
            assert rs[i] == rs[1..][i - 1];
          }
        }
      }
    }
  }

  // ── The demo simulation ───────────────────────────────────────────────────

  /** Ballistic altitude `t` seconds after launch at vertical speed `vz`. */
  function SimAltitude(vz: real, t: real): real {
    GROUND_LEVEL + vz * t + 0.5 * GRAVITY * t * t
  }

  /** The altitude cap: never above MAX_ALTITUDE, and the ballistic value wherever that is lower. */
  function CapAltitude(raw: real): (alt: real)
    ensures alt <= MAX_ALTITUDE
    ensures raw <= MAX_ALTITUDE ==> alt == raw
    ensures raw > MAX_ALTITUDE ==> alt == MAX_ALTITUDE
  {
    if raw > MAX_ALTITUDE then MAX_ALTITUDE else raw
  }

  /** Whether one more step would take the clock past the replay period. */
  predicate PeriodOver(t: real) {
    t + TIME_STEP > SIM_PERIOD
  }

  /**
   * The simulation clock after one step: advanced by TIME_STEP, or back to 0
   * once past the period. It never leaves [0, SIM_PERIOD].
   */
  function NextTime(t: real): (t': real)
    requires 0.0 <= t
    ensures 0.0 <= t' <= SIM_PERIOD
    ensures PeriodOver(t) <==> t' == 0.0
    ensures !PeriodOver(t) ==> t' == t + TIME_STEP
  {
    if PeriodOver(t) then 0.0 else t + TIME_STEP
  }

  /**
   * At 800 m/s upward the rocket is still above ground when the clock runs
   * out: for every time in [0, SIM_PERIOD] the ballistic altitude is
   * non-negative, so the below-ground reset of the C++ window never fires.
   */
  lemma ClimbOutlastsPeriod(t: real)
    requires 0.0 <= t <= SIM_PERIOD
    ensures SimAltitude(800.0, t) >= GROUND_LEVEL
  {
    var rate := 800.0 + 0.5 * GRAVITY * t;
    assert rate > 0.0;
    assert SimAltitude(800.0, t) == t * rate;
  }

  /** At 200 m/s upward the peak stays below the cap, so the cap of the Python window never bites. */
  lemma SlowClimbUnderCap(t: real)
    ensures SimAltitude(200.0, t) < MAX_ALTITUDE
  {
    var c := 200.0 / 9.81;
    assert SimAltitude(200.0, t) == -4.905 * (t - c) * (t - c) + 4.905 * c * c;
    assert (t - c) * (t - c) >= 0.0;
  }

  /**
   * At 200 m/s upward the rocket lands before 41 s: from a clock below 41
   * at which it is still above ground, one step keeps the clock below 41.
   * The clock therefore never gets near SIM_PERIOD, and the Python window
   * restarts only through its below-ground reset.
   */
  lemma SlowClimbLandsEarly(t: real)
    requires 0.0 <= t < 41.0 && SimAltitude(200.0, t) >= GROUND_LEVEL
    ensures t + TIME_STEP < 41.0 && !PeriodOver(t)
  {
    assert SimAltitude(200.0, t) == t * (200.0 - 4.905 * t);
    if t > 0.0 {
      PositiveFactor(t, 200.0 - 4.905 * t);
    }
  }

  /** A non-negative product with a positive factor has a non-negative other factor. */
  lemma PositiveFactor(a: real, b: real)
    requires a > 0.0 && a * b >= 0.0
    ensures b >= 0.0
  {
  }
}
