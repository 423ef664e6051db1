/**
 * The firmware servo task: the angle-to-pulse mapping, the start-up park at
 * centre, and one iteration of the tracking loop, which peeks both location
 * slots, remembers the last value seen in each, and drives the azimuth and
 * elevation servos (or holds them at centre until both positions are known).
 *
 * The bearing maths (GroundStationMath::calculateAzimuth/Elevation) is not
 * part of this model and enters as two functions.
 */
module ServoTask {
  import opened Wrappers
  import opened Shared
  import opened Numeric

  // PWM counter at 1 MHz: one count is one microsecond of pulse.
  const PWM_WRAP: nat := 19999
  const PULSE_MIN: nat := 1000
  const PULSE_CENTER: nat := 1500
  const PULSE_MAX: nat := 2000

  /** `deg` clamped into [lo, hi], lower bound first as in the source. */
  function ClampAngle(deg: real, lo: real, hi: real): (r: real)
    requires lo <= hi
    ensures lo <= r <= hi
    ensures lo <= deg <= hi ==> r == deg
  {
    var d := if deg < lo then lo else deg;
    if d > hi then hi else d
  }

  lemma UnitFraction(a: real, w: real)
    requires w > 0.0 && 0.0 <= a <= w
    ensures 0.0 <= a / w <= 1.0
    ensures a == 0.0 ==> a / w == 0.0
    ensures a == w ==> a / w == 1.0
  {
    var t := a / w;
    assert t * w == a;
  }

  /**
   * angle_to_counts: clamp, scale linearly onto [PULSE_MIN, PULSE_MAX] and
   * truncate to an integer count.
   */
  function AngleToCounts(deg: real, degMin: real, degMax: real): (counts: int)
    requires degMin < degMax
    ensures PULSE_MIN <= counts <= PULSE_MAX
  {
    var d := ClampAngle(deg, degMin, degMax);
    UnitFraction(d - degMin, degMax - degMin);
    var t := (d - degMin) / (degMax - degMin);
    (PULSE_MIN as real + t * (PULSE_MAX - PULSE_MIN) as real).Floor
  }

  /** The ends of the angle range map to the ends of the pulse range, and everything outside is clamped onto them. */
  lemma AngleToCountsEnds(deg: real, degMin: real, degMax: real)
    requires degMin < degMax
    ensures deg <= degMin ==> AngleToCounts(deg, degMin, degMax) == PULSE_MIN
    ensures deg >= degMax ==> AngleToCounts(deg, degMin, degMax) == PULSE_MAX
    ensures AngleToCounts(deg, degMin, degMax) == AngleToCounts(ClampAngle(deg, degMin, degMax), degMin, degMax)
  {
    var d := ClampAngle(deg, degMin, degMax);
    UnitFraction(d - degMin, degMax - degMin);
  }

  /** angle_to_counts never decreases as the angle grows. */
  lemma AngleToCountsMonotone(a: real, b: real, degMin: real, degMax: real)
    requires degMin < degMax && a <= b
    ensures AngleToCounts(a, degMin, degMax) <= AngleToCounts(b, degMin, degMax)
  {
    var da, db := ClampAngle(a, degMin, degMax), ClampAngle(b, degMin, degMax);
    assert da <= db;
    var w := degMax - degMin;
    assert (da - degMin) / w <= (db - degMin) / w by {
      assert (db - degMin) / w - (da - degMin) / w == (db - da) / w;
    }
    FloorMonotone(PULSE_MIN as real + (da - degMin) / w * 1000.0, PULSE_MIN as real + (db - degMin) / w * 1000.0);
  }

  /** The azimuth servo covers 0..180: a bearing above 180 is reflected to 360 - az. */
  function ServoAzimuth(az: real): (r: real)
    ensures 180.0 < az < 360.0 ==> 0.0 < r < 180.0 && r == 360.0 - az
    ensures az <= 180.0 ==> r == az
  {
    if az > 180.0 then 360.0 - az else az
  }

  /** The two pulse widths for a station/rocket pair. */
  function TrackCounts(az: real, el: real): (counts: (int, int))
    ensures PULSE_MIN <= counts.0 <= PULSE_MAX && PULSE_MIN <= counts.1 <= PULSE_MAX
    ensures el <= 0.0 ==> counts.1 == PULSE_MIN
    ensures el >= 90.0 ==> counts.1 == PULSE_MAX
  {
    AngleToCountsEnds(el, 0.0, 90.0);
    (AngleToCounts(ServoAzimuth(az), 0.0, 180.0), AngleToCounts(el, 0.0, 90.0))
  }

  class ServoTask {
    const azimuth: (LocationMsg, LocationMsg) -> real
    const elevation: (LocationMsg, LocationMsg) -> real
    var gs: LocationMsg
    var rkt: LocationMsg
    var haveGs: bool
    var haveRkt: bool
    /** The PWM levels last written to the azimuth and zenith pins. */
    var azLevel: int
    var elLevel: int

    /** Both positions have been seen at least once: the servo task is tracking. */
    predicate Tracking()
      reads this
    {
      haveGs && haveRkt
    }

    /** servo_pwm_init parks both servos at centre; the loop starts with nothing seen. */
    constructor (azimuth: (LocationMsg, LocationMsg) -> real, elevation: (LocationMsg, LocationMsg) -> real)
      ensures this.azimuth == azimuth && this.elevation == elevation
      ensures azLevel == PULSE_CENTER && elLevel == PULSE_CENTER
      ensures !haveGs && !haveRkt
      ensures gs == LocationMsg(0.0, 0.0, 0.0) && rkt == LocationMsg(0.0, 0.0, 0.0)
    {
      this.azimuth := azimuth;
      this.elevation := elevation;
      azLevel, elLevel := PULSE_CENTER, PULSE_CENTER;
      gs, rkt := LocationMsg(0.0, 0.0, 0.0), LocationMsg(0.0, 0.0, 0.0);
      haveGs, haveRkt := false, false;
    }

    /**
     * One iteration: peek both slots (a successful peek sets its flag for
     * good and replaces the remembered value), then command the servos from
     * the remembered pair, or centre them until both have been seen. The
     * slots are only peeked, never changed.
     */
    method Cycle(gsSlot: Slot, rktSlot: Slot)
      modifies this
      ensures haveGs == (old(haveGs) || gsSlot.value.Some?)
      ensures haveRkt == (old(haveRkt) || rktSlot.value.Some?)
      ensures gs == gsSlot.value.GetOr(old(gs))
      ensures rkt == rktSlot.value.GetOr(old(rkt))
      ensures old(Tracking()) ==> Tracking()
      ensures Tracking() ==> (azLevel, elLevel) == TrackCounts(azimuth(gs, rkt), elevation(gs, rkt))
      ensures !Tracking() ==> azLevel == PULSE_CENTER && elLevel == PULSE_CENTER
      ensures PULSE_MIN <= azLevel <= PULSE_MAX && PULSE_MIN <= elLevel <= PULSE_MAX
    {
      var p := gsSlot.Peek();
      if p.Some? {
        gs := p.value;
        haveGs := true;
      }
      var q := rktSlot.Peek();
      if q.Some? {
        rkt := q.value;
        haveRkt := true;
      }
      if haveGs && haveRkt {
        var az := azimuth(gs, rkt);
        var el := elevation(gs, rkt);
        if az > 180.0 {
          az := 360.0 - az;
        }
        azLevel := AngleToCounts(az, 0.0, 180.0);
        elLevel := AngleToCounts(el, 0.0, 90.0);
      } else {
        azLevel := PULSE_CENTER;
        elLevel := PULSE_CENTER;
      }
    }
  }
}
