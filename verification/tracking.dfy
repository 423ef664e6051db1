/**
 * The tracker board's pointing arithmetic: reduction of a bearing to a
 * compass angle, the flat-earth elevation, and the mapping of bearing and
 * elevation onto the two 0..180 degree servos.
 *
 * The trigonometry is not modelled: the haversine distance is an input, and
 * atan2 in degrees a given function.
 */
module Tracking {
  import opened Numeric

  /** d is a whole number of turns. */
  ghost predicate WholeTurns(d: real) {
    exists k: int :: d == Turns(k)
  }

  /**
   * bearing's final `% 360.0`: Python's float modulo by a positive divisor,
   * which lands in [0, 360) and differs from its argument by whole turns.
   */
  function Bearing(raw: real): (b: real)
    ensures 0.0 <= b < 360.0
    ensures WholeTurns(raw - b)
    ensures 0.0 <= raw < 360.0 ==> b == raw
  {
    var k := (raw / 360.0).Floor;
    assert raw - Turns(k) == raw - k as real * 360.0;
    assert 0.0 <= raw < 360.0 ==> k == 0;
    raw - Turns(k)
  }

  /**
   * What the model takes from `degrees(atan2(y, x))` for a positive x (the
   * only way elevation_angle calls it): the angle lies strictly between -90
   * and 90 degrees and has the sign of y.
   */
  ghost predicate Atan2RightHalf(atan2Deg: (real, real) -> real) {
    forall y: real, x: real :: x > 0.0 ==>
      -90.0 < atan2Deg(y, x) < 90.0
      && (atan2Deg(y, x) < 0.0 <==> y < 0.0)
      && (atan2Deg(y, x) > 0.0 <==> y > 0.0)
  }

  /**
   * elevation_angle: level (0) when the two points are less than 0.1 m
   * apart, atan2 in degrees otherwise. Given atan2's right half-plane, the
   * elevation is strictly between -90 and 90, positive exactly when the
   * target is higher and further than 0.1 m, negative exactly when it is
   * lower and further than 0.1 m.
   */
  function ElevationAngle(dist: real, dalt: real, atan2Deg: (real, real) -> real): (e: real)
    ensures dist < 0.1 ==> e == 0.0
    ensures dist >= 0.1 ==> e == atan2Deg(dalt, dist)
    ensures Atan2RightHalf(atan2Deg) ==>
              -90.0 < e < 90.0
              && (e > 0.0 <==> dist >= 0.1 && dalt > 0.0)
              && (e < 0.0 <==> dist >= 0.1 && dalt < 0.0)
  {
    if dist < 0.1 then 0.0 else atan2Deg(dalt, dist)
  }

  /**
   * gimbal_angles, given the bearing to the target and the distance and
   * height difference that elevation_angle works from. The bearing relative
   * to the heading is brought to within half a turn by whole turns: a value
   * above -180 ends in (-180, 180] (the first loop stops at +180), one at or
   * below -180 ends in [-180, 180) (the second loop stops at -180). It is
   * shifted so that straight ahead is 90 and clamped; the elevation is
   * shifted so the horizon is 90 and clamped.
   */
  method GimbalAngles(brng: real, dist: real, dalt: real, headingOffset: real,
                      atan2Deg: (real, real) -> real) returns (az: real, el: real)
    ensures 0.0 <= az <= 180.0 && 0.0 <= el <= 180.0
    ensures exists k: int :: InHalfTurn(brng - headingOffset, brng - headingOffset + Turns(k))
                              && az == Clamp(brng - headingOffset + Turns(k) + 90.0, 0.0, 180.0)
    ensures brng == headingOffset ==> az == 90.0
    ensures el == Clamp(ElevationAngle(dist, dalt, atan2Deg) + 90.0, 0.0, 180.0)
    ensures Atan2RightHalf(atan2Deg) ==> 0.0 < el < 180.0 && (el > 90.0 <==> dist >= 0.1 && dalt > 0.0)
  {
    var relative := brng - headingOffset;
    ghost var x := relative;
    ghost var k: int := 0;
    while relative > 180.0
      invariant relative == x + Turns(k)
      invariant x <= 180.0 ==> relative == x
      invariant x > 180.0 ==> relative > -180.0
      decreases (relative - 180.0).Floor
    {
      relative := relative - 360.0;
      k := k - 1;
    }
    while relative < -180.0
      invariant relative == x + Turns(k)
      invariant relative <= 180.0
      invariant x > -180.0 ==> relative > -180.0
      invariant x <= -180.0 ==> relative < 180.0
      decreases (-180.0 - relative).Floor
    {
      relative := relative + 360.0;
      k := k + 1;
    }
    assert brng == headingOffset ==> k == 0;
    az := relative + 90.0;
    az := Clamp(az, 0.0, 180.0);
    var elev := ElevationAngle(dist, dalt, atan2Deg);
    el := elev + 90.0;
    el := Clamp(el, 0.0, 180.0);
  }

  /** Where the normalising loops leave the relative bearing x: (-180, 180] above -180, [-180, 180) otherwise. */
  predicate InHalfTurn(x: real, r: real) {
    if x > -180.0 then -180.0 < r <= 180.0 else -180.0 <= r < 180.0
  }

  /** The normalised bearing, and so the azimuth, is unique: two whole-turn shifts of x that both land in its interval are the same shift. */
  lemma {:induction false} HalfTurnUnique(x: real, k1: int, k2: int)
    requires InHalfTurn(x, x + Turns(k1)) && InHalfTurn(x, x + Turns(k2))
    ensures k1 == k2
  {
    assert Turns(k1) - Turns(k2) == (k1 - k2) as real * 360.0;
  }
}
