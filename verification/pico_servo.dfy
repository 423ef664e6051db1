/**
 * The MicroPython hobby-servo driver: an angle in 0..180 degrees becomes a
 * pulse width between the configured minimum and maximum, and the pulse
 * width a 16-bit PWM duty for the configured frequency.
 */
module PicoServo {
  import opened Numeric
  import opened Wrappers

  /** config.py defaults: 50 Hz, 500 us at 0 degrees, 2500 us at 180 degrees. */
  const SERVO_FREQ: int := 50
  const SERVO_MIN_US: int := 500
  const SERVO_MAX_US: int := 2500

  /** Full scale of duty_u16. */
  const DUTY_FULL: int := 65535

  /**
   * `1_000_000 // freq`: the PWM period in whole microseconds. Python's `//`
   * floors, which for a positive divisor is Dafny's `/`. A frequency above
   * 1 MHz gives a zero period.
   */
  function PeriodUs(freq: int): (p: int)
    requires freq > 0
    ensures p >= 0
    ensures p * freq <= 1_000_000 < (p + 1) * freq
    ensures p == 0 <==> freq > 1_000_000
  {
    1_000_000 / freq
  }

  /** The pulse width for an angle already clamped to 0..180: linear from minUs at 0 to maxUs at 180. */
  function PulseUs(minUs: int, maxUs: int, angle: real): (pulse: real)
    requires 0.0 <= angle <= 180.0
    ensures minUs <= maxUs ==> minUs as real <= pulse <= maxUs as real
    ensures angle == 0.0 ==> pulse == minUs as real
    ensures angle == 180.0 ==> pulse == maxUs as real
  {
    var t := angle / 180.0;
    var w := (maxUs - minUs) as real;
    ScaleWithin(t, w);
    minUs as real + t * w
  }

  lemma ScaleWithin(t: real, w: real)
    requires 0.0 <= t <= 1.0
    ensures 0.0 <= w ==> 0.0 <= t * w <= w
  {
    assert w - t * w == (1.0 - t) * w;
  }

  /** `int(pulse_us * 65535 // period_us)`: the whole number of duty steps below the pulse's share of the period. */
  function Duty(pulse: real, periodUs: int): (duty: int)
    requires periodUs > 0
    ensures duty as real <= pulse * DUTY_FULL as real / periodUs as real < duty as real + 1.0
  {
    (pulse * DUTY_FULL as real / periodUs as real).Floor
  }

  /** The duty a requested angle ends up as. */
  function DutyFor(minUs: int, maxUs: int, periodUs: int, angle: real): int
    requires periodUs > 0
  {
    Duty(PulseUs(minUs, maxUs, Clamp(angle, 0.0, 180.0)), periodUs)
  }

  /** A larger requested angle never gives a smaller duty (for a servo whose pulse range is not reversed). */
  lemma DutyMonotone(minUs: int, maxUs: int, periodUs: int, a: real, b: real)
    requires periodUs > 0 && minUs <= maxUs && a <= b
    ensures DutyFor(minUs, maxUs, periodUs, a) <= DutyFor(minUs, maxUs, periodUs, b)
  {
    var ca, cb := Clamp(a, 0.0, 180.0), Clamp(b, 0.0, 180.0);
    ClampMonotone(a, b, 0.0, 180.0);
    var pa, pb := PulseUs(minUs, maxUs, ca), PulseUs(minUs, maxUs, cb);
    PulseMonotone(minUs, maxUs, ca, cb);
    var p := periodUs as real;
    ScaleMonotone(pa, pb, 65535.0);
    DivMonotone(pa * 65535.0, pb * 65535.0, p);
    FloorMonotone(pa * 65535.0 / p, pb * 65535.0 / p);
  }

  /** A larger angle never gives a shorter pulse. */
  lemma PulseMonotone(minUs: int, maxUs: int, ca: real, cb: real)
    requires minUs <= maxUs && 0.0 <= ca <= cb <= 180.0
    ensures PulseUs(minUs, maxUs, ca) <= PulseUs(minUs, maxUs, cb)
  {
    ScaleMonotone(ca / 180.0, cb / 180.0, (maxUs - minUs) as real);
  }

  lemma ScaleMonotone(x: real, y: real, w: real)
    requires x <= y && 0.0 <= w
    ensures x * w <= y * w
  {
    assert y * w - x * w == (y - x) * w;
  }

  lemma DivMonotone(x: real, y: real, p: real)
    requires x <= y && 0.0 < p
    ensures x / p <= y / p
  {
    var d := (y - x) / p;
    assert d * p == y - x;
    assert y / p - x / p == d;
  }

  /** With the default configuration every angle gives a duty in [1638, 8191], well inside duty_u16's 0..65535. */
  lemma DefaultDutyRange(angle: real)
    ensures PeriodUs(SERVO_FREQ) == 20000
    ensures 1638 <= DutyFor(SERVO_MIN_US, SERVO_MAX_US, 20000, angle) <= 8191
  {
    var c := Clamp(angle, 0.0, 180.0);
    var pulse := PulseUs(SERVO_MIN_US, SERVO_MAX_US, c);
    assert 500.0 <= pulse <= 2500.0;
    FloorMonotone(500.0 * 65535.0 / 20000.0, pulse * 65535.0 / 20000.0);
    FloorMonotone(pulse * 65535.0 / 20000.0, 2500.0 * 65535.0 / 20000.0);
    assert (500.0 * 65535.0 / 20000.0).Floor == 1638;
    assert (2500.0 * 65535.0 / 20000.0).Floor == 8191;
  }

  /**
   * `Servo(pin, freq, min_us, max_us)`, which either yields a servo centred at
   * 90 degrees or raises. The PWM driver may refuse the frequency
   * (`pwmAccepts`, outside this model). A frequency above 1 MHz makes the
   * period 0, and the centring set_angle(90.0) then divides by zero. A
   * non-positive frequency is taken as a failed construction.
   */
  method Create(freq: int, minUs: int, maxUs: int, pwmAccepts: int -> bool) returns (r: Option<Servo>)
    ensures r.Some? <==> 0 < freq <= 1_000_000 && pwmAccepts(freq)
    ensures r.Some? ==> fresh(r.value) && r.value.Valid()
                        && r.value.minUs == minUs && r.value.maxUs == maxUs
                        && r.value.periodUs == PeriodUs(freq)
                        && r.value.angle == 90.0 && !r.value.released
                        && r.value.duty == DutyFor(minUs, maxUs, r.value.periodUs, 90.0)
  {
    if freq <= 0 || !pwmAccepts(freq) {
      return None;
    }
    if PeriodUs(freq) == 0 {
      // set_angle(90.0) in __init__: `pulse_us * 65535 // 0` raises ZeroDivisionError
      return None;
    }
    var servo := new Servo(freq, minUs, maxUs);
    r := Some(servo);
  }

  /** Servo: one PWM output, the last angle set and the last duty written. */
  class Servo {
    const minUs: int
    const maxUs: int
    const periodUs: int
    var angle: real
    /** The value last passed to duty_u16. */
    var duty: int
    /** deinit() has released the PWM slice. */
    var released: bool

    ghost predicate Valid()
      reads this
    {
      periodUs > 0 && 0.0 <= angle <= 180.0
    }

    /** Stores the configuration and centres the servo at 90 degrees, for a frequency with a non-zero period (see Create). */
    constructor (freq: int, minUs: int, maxUs: int)
      requires freq > 0 && PeriodUs(freq) > 0
      ensures Valid()
      ensures this.minUs == minUs && this.maxUs == maxUs && periodUs == PeriodUs(freq)
      ensures angle == 90.0 && duty == DutyFor(minUs, maxUs, periodUs, 90.0) && !released
    {
      this.minUs := minUs;
      this.maxUs := maxUs;
      periodUs := PeriodUs(freq);
      angle := 90.0;
      released := false;
      new;
      SetAngle(90.0);
    }

    /** set_angle: stores the clamped angle and writes the duty for it. */
    method SetAngle(requested: real)
      requires periodUs > 0
      modifies this
      ensures Valid()
      ensures angle == Clamp(requested, 0.0, 180.0)
      ensures duty == DutyFor(minUs, maxUs, periodUs, requested)
      ensures released == old(released)
    {
      var a := Clamp(requested, 0.0, 180.0);
      angle := a;
      var pulse := minUs as real + (a / 180.0) * (maxUs - minUs) as real;
      assert pulse == PulseUs(minUs, maxUs, a);
      duty := Duty(pulse, periodUs);
    }

    /** The angle property: the clamped value last set. */
    method Angle() returns (a: real)
      requires Valid()
      ensures a == angle && 0.0 <= a <= 180.0
    {
      a := angle;
    }

    /** deinit: drive the output to 0 duty, then release the PWM. */
    method Deinit()
      modifies this
      ensures duty == 0 && released
      ensures angle == old(angle)
    {
      duty := 0;
      released := true;
    }
  }
}
