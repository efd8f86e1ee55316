/** The calibration limits applied to every steering and speed command. */
module Limits {
  import opened Base
  import opened Loader

  /** Steering bound used when no calibration is given. */
  const UncalibratedSteerLimitDeg: real := 30.0
  /** Default upper bound of `clamp_speed`. */
  const DefaultMaxSpeed: int := 100

  /** The `m` of `clamp_steer`: 30 without calibration; with one, its
      `max_steer_angle_deg`, which defaults to 25 when the key is missing. */
  function SteerBound(calib: Option<Calibration>): (m: real)
    ensures calib.None? ==> m == 30.0
    ensures calib.Some? && calib.value.maxSteerAngleDeg.Some? ==> m == calib.value.maxSteerAngleDeg.value
    ensures calib.Some? && calib.value.maxSteerAngleDeg.None? ==> m == 25.0
  {
    if calib.None? then UncalibratedSteerLimitDeg else MaxSteerAngleDeg(calib.value)
  }

  /** `clamp_steer`: `max(-m, min(m, angle))`. */
  function ClampSteer(angle: real, calib: Option<Calibration>): (r: real)
    ensures var m := SteerBound(calib);
      0.0 <= m ==> -m <= r <= m
    ensures var m := SteerBound(calib);
      -m <= angle <= m ==> r == angle
    ensures var m := SteerBound(calib);
      0.0 <= m ==> (angle >= m ==> r == m) && (angle <= -m ==> r == -m)
    ensures var m := SteerBound(calib);
      m < 0.0 ==> r == -m
  {
    var m := SteerBound(calib);
    var upper := if angle < m then angle else m;
    if -m < upper then upper else -m
  }

  /** `clamp_speed`: `max(0, min(max_speed, int(speed)))`. */
  function ClampSpeed(speed: real, maxSpeed: int): (r: int)
    ensures 0 <= maxSpeed ==> 0 <= r <= maxSpeed
    ensures maxSpeed < 0 ==> r == 0
    ensures 0 <= Trunc(speed) <= maxSpeed ==> r == Trunc(speed)
    ensures 0 <= maxSpeed <= Trunc(speed) ==> r == maxSpeed
    ensures Trunc(speed) <= 0 ==> r == 0
  {
    var t := Trunc(speed);
    var upper := if t < maxSpeed then t else maxSpeed;
    if 0 < upper then upper else 0
  }

  /** Clamping an already clamped angle changes nothing. */
  lemma ClampSteerIdempotent(angle: real, calib: Option<Calibration>)
    ensures ClampSteer(ClampSteer(angle, calib), calib) == ClampSteer(angle, calib)
  {
  }

  /** `clamp_steer` never reverses the order of two angles. */
  lemma ClampSteerMonotone(a: real, b: real, calib: Option<Calibration>)
    requires a <= b
    ensures ClampSteer(a, calib) <= ClampSteer(b, calib)
  {
  }

  /** A non-negative bound keeps the sign of the angle. */
  lemma ClampSteerSign(angle: real, calib: Option<Calibration>)
    requires 0.0 < SteerBound(calib)
    ensures 0.0 < angle <==> 0.0 < ClampSteer(angle, calib)
    ensures angle < 0.0 <==> ClampSteer(angle, calib) < 0.0
    ensures angle == 0.0 <==> ClampSteer(angle, calib) == 0.0
  {
  }

  /** `int()` then clamp: speeds never decrease the result when they grow. */
  lemma {:induction false} ClampSpeedMonotone(a: real, b: real, maxSpeed: int)
    requires a <= b
    ensures ClampSpeed(a, maxSpeed) <= ClampSpeed(b, maxSpeed)
  {
    TruncMonotone(a, b);
  }

  lemma {:induction false} TruncMonotone(a: real, b: real)
    requires a <= b
    ensures Trunc(a) <= Trunc(b)
  {
    if 0.0 <= a {
      assert a.Floor <= b.Floor;
    } else if b < 0.0 {
      assert (-b).Floor <= (-a).Floor;
    }
  }

  /** An integer speed is kept as is when it lies in `[0, maxSpeed]`. */
  lemma ClampSpeedInteger(speed: int, maxSpeed: int)
    ensures 0 <= speed <= maxSpeed ==> ClampSpeed(speed as real, maxSpeed) == speed
    ensures speed < 0 ==> ClampSpeed(speed as real, maxSpeed) == 0
    ensures 0 <= maxSpeed < speed ==> ClampSpeed(speed as real, maxSpeed) == maxSpeed
  {
    assert Trunc(speed as real) == speed;
  }
}
