/** Go-to-XY: the proportional heading controller that drives toward a target
    point. Distances are in centimetres, angles in degrees. */
module GotoXY {
  import opened Base
  import opened Loader
  import opened Limits

  /** Proportional gain from heading error to steering. */
  const Kp: real := 1.5
  /** Distance under which the car counts as arrived. */
  const ArrivalThresholdCm: real := 10.0
  /** Heading errors larger than this use the slow speed. */
  const SlowErrorDeg: real := 45.0
  const CruiseSpeed: int := 40
  const SlowSpeed: int := 20

  /** `compute_bearing_deg`: the direction from (x, y) to (tx, ty). */
  function BearingDeg(math: MathFns, x: real, y: real, tx: real, ty: real): real
  {
    math.atan2Deg(ty - y, tx - x)
  }

  /** `normalize_angle`: Python `% 360`, then one step down when 180 or above. */
  function NormalizeAngle(a: real): (r: real)
    ensures -180.0 <= r < 180.0
  {
    var m := PyMod360(a);
    if m >= 180.0 then m - 360.0 else m
  }

  /** The normalised angle differs from the input by whole turns. */
  lemma {:induction false} NormalizeAngleTurns(a: real) returns (k: int)
    ensures NormalizeAngle(a) == a + 360.0 * k as real
  {
    k := -(a / 360.0).Floor;
    if PyMod360(a) >= 180.0 {
      k := k - 1;
    }
  }

  /** Adding whole turns does not change the normalised angle. */
  lemma {:induction false} NormalizeAnglePeriodic(a: real, k: int)
    ensures NormalizeAngle(a + 360.0 * k as real) == NormalizeAngle(a)
  {
    PyMod360Shift(a, k);
  }

  /** On [-180, 180) normalising is the identity. */
  lemma {:induction false} NormalizeAngleIdentity(a: real)
    requires -180.0 <= a < 180.0
    ensures NormalizeAngle(a) == a
  {
    if 0.0 <= a {
      assert (a / 360.0).Floor == 0;
    } else {
      assert (a / 360.0).Floor == -1;
    }
  }

  /** The normalised angle is the only angle in [-180, 180) that differs from
      the input by whole turns. */
  lemma {:induction false} NormalizeAngleUnique(a: real, r: real, k: int)
    requires -180.0 <= r < 180.0 && r == a + 360.0 * k as real
    ensures NormalizeAngle(a) == r
  {
    NormalizeAngleIdentity(r);
    NormalizeAnglePeriodic(a, k);
  }

  /** Normalising twice is normalising once. */
  lemma NormalizeAngleIdempotent(a: real)
    ensures NormalizeAngle(NormalizeAngle(a)) == NormalizeAngle(a)
  {
    NormalizeAngleIdentity(NormalizeAngle(a));
  }

  /** `compute_heading_error`: signed error, positive means turn left. */
  function HeadingError(desiredDeg: real, currentDeg: real): (r: real)
    ensures -180.0 <= r < 180.0
  {
    NormalizeAngle(desiredDeg - currentDeg)
  }

  /** The heading error wraps across the +/-180 seam the short way round. */
  lemma HeadingErrorAcrossSeam()
    ensures HeadingError(-170.0, 170.0) == 20.0
    ensures HeadingError(170.0, -170.0) == -20.0
  {
    NormalizeAngleUnique(-340.0, 20.0, 1);
    NormalizeAngleUnique(340.0, -20.0, -1);
  }

  /** The error is the turn that brings the current heading onto the desired one. */
  lemma {:induction false} HeadingErrorTurns(desiredDeg: real, currentDeg: real) returns (k: int)
    ensures currentDeg + HeadingError(desiredDeg, currentDeg) == desiredDeg + 360.0 * k as real
  {
    k := NormalizeAngleTurns(desiredDeg - currentDeg);
  }

  function SquaredDistance(x: real, y: real, tx: real, ty: real): real
  {
    (tx - x) * (tx - x) + (ty - y) * (ty - y)
  }

  /** `compute_distance`: the Euclidean distance. */
  function Distance(math: MathFns, x: real, y: real, tx: real, ty: real): (d: real)
    requires math.SqrtIsRoot()
    ensures 0.0 <= d
    ensures d * d == SquaredDistance(x, y, tx, ty)
  {
    var s := SquaredDistance(x, y, tx, ty);
    assert 0.0 <= s;
    math.sqrt(s)
  }

  /** The distance from a point to itself is zero. */
  lemma DistanceToSelf(math: MathFns, x: real, y: real)
    requires math.SqrtIsRoot()
    ensures Distance(math, x, y, x, y) == 0.0
  {
    assert SquaredDistance(x, y, x, y) == 0.0;
  }

  /** For a non-negative root, `d < 10` exactly when `d * d < 100`. */
  lemma {:induction false} BelowThresholdSquared(d: real)
    requires 0.0 <= d
    ensures d < ArrivalThresholdCm <==> d * d < 100.0
  {
    if d < 10.0 {
      assert d * d <= d * 10.0 < 100.0;
    } else {
      assert d * d >= d * 10.0 >= 100.0;
    }
  }

  /** The arrival test `distance < 10` is the test `dx^2 + dy^2 < 100`. */
  lemma ArrivalBySquares(math: MathFns, x: real, y: real, tx: real, ty: real)
    requires math.SqrtIsRoot()
    ensures Distance(math, x, y, tx, ty) < ArrivalThresholdCm <==> SquaredDistance(x, y, tx, ty) < 100.0
  {
    var d := Distance(math, x, y, tx, ty);
    BelowThresholdSquared(d);
    assert d * d == SquaredDistance(x, y, tx, ty);
    assert d < ArrivalThresholdCm <==> d * d < 100.0;
  }

  function Abs(v: real): real
  {
    if v < 0.0 then -v else v
  }

  /** The (steer_deg, speed, arrived) triple of one tick. */
  datatype GotoCommand = GotoCommand(steerDeg: real, speed: int, arrived: bool)

  /** `compute_goto`. */
  function ComputeGoto(math: MathFns, calib: Option<Calibration>,
                       x: real, y: real, headingDeg: real, tx: real, ty: real): (c: GotoCommand)
    requires math.SqrtIsRoot()
    ensures c.arrived <==> SquaredDistance(x, y, tx, ty) < 100.0
    ensures c.arrived ==> c == GotoCommand(0.0, 0, true)
    ensures !c.arrived ==>
      var e := HeadingError(BearingDeg(math, x, y, tx, ty), headingDeg);
      && c.steerDeg == ClampSteer(Kp * e, calib)
      && c.speed == (if Abs(e) > SlowErrorDeg then SlowSpeed else CruiseSpeed)
  {
    var distance := Distance(math, x, y, tx, ty);
    ArrivalBySquares(math, x, y, tx, ty);
    if distance < ArrivalThresholdCm then GotoCommand(0.0, 0, true)
    else
      var bearing := BearingDeg(math, x, y, tx, ty);
      var error := HeadingError(bearing, headingDeg);
      var steer := ClampSteer(Kp * error, calib);
      var speed := if Abs(error) > SlowErrorDeg then SlowSpeed else CruiseSpeed;
      ClampSpeedInteger(speed, DefaultMaxSpeed);
      GotoCommand(steer, ClampSpeed(speed as real, DefaultMaxSpeed), false)
  }

  /** The commanded steer stays within the clamp bound (+/-30 degrees without calibration). */
  lemma GotoSteerBounded(math: MathFns, calib: Option<Calibration>,
                         x: real, y: real, headingDeg: real, tx: real, ty: real)
    requires math.SqrtIsRoot()
    requires 0.0 <= SteerBound(calib)
    ensures var c := ComputeGoto(math, calib, x, y, headingDeg, tx, ty);
      -SteerBound(calib) <= c.steerDeg <= SteerBound(calib)
  {
  }

  /** Target to the left (positive error) steers left, to the right steers right. */
  lemma GotoSteerSign(math: MathFns, calib: Option<Calibration>,
                      x: real, y: real, headingDeg: real, tx: real, ty: real)
    requires math.SqrtIsRoot()
    requires 0.0 < SteerBound(calib)
    ensures var c := ComputeGoto(math, calib, x, y, headingDeg, tx, ty);
      var e := HeadingError(BearingDeg(math, x, y, tx, ty), headingDeg);
      !c.arrived ==> (0.0 < e <==> 0.0 < c.steerDeg) && (e < 0.0 <==> c.steerDeg < 0.0)
  {
    var e := HeadingError(BearingDeg(math, x, y, tx, ty), headingDeg);
    ClampSteerSign(Kp * e, calib);
  }
}
