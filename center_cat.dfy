/** Centring the cat in the camera frame: the bbox centre steers the car, the
    bbox area (through the calibrated distance) drives it forward or back to
    hold the target distance. Every decision ends in driver calls. */
module CenterCat {
  import opened Base
  import opened Loader
  import opened Limits
  import opened MotionDriver

  /** Pixels-to-degrees gain of the lateral steering. */
  const SteerGainDegPerPx: real := 0.08
  const DefaultApproachSpeed: int := 40
  /** Half-width of the distance dead band, in centimetres. */
  const DeadBandCm: real := 5.0

  /** A bounding box in pixels: top-left corner, width, height. */
  datatype Bbox = Bbox(x: real, y: real, w: real, h: real)

  /** The bbox area in square pixels. */
  function Area(bbox: Bbox): real
  {
    bbox.w * bbox.h
  }

  /** The steering command: the clamped horizontal offset of the bbox centre,
      at 0.08 degrees per pixel. */
  function LateralSteer(bbox: Bbox, imageWidth: int, calib: Option<Calibration>): (r: real)
    ensures var m := SteerBound(calib);
      0.0 <= m ==> -m <= r <= m
    ensures var offset := (bbox.x + bbox.w / 2.0) - imageWidth as real / 2.0;
      var m := SteerBound(calib);
      -m <= SteerGainDegPerPx * offset <= m ==> r == SteerGainDegPerPx * offset
  {
    var errorX := (bbox.x + bbox.w / 2.0) - imageWidth as real / 2.0;
    ClampSteer(errorX * SteerGainDegPerPx, calib)
  }

  /** The distance estimate: present exactly when a calibration with a
      non-empty area table is given, and then within the table's distances. */
  function DistanceEstimate(area: real, calib: Option<Calibration>): (r: Option<real>)
    ensures r.Some? <==> calib.Some? && calib.value.areaToCm.Some? && |calib.value.areaToCm.value| > 0
    ensures r.Some? ==>
      exists p, q :: p in calib.value.areaToCm.value && q in calib.value.areaToCm.value && p.1 <= r.value <= q.1
  {
    if calib.None? then None else DistanceCmFromBboxArea(calib.value, area)
  }

  function ApproachForward(approachSpeed: int): DriverCall
  {
    Forward(ClampSpeed(approachSpeed as real, DefaultMaxSpeed) as real)
  }

  /** `approach_speed // 2`, clamped: Python's floor division by 2. */
  function RetreatBackward(approachSpeed: int): DriverCall
  {
    Backward(ClampSpeed((approachSpeed / 2) as real, DefaultMaxSpeed) as real)
  }

  /** The speed command chosen from the distance estimate and the bbox area:
      without an estimate, creep forward while the bbox covers under a tenth
      of the image; with one, hold the target distance within the dead band. */
  function SpeedDecision(dist: Option<real>, area: real, imageWidth: int, imageHeight: int,
                         targetDistanceCm: real, approachSpeed: int): (c: DriverCall)
    ensures c == ApproachForward(approachSpeed) || c == RetreatBackward(approachSpeed) || c == Stop
    ensures dist.None? ==>
      (c == ApproachForward(approachSpeed) <==> area < (imageWidth * imageHeight) as real * 0.1)
    ensures dist.None? ==> !c.Backward?
    ensures dist.Some? ==> (c.Forward? <==> dist.value > targetDistanceCm + DeadBandCm)
    ensures dist.Some? ==> (c.Backward? <==> dist.value < targetDistanceCm - DeadBandCm)
  {
    if dist.None? then
      if area < (imageWidth * imageHeight) as real * 0.1 then ApproachForward(approachSpeed) else Stop
    else if dist.value > targetDistanceCm + DeadBandCm then ApproachForward(approachSpeed)
    else if dist.value < targetDistanceCm - DeadBandCm then RetreatBackward(approachSpeed)
    else Stop
  }

  /** The calls `center_cat_control` makes on the driver, in order. */
  function CenterCatPlan(bbox: Bbox, imageWidth: int, imageHeight: int, calib: Option<Calibration>,
                         targetDistanceCm: real, approachSpeed: int): (p: seq<DriverCall>)
    ensures |p| == 2
    ensures p[0] == SetSteer(LateralSteer(bbox, imageWidth, calib))
    ensures p[1].Forward? || p[1].Backward? || p[1].Stop?
  {
    [SetSteer(LateralSteer(bbox, imageWidth, calib)),
     SpeedDecision(DistanceEstimate(Area(bbox), calib), Area(bbox), imageWidth, imageHeight,
                   targetDistanceCm, approachSpeed)]
  }

  /** A horizontally centred cat gives a straight steering command. */
  lemma CentredCatSteersStraight(bbox: Bbox, imageWidth: int, imageHeight: int,
                                 calib: Option<Calibration>, targetDistanceCm: real, approachSpeed: int)
    requires 0.0 <= SteerBound(calib)
    requires bbox.x + bbox.w / 2.0 == imageWidth as real / 2.0
    ensures CenterCatPlan(bbox, imageWidth, imageHeight, calib, targetDistanceCm, approachSpeed)[0] == SetSteer(0.0)
  {
  }

  /** The steer has the sign of the horizontal offset: positive when the bbox
      centre lies right of the image centre, negative when it lies left. */
  lemma SteerFollowsOffset(bbox: Bbox, imageWidth: int, calib: Option<Calibration>)
    requires 0.0 < SteerBound(calib)
    ensures bbox.x + bbox.w / 2.0 > imageWidth as real / 2.0 <==> LateralSteer(bbox, imageWidth, calib) > 0.0
    ensures bbox.x + bbox.w / 2.0 < imageWidth as real / 2.0 <==> LateralSteer(bbox, imageWidth, calib) < 0.0
  {
    var errorX := (bbox.x + bbox.w / 2.0) - imageWidth as real / 2.0;
    ClampSteerSign(errorX * SteerGainDegPerPx, calib);
  }

  /** Within five centimetres of the target distance the car stops. */
  lemma DeadBandStops(d: real, area: real, imageWidth: int, imageHeight: int,
                      targetDistanceCm: real, approachSpeed: int)
    ensures targetDistanceCm - DeadBandCm <= d <= targetDistanceCm + DeadBandCm <==>
      SpeedDecision(Some(d), area, imageWidth, imageHeight, targetDistanceCm, approachSpeed) == Stop
  {
  }

  /** With the default approach speed the car receives forward 40 or backward 20. */
  lemma DefaultApproachCarSpeeds(car: CarId, bbox: Bbox, imageWidth: int, imageHeight: int,
                                 calib: Option<Calibration>, targetDistanceCm: real)
    ensures var sent := Sends(Some(car), CenterCatPlan(bbox, imageWidth, imageHeight, calib,
                                                      targetDistanceCm, DefaultApproachSpeed));
      && |sent| == 2
      && sent[0].call.CarSetDirServoAngle?
      && (sent[1].call == CarForward(40) || sent[1].call == CarBackward(20) || sent[1].call == CarStop)
  {
    ClampSpeedInteger(40, DefaultMaxSpeed);
    ClampSpeedInteger(20, DefaultMaxSpeed);
    assert Trunc(40.0) == 40 && Trunc(20.0) == 20;
  }

  /** `center_cat_control`: steers, then moves or stops, through the driver. */
  method CenterCatControl(driver: Driver, bbox: Bbox, imageWidth: int, imageHeight: int,
                          calib: Option<Calibration>, targetDistanceCm: real, approachSpeed: int)
    modifies driver
    ensures driver.car == old(driver.car)
    ensures driver.log == old(driver.log) +
      Sends(driver.car, CenterCatPlan(bbox, imageWidth, imageHeight, calib, targetDistanceCm, approachSpeed))
  {
    var errorX := (bbox.x + bbox.w / 2.0) - imageWidth as real / 2.0;
    var steerDeg := ClampSteer(errorX * SteerGainDegPerPx, calib);
    driver.SetSteer(steerDeg);
    ghost var afterSteer := driver.log;

    var area := Area(bbox);
    var distCm: Option<real> := None;
    if calib.Some? {
      distCm := GetDistanceCmFromBboxArea(calib.value, area);
    }
    assert distCm == DistanceEstimate(area, calib);
    ghost var expected := SpeedDecision(distCm, area, imageWidth, imageHeight, targetDistanceCm, approachSpeed);
    var call: DriverCall;
    if distCm.None? {
      if area < (imageWidth * imageHeight) as real * 0.1 {
        call := Forward(ClampSpeed(approachSpeed as real, DefaultMaxSpeed) as real);
        driver.Forward(ClampSpeed(approachSpeed as real, DefaultMaxSpeed) as real);
      } else {
        call := Stop;
        driver.Stop();
      }
    } else if distCm.value > targetDistanceCm + DeadBandCm {
      call := Forward(ClampSpeed(approachSpeed as real, DefaultMaxSpeed) as real);
      driver.Forward(ClampSpeed(approachSpeed as real, DefaultMaxSpeed) as real);
    } else if distCm.value < targetDistanceCm - DeadBandCm {
      call := Backward(ClampSpeed((approachSpeed / 2) as real, DefaultMaxSpeed) as real);
      driver.Backward(ClampSpeed((approachSpeed / 2) as real, DefaultMaxSpeed) as real);
    } else {
      call := Stop;
      driver.Stop();
    }
    assert driver.log == afterSteer + Sends(driver.car, [call]);
    assert call == expected;
    assert steerDeg == LateralSteer(bbox, imageWidth, calib);
    SendsAppend(driver.car, [SetSteer(steerDeg)], [call]);
    assert [SetSteer(steerDeg)] + [call] ==
      CenterCatPlan(bbox, imageWidth, imageHeight, calib, targetDistanceCm, approachSpeed);
  }
}
