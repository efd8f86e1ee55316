/** The motion driver: a thin wrapper that forwards stop / forward / backward /
    steer to the injected car, and does nothing while no car is injected. The
    car itself is hardware; the model records every call the car receives. */
module MotionDriver {
  import opened Base
  import opened Loader
  import opened Limits

  /** Identity of an injected car object. */
  type CarId = nat

  /** A call the car receives. */
  datatype CarCall =
    | CarStop
    | CarForward(speed: int)
    | CarBackward(speed: int)
    | CarSetDirServoAngle(angleDeg: real)

  /** One entry of the hardware log: which car received which call. */
  datatype Sent = Sent(car: CarId, call: CarCall)

  /** A call on the driver's API, as its callers make it. */
  datatype DriverCall =
    | Stop
    | Forward(speed: real)
    | Backward(speed: real)
    | SetSteer(angleDeg: real)

  /** The speed handed to the car: `max(0, min(100, int(speed)))`. */
  function MotorSpeed(speed: real): (r: int)
    ensures 0 <= r <= 100
    ensures 0 <= Trunc(speed) <= 100 ==> r == Trunc(speed)
  {
    ClampSpeed(speed, 100)
  }

  /** The car call a driver call turns into. */
  function CarCallOf(c: DriverCall): (r: CarCall)
    ensures c.Forward? <==> r.CarForward?
    ensures c.Backward? <==> r.CarBackward?
    ensures r.CarForward? ==> 0 <= r.speed <= 100
    ensures r.CarBackward? ==> 0 <= r.speed <= 100
  {
    match c
    case Stop => CarStop
    case Forward(s) => CarForward(MotorSpeed(s))
    case Backward(s) => CarBackward(MotorSpeed(s))
    case SetSteer(a) => CarSetDirServoAngle(a)
  }

  /** What the car log gains from a sequence of driver calls. */
  function Sends(car: Option<CarId>, calls: seq<DriverCall>): (r: seq<Sent>)
    ensures car.None? ==> r == []
    ensures car.Some? ==> |r| == |calls|
    ensures car.Some? ==> forall i :: 0 <= i < |r| ==> r[i] == Sent(car.value, CarCallOf(calls[i]))
  {
    if car.None? || calls == [] then []
    else [Sent(car.value, CarCallOf(calls[0]))] + Sends(car, calls[1..])
  }

  lemma {:induction false} SendsAppend(car: Option<CarId>, a: seq<DriverCall>, b: seq<DriverCall>)
    ensures Sends(car, a + b) == Sends(car, a) + Sends(car, b)
  {
    if car.Some? {
      assert forall i :: 0 <= i < |a| + |b| ==> (a + b)[i] == if i < |a| then a[i] else b[i - |a|];
    }
  }

  /** The driver's module state: the injected car and what it has received. */
  class Driver {
    var car: Option<CarId>
    var log: seq<Sent>

    /** Initially no car: every command is a no-op. */
    constructor()
      ensures car == None && log == []
    {
      car := None;
      log := [];
    }

    /** `set_car`: every later command goes to `c`. */
    method SetCar(c: Option<CarId>)
      modifies this
      ensures car == c && log == old(log)
    {
      car := c;
    }

    method Stop()
      modifies this
      ensures car == old(car) && log == old(log) + Sends(car, [DriverCall.Stop])
    {
      if car.Some? {
        log := log + [Sent(car.value, CarStop)];
      }
    }

    method Forward(speed: real)
      modifies this
      ensures car == old(car) && log == old(log) + Sends(car, [DriverCall.Forward(speed)])
    {
      var s := MotorSpeed(speed);
      if car.Some? {
        log := log + [Sent(car.value, CarForward(s))];
      }
    }

    method Backward(speed: real)
      modifies this
      ensures car == old(car) && log == old(log) + Sends(car, [DriverCall.Backward(speed)])
    {
      var s := MotorSpeed(speed);
      if car.Some? {
        log := log + [Sent(car.value, CarBackward(s))];
      }
    }

    method SetSteer(angleDeg: real)
      modifies this
      ensures car == old(car) && log == old(log) + Sends(car, [DriverCall.SetSteer(angleDeg)])
    {
      if car.Some? {
        log := log + [Sent(car.value, CarSetDirServoAngle(angleDeg))];
      }
    }
  }

  /** `get_steer_limits`: (-25, 25) without calibration, (-m, m) with it. */
  function GetSteerLimits(calib: Option<Calibration>): (r: (real, real))
    ensures r.0 == -r.1
    ensures calib.None? ==> r.1 == 25.0
    ensures calib.Some? ==> r.1 == MaxSteerAngleDeg(calib.value)
  {
    if calib.None? then (-25.0, 25.0)
    else
      var m := MaxSteerAngleDeg(calib.value);
      (-m, m)
  }

  /** With a calibration, the driver's limits are the clamp's limits. */
  lemma SteerLimitsMatchClamp(c: Calibration, angle: real)
    requires 0.0 <= MaxSteerAngleDeg(c)
    ensures var (lo, hi) := GetSteerLimits(Some(c));
      lo <= ClampSteer(angle, Some(c)) <= hi
  {
  }

  /** Without calibration they disagree: the clamp lets 28 degrees through,
      beyond the driver's stated +/-25. */
  lemma SteerLimitsWiderClampUncalibrated()
    ensures ClampSteer(28.0, None) == 28.0 > GetSteerLimits(None).1
  {
  }
}
