/** The ultrasonic range sensor: validated readings in centimetres, with the
    hardware pinged at most once per 60 ms and the last valid value cached.
    The clock and the hardware reading are inputs of the model. */
module RangeSensor {
  import opened Base

  /** Minimum seconds between two hardware pings. */
  const MinReadIntervalSec: real := 0.06
  const MinCm: real := 1.0
  const MaxCm: real := 500.0

  /** What the car's `get_distance()` produced, had it been called now. */
  datatype Reading =
    | Raised            // the call raised an exception
    | NoneValue         // it returned None
    | NonNumeric        // it returned something that is not an int or a float
    | Number(value: real)

  /** A cached or returned distance is absent or within [MinCm, MaxCm]. */
  predicate InRange(d: Option<real>)
  {
    d.None? || MinCm <= d.value <= MaxCm
  }

  /** The sensor module's state after a call, with the call's result. */
  datatype Outcome = Outcome(result: Option<real>, lastDistanceCm: Option<real>, lastReadTime: real)

  /** `get_distance_cm` as a function of the module state, the clock and the reading. */
  function Measure(hasCar: bool, lastDistanceCm: Option<real>, lastReadTime: real,
                   now: real, reading: Reading): (o: Outcome)
    ensures o.result == o.lastDistanceCm
    ensures InRange(lastDistanceCm) ==> InRange(o.result)
    ensures o.result.Some? && o.result != lastDistanceCm ==>
      reading.Number? && o.result.value == reading.value && o.lastReadTime == now
    ensures o.lastReadTime == lastReadTime || o.lastReadTime == now
  {
    if hasCar && now - lastReadTime < MinReadIntervalSec && lastDistanceCm.Some? then
      Outcome(lastDistanceCm, lastDistanceCm, lastReadTime)
    else if !hasCar then
      Outcome(None, None, lastReadTime)
    else
      match reading
      case Raised => Outcome(None, None, now)
      case NoneValue => Outcome(None, None, now)
      case NonNumeric => Outcome(None, None, now)
      case Number(d) =>
        if d < 0.0 then Outcome(None, None, now)
        else if d < MinCm || d > MaxCm then Outcome(None, None, now)
        else Outcome(Some(d), Some(d), now)
  }

  /** With no car the result is None and the cache is cleared. */
  lemma NoCarNoDistance(lastDistanceCm: Option<real>, lastReadTime: real, now: real, reading: Reading)
    ensures var o := Measure(false, lastDistanceCm, lastReadTime, now, reading);
      o.result.None? && o.lastDistanceCm.None? && o.lastReadTime == lastReadTime
  {
  }

  /** Within 60 ms of the last ping a cached value is returned and nothing changes. */
  lemma ThrottleReturnsCache(d: real, lastReadTime: real, now: real, reading: Reading)
    requires now - lastReadTime < MinReadIntervalSec
    ensures Measure(true, Some(d), lastReadTime, now, reading) == Outcome(Some(d), Some(d), lastReadTime)
  {
  }

  /** Outside the throttle, a ping accepts exactly the numbers in [1, 500]. */
  lemma PingValidates(lastDistanceCm: Option<real>, lastReadTime: real, now: real, reading: Reading)
    requires !(now - lastReadTime < MinReadIntervalSec && lastDistanceCm.Some?)
    ensures var o := Measure(true, lastDistanceCm, lastReadTime, now, reading);
      && o.lastReadTime == now
      && (o.result.Some? <==> reading.Number? && MinCm <= reading.value <= MaxCm)
      && (o.result.Some? ==> o.result.value == reading.value)
  {
  }

  /** The sensor module's globals: the injected car and the cache. */
  class Sensor {
    var hasCar: bool
    var lastDistanceCm: Option<real>
    var lastReadTime: real

    ghost predicate Valid()
      reads this
    {
      InRange(lastDistanceCm)
    }

    constructor()
      ensures Valid()
      ensures !hasCar && lastDistanceCm.None? && lastReadTime == 0.0
    {
      hasCar := false;
      lastDistanceCm := None;
      lastReadTime := 0.0;
    }

    /** `set_car`: installs (or removes) the car; the cache is kept. */
    method SetCar(present: bool)
      requires Valid()
      modifies this
      ensures Valid()
      ensures hasCar == present
      ensures lastDistanceCm == old(lastDistanceCm) && lastReadTime == old(lastReadTime)
    {
      hasCar := present;
    }

    /** `get_distance_cm`: the reading is consulted only when the source
        pings the hardware. */
    method GetDistanceCm(now: real, reading: Reading) returns (r: Option<real>)
      requires Valid()
      modifies this
      ensures Valid()
      ensures hasCar == old(hasCar)
      ensures Outcome(r, lastDistanceCm, lastReadTime) ==
        Measure(old(hasCar), old(lastDistanceCm), old(lastReadTime), now, reading)
      ensures InRange(r)
    {
      if hasCar && now - lastReadTime < MinReadIntervalSec && lastDistanceCm.Some? {
        return lastDistanceCm;
      }
      if !hasCar {
        lastDistanceCm := None;
        return None;
      }
      if reading.Raised? {
        lastDistanceCm := None;
        lastReadTime := now;
        return None;
      }
      lastReadTime := now;
      if reading.NoneValue? || reading.NonNumeric? {
        lastDistanceCm := None;
        return None;
      }
      var d := reading.value;
      if d < 0.0 {
        lastDistanceCm := None;
        return None;
      }
      if d < MinCm || d > MaxCm {
        lastDistanceCm := None;
        return None;
      }
      lastDistanceCm := Some(d);
      return lastDistanceCm;
    }

    /** `get_last_distance_cm`: the cache, with no hardware read. */
    method GetLastDistanceCm() returns (r: Option<real>)
      requires Valid()
      ensures r == lastDistanceCm && InRange(r)
    {
      r := lastDistanceCm;
    }
  }
}
