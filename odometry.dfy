/** Odometry: the dead-reckoned position (cm) and heading (degrees) of the car,
    held as module state and advanced from time, speed and steering. */
module Odometry {
  import opened Base

  /** The heading wrap after each update: Python `% 360`, then one step down
      when above 180. */
  function WrapHeading(h: real): (r: real)
    ensures -180.0 < r <= 180.0
  {
    var m := PyMod360(h);
    if m > 180.0 then m - 360.0 else m
  }

  /** On (-180, 180] the wrap is the identity. */
  lemma {:induction false} WrapHeadingIdentity(h: real)
    requires -180.0 < h <= 180.0
    ensures WrapHeading(h) == h
  {
    if 0.0 <= h {
      assert (h / 360.0).Floor == 0;
    } else {
      assert (h / 360.0).Floor == -1;
    }
  }

  /** The wrap only removes whole turns. */
  lemma {:induction false} WrapHeadingTurns(h: real) returns (k: int)
    ensures WrapHeading(h) == h + 360.0 * k as real
  {
    k := -(h / 360.0).Floor;
    if PyMod360(h) > 180.0 {
      k := k - 1;
    }
  }

  /** -180 is reported as 180: the wrap keeps the upper end of the range. */
  lemma WrapHeadingSeam()
    ensures WrapHeading(-180.0) == 180.0
    ensures WrapHeading(180.0) == 180.0
  {
    assert (-180.0 / 360.0).Floor == -1;
    assert (180.0 / 360.0).Floor == 0;
  }

  /** The position and heading kept by the odometry module. */
  class Odometry {
    var x: real
    var y: real
    var headingDeg: real

    /** The module starts at the origin facing 0 degrees. */
    constructor()
      ensures x == 0.0 && y == 0.0 && headingDeg == 0.0
    {
      x, y, headingDeg := 0.0, 0.0, 0.0;
    }

    /** `reset`: position and heading become exactly the given values. */
    method Reset(x0: real, y0: real, heading0: real)
      modifies this
      ensures x == x0 && y == y0 && headingDeg == heading0
    {
      x, y, headingDeg := x0, y0, heading0;
    }

    /** `update`: move along the pre-update heading, then turn by
        `steer * dt * 0.5` and wrap. */
    method Update(math: MathFns, dtSec: real, speed: real, steerDeg: real)
      modifies this
      ensures x == old(x) + 0.5 * speed * dtSec * math.cosDeg(old(headingDeg))
      ensures y == old(y) + 0.5 * speed * dtSec * math.sinDeg(old(headingDeg))
      ensures headingDeg == WrapHeading(old(headingDeg) + steerDeg * dtSec * 0.5)
      ensures -180.0 < headingDeg <= 180.0
      ensures speed == 0.0 || dtSec == 0.0 ==> x == old(x) && y == old(y)
      ensures dtSec == 0.0 && -180.0 < old(headingDeg) <= 180.0 ==> headingDeg == old(headingDeg)
    {
      if dtSec == 0.0 && -180.0 < headingDeg <= 180.0 {
        WrapHeadingIdentity(headingDeg);
      }
      var c := math.cosDeg(headingDeg);
      var s := math.sinDeg(headingDeg);
      x := x + speed * 0.01 * c * dtSec * 50.0;
      y := y + speed * 0.01 * s * dtSec * 50.0;
      headingDeg := headingDeg + steerDeg * dtSec * 0.5;
      headingDeg := PyMod360(headingDeg);
      if headingDeg > 180.0 {
        headingDeg := headingDeg - 360.0;
      }
    }

    /** `get_position`. */
    method GetPosition() returns (p: (real, real))
      ensures p == (x, y)
    {
      p := (x, y);
    }

    /** `get_heading_deg`. */
    method GetHeadingDeg() returns (h: real)
      ensures h == headingDeg
    {
      h := headingDeg;
    }
  }
}
