/** Small helpers shared by every module of the model: an Option type,
    Python's `int()` on a number and Python's float `%` by 360, and the
    transcendental functions the source takes from `math`. */
module Base {

  datatype Option<+T> = None | Some(value: T)

  /** Python `int(v)`: truncation toward zero. */
  function Trunc(v: real): (r: int)
    ensures 0.0 <= v ==> r as real <= v < r as real + 1.0
    ensures v < 0.0 ==> r as real - 1.0 < v <= r as real
  {
    if 0.0 <= v then v.Floor else -((-v).Floor)
  }

  /** Python `v % 360` on floats: the result has the sign of the divisor. */
  function PyMod360(v: real): (r: real)
    ensures 0.0 <= r < 360.0
  {
    v - 360.0 * (v / 360.0).Floor as real
  }

  lemma {:induction false} PyMod360Shift(v: real, k: int)
    ensures PyMod360(v + 360.0 * k as real) == PyMod360(v)
  {
    var q := v / 360.0;
    assert (v + 360.0 * k as real) / 360.0 == q + k as real;
    assert (q + k as real).Floor == q.Floor + k;
  }

  /** `math.sqrt`, `math.degrees(math.atan2(dy, dx))`, and `math.cos` / `math.sin`
      of `math.radians(d)`. They have no definition here; callers pass them in. */
  datatype MathFns = MathFns(
    sqrt: real -> real,
    atan2Deg: (real, real) -> real,
    cosDeg: real -> real,
    sinDeg: real -> real)
  {
    /** What the model relies on about `sqrt`: it is the non-negative root,
        and the root of zero is zero. */
    ghost predicate SqrtIsRoot()
    {
      && (forall v :: 0.0 <= v ==> 0.0 <= sqrt(v) && sqrt(v) * sqrt(v) == v)
      && sqrt(0.0) == 0.0
    }
  }
}
