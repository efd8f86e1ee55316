/** The search arc: alternate full-left and full-right steering at low speed
    so the car scans for the cat (SEARCH and LOST_SEARCH states). */
module Search {
  import opened Base
  import opened Loader
  import opened Limits

  /** Seconds spent on each side before the direction flips. */
  const ArcDurationSec: real := 2.0
  /** Low forward speed while searching (0-100). */
  const SearchSpeed: int := 20

  /** The `max_steer` of both search functions: 30 without calibration. */
  function MaxSearchSteer(calib: Option<Calibration>): real
  {
    if calib.None? then 30.0 else MaxSteerAngleDeg(calib.value)
  }

  /** The arc index `int(cycle_sec / ARC_DURATION_SEC)`; even arcs steer left.
      From time zero on, arc k covers [2k, 2k + 2); before it, (2k - 2, 2k]. */
  function ArcIndex(cycleSec: real): (k: int)
    ensures 0.0 <= cycleSec ==> ArcDurationSec * k as real <= cycleSec < ArcDurationSec * k as real + ArcDurationSec
    ensures cycleSec < 0.0 ==> ArcDurationSec * k as real - ArcDurationSec < cycleSec <= ArcDurationSec * k as real
  {
    Trunc(cycleSec / ArcDurationSec)
  }

  /** `compute_search_tick`: (steer_deg, speed). */
  function SearchTick(cycleSec: real, calib: Option<Calibration>): (r: (real, int))
    ensures r.1 == SearchSpeed
    ensures var m := SteerBound(calib);
      0.0 <= m ==> r.0 == (if ArcIndex(cycleSec) % 2 == 0 then m else -m)
    ensures var m := SteerBound(calib);
      m < 0.0 ==> r.0 == -m
    ensures var m := SteerBound(calib);
      0.0 <= m ==> -m <= r.0 <= m
  {
    var direction := if ArcIndex(cycleSec) % 2 == 0 then 1.0 else -1.0;
    var steer := ClampSteer(direction * MaxSearchSteer(calib), calib);
    ClampSpeedInteger(SearchSpeed, DefaultMaxSpeed);
    (steer, ClampSpeed(SearchSpeed as real, DefaultMaxSpeed))
  }

  /** Two seconds later, from time zero on, the arc index is one more. */
  lemma {:induction false} ArcIndexStep(cycleSec: real)
    requires 0.0 <= cycleSec
    ensures ArcIndex(cycleSec + ArcDurationSec) == ArcIndex(cycleSec) + 1
  {
    var q := cycleSec / ArcDurationSec;
    assert (cycleSec + ArcDurationSec) / ArcDurationSec == q + 1.0;
    assert (q + 1.0).Floor == q.Floor + 1;
  }

  /** From time zero on, the steering flips sign every two seconds. */
  lemma {:induction false} SearchTickFlips(cycleSec: real, calib: Option<Calibration>)
    requires 0.0 <= cycleSec
    requires 0.0 <= SteerBound(calib)
    ensures SearchTick(cycleSec + ArcDurationSec, calib).0 == -SearchTick(cycleSec, calib).0
  {
    ArcIndexStep(cycleSec);
  }

  /** From time zero on, the search repeats every four seconds. */
  lemma {:induction false} SearchTickPeriodic(cycleSec: real, calib: Option<Calibration>)
    requires 0.0 <= cycleSec
    ensures SearchTick(cycleSec + 2.0 * ArcDurationSec, calib) == SearchTick(cycleSec, calib)
  {
    ArcIndexStep(cycleSec);
    ArcIndexStep(cycleSec + ArcDurationSec);
    assert cycleSec + 2.0 * ArcDurationSec == cycleSec + ArcDurationSec + ArcDurationSec;
  }

  /** The first two seconds steer fully left (positive), the next two fully
      right (negative). */
  lemma FirstArcs(t: real, calib: Option<Calibration>)
    requires 0.0 <= SteerBound(calib)
    ensures 0.0 <= t < 2.0 ==> SearchTick(t, calib).0 == SteerBound(calib)
    ensures 2.0 <= t < 4.0 ==> SearchTick(t, calib).0 == -SteerBound(calib)
  {
    if 0.0 <= t < 2.0 {
      assert ArcIndex(t) == 0;
    }
    if 2.0 <= t < 4.0 {
      assert ArcIndex(t) == 1;
    }
  }

  /** `compute_full_circle_tick`: always the left limit at search speed. */
  function FullCircleTick(calib: Option<Calibration>): (r: (real, int))
    ensures r.1 == SearchSpeed
    ensures 0.0 <= SteerBound(calib) ==> r.0 == SteerBound(calib)
    ensures SteerBound(calib) < 0.0 ==> r.0 == -SteerBound(calib)
    ensures 0.0 <= r.0
  {
    ClampSpeedInteger(SearchSpeed, DefaultMaxSpeed);
    (ClampSteer(MaxSearchSteer(calib), calib), ClampSpeed(SearchSpeed as real, DefaultMaxSpeed))
  }

  /** The full circle starts like the first arc of the alternating search. */
  lemma FullCircleIsFirstArc(calib: Option<Calibration>)
    ensures 0.0 <= SteerBound(calib) ==> FullCircleTick(calib) == SearchTick(0.0, calib)
  {
    assert ArcIndex(0.0) == 0;
  }
}
