# cat_follow in Dafny

This project models the decision and arithmetic core of `cat_follow`, the
controller of a small camera car that follows a cat. It covers:

- the behaviour state machine: six states, eight events and a fixed
  transition table, with the target and bbox payloads it records;
- one pass of the main loop's body:
  - poll the pending commands;
  - every tenth tick, hand the latest frame to the detector;
  - read the tracker bbox;
  - drive the state machine and the car from it;
  - publish odometry;
- the motion laws:
  - go-to-XY heading control;
  - the alternating search arc and the full-circle search;
  - centring the cat in the frame;
  - steering and speed clamps;
  - the motion driver, whose hardware calls are recorded in a log;
- the dead-reckoning odometry stub;
- the two single-slot pending commands;
- the calibration lookups: piecewise-linear interpolation over a speed table
  and a bbox-area table, plus defaults for missing keys;
- the throttled, validating range sensor;
- the fixed, zeroed shared buffers and their copy-in / copy-out accessors.

It has one module per source file, plus `Base`. `Base` holds:

- an `Option` type;
- Python's `int()`, which truncates toward zero (`Trunc`);
- Python's float `% 360`, whose result takes the sign of the divisor
  (`PyMod360`);
- a `MathFns` value that carries `sqrt`, `atan2`, `cos` and `sin`, which the
  model does not define.

Parts that change state in place are classes whose methods are proved against
a specification function. The Python module globals become these classes:

| class | Python state |
|---|---|
| `StateMachine.Machine` | the state machine's fields |
| `MotionDriver.Driver` | the injected car and the calls it has received |
| `Odometry.Odometry` | `_x`, `_y`, `_heading` |
| `Commands.CommandQueue` | the two pending slots |
| `RangeSensor.Sensor` | the car flag and the reading cache |
| `Pool.MemoryPool` and `SharedState.Shared` | the buffers |
| `MainLoop.Controller` | the loop's counters and objects |

The pure parts are functions with lemmas:

- the control laws;
- the calibration lookups;
- `Step`, the transition function;
- `Tick`, one loop pass as a value.

Where the source's own parts disagree, the model follows the code:

- Odometry wraps headings into (-180, 180], because its test is `> 180`.
  Go-to-XY normalises into [-180, 180), because its test is `>= 180`.
  `Odometry.WrapHeadingSeam` shows that -180 becomes 180.
- Without calibration, `clamp_steer` allows plus or minus 30 degrees.
  `get_steer_limits` reports plus or minus 25, and so does the `compute_goto`
  docstring. `MotionDriver.SteerLimitsWiderClampUncalibrated` exhibits a
  28-degree command that the clamp lets through.
- `pool.py` declares no `frame_latest` buffer, but every frame accessor in
  `shared_state.py` uses one. The model's pool has a `frameLatest` buffer,
  zeroed and distinct like the others. As written, the source's tenth tick
  would call `copy_latest_to_detector_frame` against a pool without that
  buffer and stop with an `AttributeError`; the model instead copies the
  zeroed `frameLatest`.
- For `cycle_sec` in (-2, 2), `int()` truncates to arc 0. So with negative
  clock values the first left arc lasts four seconds. The periodicity lemmas
  are therefore stated from time zero on.

## Model

| member | source | states |
|---|---|---|
| Base.Trunc | cat_follow/motion/limits.py:15 | `int()` of a real truncates toward zero: within one below the value for non-negative inputs, within one above it for negative ones |
| Base.PyMod360 | cat_follow/motion/goto_xy.py:39 | Python's float `% 360` always lies in [0, 360) |
| Base.PyMod360Shift | cat_follow/odometry.py:24 | adding whole turns does not change `% 360` |
| Loader.DefaultsWhenMissing | cat_follow/calibration/loader.py:47-53 | missing keys give max steer 25, min turn radius 40 and target distance 15 |
| Loader.CmPerSec | cat_follow/calibration/loader.py:29-45 | an empty speed table gives at least 1 and at least `0.4 * speed`; otherwise the rate lies between two values of the table, so it never extrapolates |
| Loader.GetCmPerSec | cat_follow/calibration/loader.py:29-45 | the source's lookup loop returns exactly the clamp-or-interpolate value `CmPerSec` of the table sorted by speed key |
| Loader.CmPerSecFallback | cat_follow/calibration/loader.py:34-35 | an empty speed table gives `max(1.0, 0.4 * speed)`, so at least 1 and at least `0.4 * speed` |
| Loader.CmPerSecClamps | cat_follow/calibration/loader.py:36-40 | at or below the smallest key, the smallest key's value; at or above the largest key, the largest key's value |
| Loader.CmPerSecAtKey | cat_follow/calibration/loader.py:41-44 | a speed that is a key of the table maps to exactly that key's value |
| Loader.CmPerSecLerp | cat_follow/calibration/loader.py:41-44 | strictly between two adjacent keys, the result lies on the line through their two values |
| Loader.CmPerSecBetween | cat_follow/calibration/loader.py:41-44 | strictly between two adjacent keys, the result lies between their two values |
| Loader.SortedKeys | cat_follow/calibration/loader.py:36 | `sorted(keys)` holds every key once, in strictly increasing order |
| Loader.SpeedTable | cat_follow/calibration/loader.py:33-36 | the speed map as (key, value) pairs with strictly increasing keys |
| Loader.SpeedTableIndex | cat_follow/calibration/loader.py:36-44 | every key of the speed map has its place in the sorted table, paired with its own value |
| Loader.LerpBetween | cat_follow/calibration/loader.py:44 | interpolating at a point of a segment gives a value between the segment's end values, and the end value at the right end |
| Loader.InterpFrom | cat_follow/calibration/loader.py:69-74 | the scan from a segment on returns a value between the least and the greatest value of the table from that segment on |
| Loader.Interp | cat_follow/calibration/loader.py:65-74 | clamping then scanning returns a value between the least and the greatest value of the table |
| Loader.InterpSorted | cat_follow/calibration/loader.py:65-74 | on a sorted table: the first value at or below the first key, the last value at or above the last key, and inside the table the interpolation on the segment that holds the point |
| Loader.InterpLookup | cat_follow/calibration/loader.py:65-74 | the source's clamp-then-scan loop returns exactly the clamp-or-interpolate value `Interp` |
| Loader.InsertByAreaAdds | cat_follow/calibration/loader.py:64 | one insertion step of the sort adds exactly the inserted pair |
| Loader.InsertByAreaSorted | cat_follow/calibration/loader.py:64 | one insertion step keeps the table sorted by area |
| Loader.SortByArea | cat_follow/calibration/loader.py:64 | `sorted(table, key=area)` is ordered by area and is a permutation of the table |
| Loader.GetDistanceCmFromBboxArea | cat_follow/calibration/loader.py:55-74 | the source's lookup returns exactly `DistanceCmFromBboxArea` |
| Loader.DistanceCmFromBboxArea | cat_follow/calibration/loader.py:55-74 | there is an estimate exactly when the area table is present and non-empty, and it lies between two distances of the table |
| Loader.DistanceShortTables | cat_follow/calibration/loader.py:58-63 | a missing or empty area table gives None; a one-pair table gives that pair's distance for every area |
| Loader.DistanceSorted | cat_follow/calibration/loader.py:64-74 | with two pairs or more, the table is sorted by area and kept whole; outside its range the first or last distance is returned; inside it, the interpolation between the neighbours that enclose the area |
| Limits.SteerBound | cat_follow/motion/limits.py:7-9 | the clamp bound is 30 without calibration, the calibrated `max_steer_angle_deg` when present, and 25 when the key is missing (cat_follow/calibration/loader.py:49) |
| Limits.ClampSteer | cat_follow/motion/limits.py:5-10 | the result lies in [-m, m] for a bound m of 30 without calibration or the calibrated maximum otherwise; it is the identity inside that range and saturates outside it; a negative m gives -m |
| Limits.ClampSpeed | cat_follow/motion/limits.py:13-15 | the result lies in [0, max_speed]; it is `int(speed)` when that is in range, and 0 or max_speed when it is not |
| Limits.ClampSteerIdempotent | cat_follow/motion/limits.py:7-10 | clamping twice is clamping once |
| Limits.ClampSteerMonotone | cat_follow/motion/limits.py:7-10 | the steering clamp preserves order |
| Limits.ClampSteerSign | cat_follow/motion/limits.py:7-10 | with a positive bound, the clamp keeps the sign of the angle, and zero stays zero |
| Limits.TruncMonotone | cat_follow/motion/limits.py:15 | `int()` on reals preserves order |
| Limits.ClampSpeedMonotone | cat_follow/motion/limits.py:15 | the speed clamp preserves order |
| Limits.ClampSpeedInteger | cat_follow/motion/limits.py:15 | an integer speed in [0, max] is kept; a negative one gives 0; one above max gives max |
| GotoXY.NormalizeAngle | cat_follow/motion/goto_xy.py:37-42 | the normalised angle lies in [-180, 180) |
| GotoXY.NormalizeAngleTurns | cat_follow/motion/goto_xy.py:39-41 | the normalised angle differs from the input by a whole number of turns |
| GotoXY.NormalizeAnglePeriodic | cat_follow/motion/goto_xy.py:39-41 | adding whole turns to the input does not change the normalised angle |
| GotoXY.NormalizeAngleIdentity | cat_follow/motion/goto_xy.py:37-42 | normalising is the identity on [-180, 180) |
| GotoXY.NormalizeAngleUnique | cat_follow/motion/goto_xy.py:37-42 | the normalised angle is the only angle in [-180, 180) that differs from the input by whole turns |
| GotoXY.NormalizeAngleIdempotent | cat_follow/motion/goto_xy.py:37-42 | normalising twice is normalising once |
| GotoXY.HeadingError | cat_follow/motion/goto_xy.py:45-47 | the signed heading error lies in [-180, 180) |
| GotoXY.HeadingErrorTurns | cat_follow/motion/goto_xy.py:45-47 | turning the current heading by the error reaches the desired heading up to whole turns |
| GotoXY.HeadingErrorAcrossSeam | cat_follow/motion/goto_xy.py:45-47 | across the seam the short way round is taken: (-170, 170) gives 20 and (170, -170) gives -20 |
| GotoXY.Distance | cat_follow/motion/goto_xy.py:50-52 | the distance is non-negative and its square is dx² + dy² |
| GotoXY.DistanceToSelf | cat_follow/motion/goto_xy.py:50-52 | the distance from a point to itself is zero |
| GotoXY.BelowThresholdSquared | cat_follow/motion/goto_xy.py:87 | for a non-negative distance d, `d < 10` exactly when `d² < 100` |
| GotoXY.ArrivalBySquares | cat_follow/motion/goto_xy.py:85-87 | the arrival test `sqrt(dx² + dy²) < 10` is the test `dx² + dy² < 100` |
| GotoXY.ComputeGoto | cat_follow/motion/goto_xy.py:55-105 | the car has arrived exactly when within 10 cm, and then the command is (0.0, 0, True); otherwise the steer is `clamp_steer(1.5 * error)` and the speed is 20 when the absolute error exceeds 45 degrees, else 40 |
| GotoXY.GotoSteerBounded | cat_follow/motion/goto_xy.py:93-95 | the commanded steer stays within the clamp bound (30 degrees without calibration) |
| GotoXY.GotoSteerSign | cat_follow/motion/goto_xy.py:93-95 | while not arrived, the steer has the sign of the heading error; positive means left |
| Search.ArcIndex | cat_follow/motion/search.py:27-29 | `int(t / 2)`: for t >= 0 the arc k with 2k <= t < 2k + 2; for t < 0 the k with 2k - 2 < t <= 2k |
| Search.SearchTick | cat_follow/motion/search.py:13-34 | the speed is always 20; the steer is +m on even arcs `int(t / 2)` and -m on odd ones, within the clamp bound m |
| Search.ArcIndexStep | cat_follow/motion/search.py:27-29 | from time zero on, two seconds later the arc index is one more |
| Search.SearchTickFlips | cat_follow/motion/search.py:27-32 | from time zero on, the steer flips sign every two seconds |
| Search.SearchTickPeriodic | cat_follow/motion/search.py:27-34 | from time zero on, the command repeats every four seconds |
| Search.FirstArcs | cat_follow/motion/search.py:27-31 | for every t in [0, 2) the steer is +m (left) and for every t in [2, 4) it is -m (right), m the clamp bound |
| Search.FullCircleTick | cat_follow/motion/search.py:37-48 | the full-circle command is the left steering limit at speed 20 |
| Search.FullCircleIsFirstArc | cat_follow/motion/search.py:37-48 | the full-circle command equals the first arc of the alternating search |
| MotionDriver.MotorSpeed | cat_follow/motion/driver.py:24 | the speed handed to the car lies in [0, 100] and is `int(speed)` when that is in range |
| MotionDriver.CarCallOf | cat_follow/motion/driver.py:17-41 | forward and backward calls become the car's forward and backward with a speed in [0, 100] |
| MotionDriver.Sends | cat_follow/motion/driver.py:17-41 | without a car, driver calls reach nothing; with one, each call reaches it once, in order |
| MotionDriver.SendsAppend | cat_follow/motion/driver.py:17-41 | the calls of two runs reach the car as the calls of the first followed by those of the second |
| MotionDriver.Driver.constructor | cat_follow/motion/driver.py:8 | initially no car is injected and nothing has been sent |
| MotionDriver.Driver.SetCar | cat_follow/motion/driver.py:11-14 | every later command goes to the new car; nothing is sent |
| MotionDriver.Driver.Stop | cat_follow/motion/driver.py:17-20 | the car, if any, receives `stop()` |
| MotionDriver.Driver.Forward | cat_follow/motion/driver.py:23-27 | the car, if any, receives `forward` with the clamped speed |
| MotionDriver.Driver.Backward | cat_follow/motion/driver.py:30-34 | the car, if any, receives `backward` with the clamped speed |
| MotionDriver.Driver.SetSteer | cat_follow/motion/driver.py:37-41 | the car, if any, receives `set_dir_servo_angle` with the angle unchanged |
| MotionDriver.GetSteerLimits | cat_follow/motion/driver.py:44-49 | the limits are symmetric: 25 without calibration, the calibrated maximum otherwise |
| MotionDriver.SteerLimitsMatchClamp | cat_follow/motion/driver.py:48-49 | with a calibration, every clamped steer lies within the driver's limits |
| MotionDriver.SteerLimitsWiderClampUncalibrated | cat_follow/motion/driver.py:46-47 | without a calibration, the clamp passes 28 degrees, beyond the driver's stated 25 |
| CenterCat.LateralSteer | cat_follow/motion/center_cat.py:25-35 | the steer lies within the clamp bound and equals `0.08 * offset` whenever that is within it |
| CenterCat.DistanceEstimate | cat_follow/motion/center_cat.py:39-42 | there is an estimate exactly when a calibration with a non-empty area table is given, and it lies between two distances of that table |
| CenterCat.SpeedDecision | cat_follow/motion/center_cat.py:39-57 | without an estimate: forward exactly when the area is under a tenth of the image, never backward; with one: forward exactly beyond target + 5, backward exactly below target - 5 |
| CenterCat.CenterCatPlan | cat_follow/motion/center_cat.py:32-57 | exactly two calls: the clamped lateral steer first, then one of forward, backward or stop |
| CenterCat.CentredCatSteersStraight | cat_follow/motion/center_cat.py:26-36 | a horizontally centred cat gives a steer of 0 |
| CenterCat.SteerFollowsOffset | cat_follow/motion/center_cat.py:32-35 | the steer has the sign of the horizontal offset: positive when the bbox centre lies right of the image centre, negative when it lies left |
| CenterCat.DeadBandStops | cat_follow/motion/center_cat.py:52-57 | with an estimate, the car stops exactly within 5 cm of the target distance |
| CenterCat.DefaultApproachCarSpeeds | cat_follow/motion/center_cat.py:53-55 | with the default approach speed, the car gets a steer, then forward 40, backward 20 or stop |
| CenterCat.CenterCatControl | cat_follow/motion/center_cat.py:12-57 | the driver calls are exactly `CenterCatPlan`, in order |
| Odometry.WrapHeading | cat_follow/odometry.py:24-26 | the wrapped heading lies in (-180, 180] |
| Odometry.WrapHeadingIdentity | cat_follow/odometry.py:24-26 | the wrap is the identity on (-180, 180] |
| Odometry.WrapHeadingTurns | cat_follow/odometry.py:24-26 | the wrap only removes whole turns |
| Odometry.WrapHeadingSeam | cat_follow/odometry.py:24-26 | -180 is reported as 180, and 180 stays 180 |
| Odometry.Odometry.constructor | cat_follow/odometry.py:7 | the module starts at the origin with heading 0 |
| Odometry.Odometry.Reset | cat_follow/odometry.py:10-12 | position and heading become exactly the given values |
| Odometry.Odometry.Update | cat_follow/odometry.py:15-26 | the position moves by 0.5 * speed * dt along the pre-update heading; the heading turns by steer * dt * 0.5 and is wrapped into (-180, 180]; zero speed or zero time leaves the position unchanged, and zero time leaves an in-range heading unchanged |
| Odometry.Odometry.GetPosition | cat_follow/odometry.py:29-30 | returns (x, y) and changes nothing |
| Odometry.Odometry.GetHeadingDeg | cat_follow/odometry.py:33-34 | returns the heading and changes nothing |
| Commands.Fired | cat_follow/commands.py:42-58 | the location callback runs first exactly when a location was pending and a callback was given, with the pending values; the stop callback runs last exactly when a stop was pending and a callback was given; each runs at most once |
| Commands.CommandQueue.constructor | cat_follow/commands.py:13-14 | nothing is pending at start |
| Commands.CommandQueue.SetCatLocation | cat_follow/commands.py:17-21 | the location slot holds (x, y), overwriting any earlier one; the stop flag is unchanged |
| Commands.CommandQueue.SetStopCommand | cat_follow/commands.py:24-28 | the stop flag is raised, so raising it twice is raising it once; the location slot is unchanged |
| Commands.CommandQueue.PollCommands | cat_follow/commands.py:31-58 | both slots are empty afterwards, even when a callback is missing, and the callbacks fired are exactly `Fired` of the slots before |
| Commands.NothingPendingFiresNothing | cat_follow/commands.py:42-58 | a poll with nothing pending fires nothing |
| Commands.BothPendingOrder | cat_follow/commands.py:55-58 | with both pending, the location callback fires before the stop callback |
| StateMachine.TransitionsTable | cat_follow/state_machine.py:31-50 | the table accepts exactly the listed 18 (state, event) pairs |
| StateMachine.TransitionsByEvent | cat_follow/state_machine.py:31-50 | every accepted pair leads to the state its event names: a location to GOTO_TARGET, arrival and timeout to SEARCH, a sighting to APPROACH, a loss to LOST_SEARCH, 15 cm to TRACK, stop and a finished search cycle to IDLE |
| StateMachine.StopFromEveryState | cat_follow/state_machine.py:31-50 | STOP_COMMAND leads to IDLE from each of the six states |
| StateMachine.CatFoundApproaches | cat_follow/state_machine.py:31-50 | CAT_FOUND leads to APPROACH wherever it is accepted |
| StateMachine.Prefix | cat_follow/state_machine.py:83-85 | `payload[:n]` keeps the first min(n, len) components |
| StateMachine.Step | cat_follow/state_machine.py:73-86 | a pair not in the table changes nothing; a pair in it moves to the table's state; only CAT_LOCATION_RECEIVED can change the target and only CAT_FOUND the bbox |
| StateMachine.StopKeepsPayloads | cat_follow/state_machine.py:78-86 | STOP_COMMAND goes to IDLE and keeps the target and the bbox |
| StateMachine.LocationFromIdle | cat_follow/state_machine.py:82-83 | in IDLE, a location moves to GOTO_TARGET with the target set to its first two components |
| StateMachine.CatFoundRecordsBbox | cat_follow/state_machine.py:84-85 | an accepted CAT_FOUND records the first four payload components, or clears the bbox when fewer are given |
| StateMachine.RejectedEventIgnoresPayload | cat_follow/state_machine.py:78-80 | an event outside the table ignores its payload and changes nothing |
| StateMachine.TrackReachable | cat_follow/state_machine.py:31-50 | IDLE reaches TRACK through a location, the arrival, a sighting and the 15 cm distance |
| StateMachine.Machine.constructor | cat_follow/state_machine.py:56-59 | a new machine is IDLE with neither target nor bbox |
| StateMachine.Machine.Dispatch | cat_follow/state_machine.py:73-86 | the machine's new fields are exactly `Step` of the old ones, and the returned state is the new state |
| StateMachine.Machine.ResetToIdle | cat_follow/state_machine.py:88-92 | IDLE, with target and bbox cleared, from any state |
| RangeSensor.Measure | cat_follow/range_sensor.py:34-63 | the result is the new cache; an in-range cache stays in range; a new value is the reading itself, taken now; the read time is unchanged or now |
| RangeSensor.NoCarNoDistance | cat_follow/range_sensor.py:43-45 | with no car the result is None and the cache is cleared |
| RangeSensor.ThrottleReturnsCache | cat_follow/range_sensor.py:41-42 | within 60 ms of the last read, a cached value is returned and nothing changes |
| RangeSensor.PingValidates | cat_follow/range_sensor.py:46-63 | a hardware read records now as the read time and accepts exactly the numbers in [1, 500] |
| RangeSensor.Sensor.constructor | cat_follow/range_sensor.py:16-18 | no car, no cached distance, read time 0 |
| RangeSensor.Sensor.SetCar | cat_follow/range_sensor.py:28-31 | installs the car and keeps the cache |
| RangeSensor.Sensor.GetDistanceCm | cat_follow/range_sensor.py:34-63 | result, cache and read time are exactly `Measure` of the old state, and the result is None or within [1, 500] |
| RangeSensor.Sensor.GetLastDistanceCm | cat_follow/range_sensor.py:66-68 | returns the cache and changes nothing |
| Pool.FrameSize | cat_follow/memory/pool.py:15-19 | a frame is 480 x 640 x 3 = 921 600 bytes |
| Pool.MemoryPool.Allocate | cat_follow/memory/pool.py:60-76 | fresh, zeroed buffers of the fixed lengths, no two of them shared |
| SharedState.BboxOf | cat_follow/memory/shared_state.py:90-93 | the snapshot holds the five buffer values in order |
| SharedState.OdometryOf | cat_follow/memory/shared_state.py:128-130 | the snapshot holds the three buffer values in order |
| SharedState.Shared.constructor | cat_follow/memory/shared_state.py:27-28 | wraps the pool and allocates nothing |
| SharedState.Shared.SetFrameLatest | cat_follow/memory/shared_state.py:38-45 | the latest-frame buffer becomes a copy of the source frame; nothing else is written |
| SharedState.Shared.GetFrameLatest | cat_follow/memory/shared_state.py:47-54 | the caller's buffer becomes a copy of the latest frame; the pool is not written |
| SharedState.Shared.CopyLatestToDetectorFrame | cat_follow/memory/shared_state.py:56-63 | the detector frame becomes equal to the latest frame, which is unchanged |
| SharedState.Shared.GetFrameForDetector | cat_follow/memory/shared_state.py:65-68 | the caller's buffer becomes a copy of the detector frame; the pool is not written |
| SharedState.Shared.SetBboxTracker | cat_follow/memory/shared_state.py:72-82 | the tracker buffer holds exactly the five values, so reading it back gives them; no other buffer is written |
| SharedState.Shared.GetBboxTracker | cat_follow/memory/shared_state.py:84-93 | returns the five values of the tracker buffer |
| SharedState.Shared.SetBboxDetector | cat_follow/memory/shared_state.py:97-107 | the detector buffer holds exactly the five values, so reading it back gives them; no other buffer is written |
| SharedState.Shared.GetBboxDetector | cat_follow/memory/shared_state.py:109-114 | returns the five values of the detector buffer |
| SharedState.Shared.SetOdometry | cat_follow/memory/shared_state.py:118-124 | the odometry buffer holds exactly (x, y, heading), so reading it back gives them |
| SharedState.Shared.GetOdometry | cat_follow/memory/shared_state.py:126-130 | returns the three values of the odometry buffer |
| MainLoop.ApplyCallbacks | cat_follow/main_loop.py:104-111 | the callbacks of one poll only ever stop the car, at most once per callback; stop callbacks alone keep the target, location callbacks alone make no car call |
| MainLoop.Decide | cat_follow/main_loop.py:133-161 | the state branch never changes the target, records a bbox only when a valid one is seen, resets the lost counter or raises it by one, resets it on a valid bbox outside IDLE and GOTO_TARGET, and makes no call, a single stop, or a steer followed by a speed call |
| MainLoop.Tick | cat_follow/main_loop.py:117-166 | one pass raises the frame count by one, keeps the target unless a location was pending, and leaves the lost counter reset, unchanged or one higher |
| MainLoop.IdleTickStops | cat_follow/main_loop.py:135-136 | an IDLE tick with nothing pending stops the car and stays IDLE |
| MainLoop.GotoTickSearches | cat_follow/main_loop.py:138-140 | a GOTO_TARGET tick dispatches AT_TARGET and moves to SEARCH |
| MainLoop.SearchTickFinds | cat_follow/main_loop.py:142-145 | while searching, a valid bbox records (x, y, w, h), moves to APPROACH and resets the lost counter; an invalid one changes nothing |
| MainLoop.TrackingTickCentres | cat_follow/main_loop.py:147-156 | while approaching or tracking, a valid bbox resets the lost counter, issues the centring calls with the calibrated target distance, and moves APPROACH on to TRACK |
| MainLoop.LostCounting | cat_follow/main_loop.py:157-161 | without a valid bbox the lost counter rises by one; on reaching 15, CAT_LOST is dispatched and the car is stopped |
| MainLoop.PendingStopHalts | cat_follow/main_loop.py:108-136 | a pending stop ends the tick in IDLE, keeps target and bbox, and stops the car twice: once in `on_stop` and once in the IDLE branch |
| MainLoop.LocationTickFromIdle | cat_follow/main_loop.py:104-140 | a location received in IDLE sets the target and, in the same tick, passes GOTO_TARGET on to SEARCH |
| MainLoop.ApplyCallbacksStep | cat_follow/main_loop.py:104-111 | each further callback dispatches its event: a location dispatches CAT_LOCATION_RECEIVED; a stop dispatches STOP_COMMAND and then stops the car |
| MainLoop.Controller.constructor | cat_follow/main_loop.py:42-100 | counters at zero, an IDLE machine, the odometry reset to the origin, a fresh pool whose frame, bbox and odometry buffers are all zero, no car, nothing pending |
| MainLoop.Controller.OnCatLocation | cat_follow/main_loop.py:104-106 | dispatches CAT_LOCATION_RECEIVED with (x, y) |
| MainLoop.Controller.OnStop | cat_follow/main_loop.py:108-111 | dispatches STOP_COMMAND, then stops the car |
| MainLoop.Controller.PollAndHandle | cat_follow/main_loop.py:120 | clears both slots, and runs the fired callbacks in order, with the effect `ApplyCallbacks` |
| MainLoop.Controller.React | cat_follow/main_loop.py:127-161 | the `if state == ...` chain changes machine, lost counter and car exactly as `Decide` says |
| MainLoop.Controller.MaybeCopyFrame | cat_follow/main_loop.py:123-125 | the detector frame is refreshed exactly when the frame count is a multiple of 10 |
| MainLoop.Controller.PublishOdometry | cat_follow/main_loop.py:163-166 | the shared odometry buffer holds the odometry's (x, y, heading) |
| MainLoop.Controller.TickOnce | cat_follow/main_loop.py:117-166 | one loop pass: the machine, counters and car calls are exactly `Tick`; the slots are cleared; the detector copy happens exactly on multiples of 10; odometry is published |

## Left out

- Threads, locks and `time.sleep`: the model is sequential. The lock in
  `commands.py` and the per-buffer locks in `shared_state.py` add nothing to
  sequential behaviour.
- Loading calibration JSON files: a `Calibration` value holds the parsed
  tables. Speed keys are already integers, and a missing or non-list
  `area_to_cm` is `None`.
- `read_cat_location_from_file` in `commands.py`: file I/O.
- Main-loop start-up of threads and the web UI, FPS reporting, the tick sleep
  and KeyboardInterrupt shutdown: I/O and timing. The model covers one pass of
  the loop body.
- `print` logging in the main loop and its callbacks.
- Floating-point rounding: every float is a real.
  - NaN and infinities are not modelled.
  - Python `bool` readings from the range sensor count as numbers, as
    `isinstance(d, (int, float))` accepts them.
- `math.sqrt`, `math.atan2`, `math.cos` and `math.sin`: passed in as a
  `MathFns` value. Only `sqrt` has a stated property (non-negative root, root
  of 0 is 0).
- GotoXY.BearingDeg: states nothing beyond calling the supplied `atan2`, because
  atan2 has no definition here.
- Odometry.Odometry.Update: the position change is stated with `0.5 * speed * dt`, where the
  source writes `speed * 0.01 * ... * 50`. The two are equal on reals, but
  float rounding is not modelled.
- Hardware objects: the car of the motion driver is a `CarId` whose received
  calls are logged. The range sensor's car is a flag plus the `Reading` it
  would return now, and the monotonic clock is the `now` parameter.
- The `dead_zone_px` parameter of `center_cat_control`: the source never uses it.
- Pool.MemoryPool.Allocate: frames are flat byte arrays of 921 600 entries
  (`frame_ring` holds 3 of them back to back), not H x W x C arrays. The
  buffers are `array<real>` / `array<byte>` without numpy's dtype conversions.
- Loader.SortByArea: sortedness and permutation are proved. Each pair is
  inserted after every earlier pair with an area no larger, so equal areas
  keep their input order, as Python's stable sort does; this is not stated
  as a lemma.
- Commands.CommandQueue.PollCommands: the callbacks are returned as a
  sequence in firing order. `MainLoop.Controller.PollAndHandle` then runs them,
  as the source runs them outside the lock.
- Loader.GetCmPerSec: the source indexes the dict by each sorted key inside
  its loop; the model first pairs the sorted keys with their values and runs
  the same clamp-then-scan loop (`InterpLookup`) over the pairs.
- Odometry.Odometry.Reset: the source's default arguments `x=0, y=0,
  heading_deg=0` are not modelled; the caller passes all three, as the main
  loop does with `reset(0, 0, 0)`.
- Odometry updates in the main loop: the loop only reads odometry and
  publishes it, as the source does.
