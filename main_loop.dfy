/** The main loop's per-tick work: poll commands, hand a frame to the detector
    every tenth tick, read the tracker bbox, drive the state machine and the
    car from it, and publish odometry. */
module MainLoop {
  import opened Base
  import opened Loader
  import opened StateMachine
  import opened Commands
  import opened MotionDriver
  import opened CenterCat
  import opened Odometry
  import opened Pool
  import opened SharedState

  const ImageWidth: int := 640
  const ImageHeight: int := 480
  /** Ticks without a valid bbox before the cat counts as lost. */
  const LostThreshold: int := 15
  /** The detector gets a fresh frame every this many ticks. */
  const DetectEveryK: int := 10

  /** A tracker bbox is current when its flag is positive. */
  predicate BboxValid(b: BboxTuple)
  {
    b.4 > 0.0
  }

  /** The effect of the callbacks fired by one poll: the state machine after
      them and the driver calls they make. The only car call a callback makes
      is a stop; only a location callback can change the target. */
  function ApplyCallbacks(snap: Snapshot, fired: seq<Callback>): (r: (Snapshot, seq<DriverCall>))
    ensures forall i :: 0 <= i < |r.1| ==> r.1[i] == Stop
    ensures |r.1| <= |fired|
    ensures (forall i :: 0 <= i < |fired| ==> fired[i].OnStop?) ==> r.0.targetXY == snap.targetXY
    ensures (forall i :: 0 <= i < |fired| ==> fired[i].OnCatLocation?) ==> r.1 == []
    decreases |fired|
  {
    if fired == [] then (snap, [])
    else
      var (s, calls) := ApplyCallbacks(snap, fired[..|fired| - 1]);
      match fired[|fired| - 1]
      case OnCatLocation(x, y) => (Step(s, CatLocationReceived, Some([x, y])), calls)
      case OnStop => (Step(s, StopCommand, None), calls + [Stop])
  }

  /** One more callback extends the effect of those before it. */
  lemma ApplyCallbacksStep(snap: Snapshot, fired: seq<Callback>, i: nat)
    requires i < |fired|
    ensures var prev := ApplyCallbacks(snap, fired[..i]);
      ApplyCallbacks(snap, fired[..i + 1]) ==
        match fired[i]
        case OnCatLocation(x, y) => (Step(prev.0, CatLocationReceived, Some([x, y])), prev.1)
        case OnStop => (Step(prev.0, StopCommand, None), prev.1 + [Stop])
  {
    assert fired[..i + 1][..i] == fired[..i];
  }

  /** The state-dependent part of a tick: the machine after it, the lost
      counter after it, and the driver calls it makes. It never changes the
      target, records a bbox only when a valid one is seen, resets or bumps
      the lost counter by one, and either makes no call, stops, or centres
      the cat with a steer and a speed call. */
  function Decide(snap: Snapshot, lostCount: int, b: BboxTuple, calib: Calibration)
    : (r: (Snapshot, int, seq<DriverCall>))
    ensures r.0.targetXY == snap.targetXY
    ensures !BboxValid(b) ==> r.0.lastBbox == snap.lastBbox
    ensures r.1 == 0 || r.1 == lostCount || r.1 == lostCount + 1
    ensures BboxValid(b) && snap.state != Idle && snap.state != GotoTarget ==> r.1 == 0
    ensures r.2 == [] || r.2 == [Stop] || (BboxValid(b) && |r.2| == 2 && r.2[0].SetSteer?)
  {
    match snap.state
    case Idle => (snap, lostCount, [Stop])
    case GotoTarget => (Step(snap, AtTarget, None), lostCount, [])
    case Search | LostSearch =>
      if BboxValid(b) then (Step(snap, CatFound, Some([b.0, b.1, b.2, b.3])), 0, [])
      else (snap, lostCount, [])
    case Approach | Track =>
      if BboxValid(b) then
        var plan := CenterCatPlan(Bbox(b.0, b.1, b.2, b.3), ImageWidth, ImageHeight, Some(calib),
                                  TargetDistanceCm(calib), DefaultApproachSpeed);
        var next := if snap.state == Approach then Step(snap, DistanceAt15cm, None) else snap;
        (next, 0, plan)
      else if lostCount + 1 >= LostThreshold then
        (Step(snap, CatLost, None), lostCount + 1, [Stop])
      else (snap, lostCount + 1, [])
  }

  /** The loop's own variables between ticks. */
  datatype LoopState = LoopState(snap: Snapshot, lostCount: int, frameCount: int)

  /** What one tick does to the loop's variables, and the driver calls it
      makes, given the pending commands and the tracker bbox. */
  function Tick(ls: LoopState, pendingLocation: Option<(real, real)>, pendingStop: bool,
                b: BboxTuple, calib: Calibration): (r: (LoopState, seq<DriverCall>))
    ensures r.0.frameCount == ls.frameCount + 1
    ensures pendingLocation.None? ==> r.0.snap.targetXY == ls.snap.targetXY
    ensures r.0.lostCount == 0 || r.0.lostCount == ls.lostCount || r.0.lostCount == ls.lostCount + 1
  {
    var fired := Fired(pendingLocation, pendingStop, true, true);
    assert pendingLocation.None? ==> forall i :: 0 <= i < |fired| ==> fired[i].OnStop?;
    var (s1, calls1) := ApplyCallbacks(ls.snap, fired);
    var (s2, lost, calls2) := Decide(s1, ls.lostCount, b, calib);
    (LoopState(s2, lost, ls.frameCount + 1), calls1 + calls2)
  }

  /** A tick is the callbacks' effect followed by the state-dependent part. */
  lemma TickComposes(ls: LoopState, pendingLocation: Option<(real, real)>, pendingStop: bool,
                     b: BboxTuple, calib: Calibration)
    ensures var applied := ApplyCallbacks(ls.snap, Fired(pendingLocation, pendingStop, true, true));
      var decided := Decide(applied.0, ls.lostCount, b, calib);
      Tick(ls, pendingLocation, pendingStop, b, calib) ==
        (LoopState(decided.0, decided.1, ls.frameCount + 1), applied.1 + decided.2)
  {
  }

  lemma LogAppend(log: seq<Sent>, a: seq<Sent>, b: seq<Sent>)
    ensures log + a + b == log + (a + b)
  {
  }

  /** The detector frame is refreshed on the ticks whose count is a multiple of ten. */
  predicate CopiesFrame(frameCount: int)
  {
    frameCount % DetectEveryK == 0
  }

  /** An IDLE tick with nothing pending stops the car and stays IDLE. */
  lemma IdleTickStops(ls: LoopState, b: BboxTuple, calib: Calibration)
    requires ls.snap.state == Idle
    ensures var (next, calls) := Tick(ls, None, false, b, calib);
      next.snap == ls.snap && next.lostCount == ls.lostCount && calls == [Stop]
  {
  }

  /** A GOTO_TARGET tick arrives at once: the machine moves to SEARCH. */
  lemma GotoTickSearches(ls: LoopState, b: BboxTuple, calib: Calibration)
    requires ls.snap.state == GotoTarget
    ensures var (next, calls) := Tick(ls, None, false, b, calib);
      next.snap == ls.snap.(state := Search) && calls == []
  {
  }

  /** A valid bbox while searching records it, approaches and resets the
      lost counter; an invalid one changes nothing. */
  lemma SearchTickFinds(ls: LoopState, b: BboxTuple, calib: Calibration)
    requires ls.snap.state == Search || ls.snap.state == LostSearch
    ensures var (next, calls) := Tick(ls, None, false, b, calib);
      && calls == []
      && (BboxValid(b) ==> next.snap == Snapshot(Approach, ls.snap.targetXY, Some([b.0, b.1, b.2, b.3]))
                           && next.lostCount == 0)
      && (!BboxValid(b) ==> next.snap == ls.snap && next.lostCount == ls.lostCount)
  {
    if BboxValid(b) {
      CatFoundRecordsBbox(ls.snap, [b.0, b.1, b.2, b.3]);
    }
  }

  /** A valid bbox while approaching or tracking centres the cat, resets the
      lost counter, and moves APPROACH on to TRACK. */
  lemma TrackingTickCentres(ls: LoopState, b: BboxTuple, calib: Calibration)
    requires ls.snap.state == Approach || ls.snap.state == Track
    requires BboxValid(b)
    ensures var (next, calls) := Tick(ls, None, false, b, calib);
      && next.snap == ls.snap.(state := Track)
      && next.lostCount == 0
      && calls == CenterCatPlan(Bbox(b.0, b.1, b.2, b.3), ImageWidth, ImageHeight, Some(calib),
                                TargetDistanceCm(calib), DefaultApproachSpeed)
  {
  }

  /** Without a valid bbox the lost counter climbs; the fifteenth miss in a
      row declares the cat lost and stops the car. */
  lemma LostCounting(ls: LoopState, b: BboxTuple, calib: Calibration)
    requires ls.snap.state == Approach || ls.snap.state == Track
    requires !BboxValid(b)
    ensures var (next, calls) := Tick(ls, None, false, b, calib);
      && next.lostCount == ls.lostCount + 1
      && (ls.lostCount + 1 < LostThreshold ==> next.snap == ls.snap && calls == [])
      && (ls.lostCount + 1 >= LostThreshold ==> next.snap.state == LostSearch && calls == [Stop])
  {
  }

  /** A pending stop always ends the tick in IDLE with the car stopped, and
      the recorded target and bbox kept. */
  lemma PendingStopHalts(ls: LoopState, b: BboxTuple, calib: Calibration)
    ensures var (next, calls) := Tick(ls, None, true, b, calib);
      && next.snap == ls.snap.(state := Idle)
      && calls == [Stop, Stop]
  {
    var idle := ls.snap.(state := Idle);
    assert Fired(None, true, true, true) == [OnStop];
    assert ApplyCallbacks(ls.snap, [OnStop]) == (idle, [Stop]) by {
      StopKeepsPayloads(ls.snap, None);
      var fired: seq<Callback> := [OnStop];
      assert fired[..0] == [];
      assert ApplyCallbacks(ls.snap, fired[..0]) == (ls.snap, []);
      assert fired[0] == OnStop;
      assert [] + [Stop] == [Stop];
    }
    assert Decide(idle, ls.lostCount, b, calib) == (idle, ls.lostCount, [Stop]) by {
      DecideIdle(idle, ls.lostCount, b, calib);
    }
  }

  /** In IDLE the state-dependent part only stops the car. */
  lemma DecideIdle(snap: Snapshot, lostCount: int, b: BboxTuple, calib: Calibration)
    requires snap.state == Idle
    ensures Decide(snap, lostCount, b, calib) == (snap, lostCount, [Stop])
  {
  }

  /** A location received in IDLE sets the target and leaves GOTO_TARGET for
      SEARCH within the same tick. */
  lemma LocationTickFromIdle(ls: LoopState, x: real, y: real, b: BboxTuple, calib: Calibration)
    requires ls.snap.state == Idle
    ensures var (next, calls) := Tick(ls, Some((x, y)), false, b, calib);
      && next.snap == Snapshot(Search, Some([x, y]), ls.snap.lastBbox)
      && calls == []
  {
    assert Fired(Some((x, y)), false, true, true) == [OnCatLocation(x, y)];
    LocationFromIdle(ls.snap, [x, y]);
    assert ApplyCallbacks(ls.snap, [OnCatLocation(x, y)]) ==
      (Step(ls.snap, CatLocationReceived, Some([x, y])), []);
  }

  /** The main loop's objects and counters. */
  class Controller {
    const sm: Machine
    const drv: Driver
    const odo: Odometry
    const shared: Shared
    const cmds: CommandQueue
    const calib: Calibration
    var lostCount: int
    var frameCount: int

    ghost predicate Valid()
      reads this, shared, shared.pool
    {
      shared.Valid()
    }

    function State(): LoopState
      reads this, sm
    {
      LoopState(sm.Snap(), lostCount, frameCount)
    }

    /** Start-up: a new machine, the odometry reset to the origin, a fresh
        zeroed pool behind the shared state, no car injected, nothing pending. */
    constructor(calib: Calibration)
      ensures Valid()
      ensures fresh(sm) && fresh(drv) && fresh(odo) && fresh(shared) && fresh(shared.pool) && fresh(cmds)
      ensures forall i :: 0 <= i < shared.pool.frameRing.Length ==> shared.pool.frameRing[i] == 0
      ensures forall i :: 0 <= i < shared.pool.frameLatest.Length ==> shared.pool.frameLatest[i] == 0
      ensures forall i :: 0 <= i < shared.pool.frameForDetector.Length ==> shared.pool.frameForDetector[i] == 0
      ensures shared.pool.bboxTracker[..] == [0.0, 0.0, 0.0, 0.0, 0.0]
      ensures shared.pool.bboxDetector[..] == [0.0, 0.0, 0.0, 0.0, 0.0]
      ensures shared.pool.odometryXyh[..] == [0.0, 0.0, 0.0]
      ensures State() == LoopState(Initial, 0, 0)
      ensures drv.car.None? && drv.log == []
      ensures odo.x == 0.0 && odo.y == 0.0 && odo.headingDeg == 0.0
      ensures cmds.pendingCatLocation.None? && !cmds.pendingStop
      ensures this.calib == calib
    {
      this.calib := calib;
      sm := new Machine();
      var o := new Odometry();
      o.Reset(0.0, 0.0, 0.0);
      odo := o;
      var pool := new MemoryPool.Allocate();
      shared := new Shared(pool);
      drv := new Driver();
      cmds := new CommandQueue();
      lostCount := 0;
      frameCount := 0;
    }

    /** `on_cat_location`: dispatch the location to the state machine. */
    method OnCatLocation(x: real, y: real)
      modifies sm
      ensures sm.Snap() == Step(old(sm.Snap()), CatLocationReceived, Some([x, y]))
    {
      var _ := sm.Dispatch(CatLocationReceived, Some([x, y]));
    }

    /** `on_stop`: dispatch STOP_COMMAND, then stop the car. */
    method OnStop()
      modifies sm, drv
      ensures sm.Snap() == Step(old(sm.Snap()), StopCommand, None)
      ensures drv.car == old(drv.car) && drv.log == old(drv.log) + Sends(drv.car, [Stop])
    {
      var _ := sm.Dispatch(StopCommand, None);
      drv.Stop();
    }

    /** Polls the command slots and runs the callbacks in the order fired. */
    method PollAndHandle()
      modifies cmds, sm, drv
      ensures cmds.pendingCatLocation.None? && !cmds.pendingStop
      ensures var (s, calls) := ApplyCallbacks(old(sm.Snap()),
        Fired(old(cmds.pendingCatLocation), old(cmds.pendingStop), true, true));
        sm.Snap() == s && drv.log == old(drv.log) + Sends(drv.car, calls)
      ensures drv.car == old(drv.car)
    {
      var fired := cmds.PollCommands(true, true);
      ghost var snap0, log0 := sm.Snap(), drv.log;
      for i := 0 to |fired|
        invariant drv.car == old(drv.car)
        invariant cmds.pendingCatLocation.None? && !cmds.pendingStop
        invariant sm.Snap() == ApplyCallbacks(snap0, fired[..i]).0
        invariant drv.log == log0 + Sends(drv.car, ApplyCallbacks(snap0, fired[..i]).1)
      {
        ApplyCallbacksStep(snap0, fired, i);
        ghost var calls := ApplyCallbacks(snap0, fired[..i]).1;
        match fired[i]
        case OnCatLocation(x, y) =>
          OnCatLocation(x, y);
        case OnStop =>
          OnStop();
          SendsAppend(drv.car, calls, [Stop]);
          LogAppend(log0, Sends(drv.car, calls), Sends(drv.car, [Stop]));
      }
      assert fired[..|fired|] == fired;
    }

    /** The state-dependent part of a tick (the `if state == ...` chain). */
    method React(bbox: BboxTuple)
      modifies this, sm, drv
      ensures var (s, lost, calls) := Decide(old(sm.Snap()), old(lostCount), bbox, calib);
        sm.Snap() == s && lostCount == lost && drv.log == old(drv.log) + Sends(drv.car, calls)
      ensures drv.car == old(drv.car) && frameCount == old(frameCount)
    {
      var bboxValid := bbox.4 > 0.0;
      var state := sm.state;
      if state == Idle {
        drv.Stop();
      } else if state == GotoTarget {
        var _ := sm.Dispatch(AtTarget, None);
      } else if state == Search || state == LostSearch {
        if bboxValid {
          var _ := sm.Dispatch(CatFound, Some([bbox.0, bbox.1, bbox.2, bbox.3]));
          lostCount := 0;
        }
      } else {
        if bboxValid {
          lostCount := 0;
          CenterCatControl(drv, Bbox(bbox.0, bbox.1, bbox.2, bbox.3), ImageWidth, ImageHeight,
                           Some(calib), TargetDistanceCm(calib), DefaultApproachSpeed);
          if state == Approach {
            var _ := sm.Dispatch(DistanceAt15cm, None);
          }
        } else {
          lostCount := lostCount + 1;
          if lostCount >= LostThreshold {
            var _ := sm.Dispatch(CatLost, None);
            drv.Stop();
          }
        }
      }
    }

    /** One pass of the main loop's body. */
    method TickOnce()
      requires Valid()
      modifies this, cmds, sm, drv, shared.pool.frameForDetector, shared.pool.odometryXyh
      ensures Valid()
      ensures var (next, calls) := Tick(old(State()), old(cmds.pendingCatLocation), old(cmds.pendingStop),
                                        BboxOf(old(shared.pool.bboxTracker[..])), calib);
        State() == next && drv.log == old(drv.log) + Sends(drv.car, calls)
      ensures cmds.pendingCatLocation.None? && !cmds.pendingStop
      ensures drv.car == old(drv.car)
      ensures shared.pool.frameForDetector[..] ==
        if CopiesFrame(frameCount) then old(shared.pool.frameLatest[..]) else old(shared.pool.frameForDetector[..])
      ensures shared.pool.odometryXyh[..] == [odo.x, odo.y, odo.headingDeg]
    {
      ghost var ls0 := State();
      ghost var loc0, stop0, log0 := cmds.pendingCatLocation, cmds.pendingStop, drv.log;
      ghost var b0 := BboxOf(shared.pool.bboxTracker[..]);

      PollAndHandle();
      ghost var applied := ApplyCallbacks(ls0.snap, Fired(loc0, stop0, true, true));

      frameCount := frameCount + 1;
      MaybeCopyFrame(frameCount);

      var bbox := shared.GetBboxTracker();
      assert bbox == b0;
      React(bbox);
      ghost var decided := Decide(applied.0, ls0.lostCount, b0, calib);
      SendsAppend(drv.car, applied.1, decided.2);
      LogAppend(log0, Sends(drv.car, applied.1), Sends(drv.car, decided.2));
      TickComposes(ls0, loc0, stop0, b0, calib);

      PublishOdometry();
    }

    /** Every tenth tick, hands the latest frame to the detector. */
    method MaybeCopyFrame(count: int)
      requires Valid()
      modifies shared.pool.frameForDetector
      ensures shared.pool.frameForDetector[..] ==
        if CopiesFrame(count) then old(shared.pool.frameLatest[..]) else old(shared.pool.frameForDetector[..])
    {
      if count % DetectEveryK == 0 {
        shared.CopyLatestToDetectorFrame();
      }
    }

    /** Publishes the odometry's position and heading to the shared state. */
    method PublishOdometry()
      requires Valid()
      modifies shared.pool.odometryXyh
      ensures shared.pool.odometryXyh[..] == [odo.x, odo.y, odo.headingDeg]
    {
      var pos := odo.GetPosition();
      var heading := odo.GetHeadingDeg();
      shared.SetOdometry(pos.0, pos.1, heading);
    }
  }
}
