/** Shared state: the accessors through which the camera, tracker, detector
    and main loop read and write the pool's buffers. Every setter writes into
    the pre-allocated buffer; every getter copies out of it. */
module SharedState {
  import opened Pool

  /** A bbox snapshot `(x, y, w, h, valid)`. */
  type BboxTuple = (real, real, real, real, real)

  /** The five values of a bbox buffer as a tuple. */
  function BboxOf(buf: seq<real>): (r: BboxTuple)
    requires |buf| == BboxLen
    ensures [r.0, r.1, r.2, r.3, r.4] == buf
  {
    (buf[0], buf[1], buf[2], buf[3], buf[4])
  }

  /** The three values of the odometry buffer as a tuple. */
  function OdometryOf(buf: seq<real>): (r: (real, real, real))
    requires |buf| == OdomLen
    ensures [r.0, r.1, r.2] == buf
  {
    (buf[0], buf[1], buf[2])
  }

  class Shared {
    const pool: MemoryPool

    ghost predicate Valid()
      reads this, pool
    {
      pool.Valid()
    }

    /** Wraps the pool; no buffer is allocated. */
    constructor(pool: MemoryPool)
      requires pool.Valid()
      ensures this.pool == pool && Valid()
    {
      this.pool := pool;
    }

    /** `set_frame_latest`: copies `src` into the latest-frame buffer. */
    method SetFrameLatest(src: array<byte>)
      requires Valid() && src.Length == FrameNBytes
      modifies pool.frameLatest
      ensures pool.frameLatest[..] == old(src[..])
    {
      forall i | 0 <= i < src.Length {
        pool.frameLatest[i] := src[i];
      }
    }

    /** `get_frame_latest`: copies the latest frame into the caller's `dst`. */
    method GetFrameLatest(dst: array<byte>)
      requires Valid() && dst.Length == FrameNBytes
      modifies dst
      ensures dst[..] == old(pool.frameLatest[..])
    {
      forall i | 0 <= i < dst.Length {
        dst[i] := pool.frameLatest[i];
      }
    }

    /** `copy_latest_to_detector_frame`: the detector's frame becomes the latest frame. */
    method CopyLatestToDetectorFrame()
      requires Valid()
      modifies pool.frameForDetector
      ensures pool.frameForDetector[..] == pool.frameLatest[..]
      ensures pool.frameLatest[..] == old(pool.frameLatest[..])
    {
      forall i | 0 <= i < pool.frameForDetector.Length {
        pool.frameForDetector[i] := pool.frameLatest[i];
      }
    }

    /** `get_frame_for_detector`: copies the detector's frame into `dst`. */
    method GetFrameForDetector(dst: array<byte>)
      requires Valid() && dst.Length == FrameNBytes
      modifies dst
      ensures dst[..] == old(pool.frameForDetector[..])
    {
      forall i | 0 <= i < dst.Length {
        dst[i] := pool.frameForDetector[i];
      }
    }

    /** `set_bbox_tracker`: writes the five values in place. */
    method SetBboxTracker(x: real, y: real, w: real, h: real, valid: real)
      requires Valid()
      modifies pool.bboxTracker
      ensures pool.bboxTracker[..] == [x, y, w, h, valid]
      ensures BboxOf(pool.bboxTracker[..]) == (x, y, w, h, valid)
    {
      var buf := pool.bboxTracker;
      buf[0] := x;
      buf[1] := y;
      buf[2] := w;
      buf[3] := h;
      buf[4] := valid;
    }

    /** `get_bbox_tracker`: a snapshot of the tracker bbox. */
    method GetBboxTracker() returns (r: BboxTuple)
      requires Valid()
      ensures r == BboxOf(pool.bboxTracker[..])
    {
      var buf := pool.bboxTracker;
      r := (buf[0], buf[1], buf[2], buf[3], buf[4]);
    }

    /** `set_bbox_detector`: writes the five values in place. */
    method SetBboxDetector(x: real, y: real, w: real, h: real, valid: real)
      requires Valid()
      modifies pool.bboxDetector
      ensures pool.bboxDetector[..] == [x, y, w, h, valid]
      ensures BboxOf(pool.bboxDetector[..]) == (x, y, w, h, valid)
    {
      var buf := pool.bboxDetector;
      buf[0] := x;
      buf[1] := y;
      buf[2] := w;
      buf[3] := h;
      buf[4] := valid;
    }

    /** `get_bbox_detector`: a snapshot of the detector bbox. */
    method GetBboxDetector() returns (r: BboxTuple)
      requires Valid()
      ensures r == BboxOf(pool.bboxDetector[..])
    {
      var buf := pool.bboxDetector;
      r := (buf[0], buf[1], buf[2], buf[3], buf[4]);
    }

    /** `set_odometry`: writes x, y and heading in place. */
    method SetOdometry(x: real, y: real, headingDeg: real)
      requires Valid()
      modifies pool.odometryXyh
      ensures pool.odometryXyh[..] == [x, y, headingDeg]
      ensures OdometryOf(pool.odometryXyh[..]) == (x, y, headingDeg)
    {
      var buf := pool.odometryXyh;
      buf[0] := x;
      buf[1] := y;
      buf[2] := headingDeg;
    }

    /** `get_odometry`: a snapshot of the odometry. */
    method GetOdometry() returns (r: (real, real, real))
      requires Valid()
      ensures r == OdometryOf(pool.odometryXyh[..])
    {
      var buf := pool.odometryXyh;
      r := (buf[0], buf[1], buf[2]);
    }
  }
}
