/** The memory pool: every large buffer is allocated once at start-up, zeroed,
    and afterwards only written in place. Frames are stored flattened, row by
    row, as bytes. */
module Pool {
  newtype byte = x: int | 0 <= x < 256

  const FrameH: nat := 480
  const FrameW: nat := 640
  const FrameC: nat := 3
  const FrameShape: (nat, nat, nat) := (FrameH, FrameW, FrameC)
  const FrameNBytes: nat := FrameH * FrameW * FrameC
  /** Rotating frame slots the camera writes into. */
  const FrameRingN: nat := 3
  /** Bbox layout: x, y, w, h, then a validity flag (1.0 current, 0.0 none). */
  const BboxLen: nat := 5
  /** Odometry layout: x, y, heading in degrees. */
  const OdomLen: nat := 3

  /** A frame is 480 rows of 640 pixels of 3 channels: 921 600 bytes. */
  lemma FrameSize()
    ensures FrameNBytes == FrameShape.0 * FrameShape.1 * FrameShape.2 == 921600
  {
  }

  class MemoryPool {
    /** `FrameRingN` frames back to back. */
    const frameRing: array<byte>
    /** The latest frame, as the shared-state accessors use it. */
    const frameLatest: array<byte>
    const frameForDetector: array<byte>
    const bboxTracker: array<real>
    const bboxDetector: array<real>
    const odometryXyh: array<real>

    /** Fixed lengths, and no two buffers share storage. */
    ghost predicate Valid()
      reads this
    {
      && frameRing.Length == FrameRingN * FrameNBytes
      && frameLatest.Length == FrameNBytes
      && frameForDetector.Length == FrameNBytes
      && bboxTracker.Length == BboxLen
      && bboxDetector.Length == BboxLen
      && odometryXyh.Length == OdomLen
      && frameRing != frameLatest && frameRing != frameForDetector && frameLatest != frameForDetector
      && bboxTracker != bboxDetector && bboxTracker != odometryXyh && bboxDetector != odometryXyh
    }

    /** `allocate_pool`: fresh, zeroed buffers of the fixed lengths. */
    constructor Allocate()
      ensures Valid()
      ensures fresh(frameRing) && fresh(frameLatest) && fresh(frameForDetector)
      ensures fresh(bboxTracker) && fresh(bboxDetector) && fresh(odometryXyh)
      ensures forall i :: 0 <= i < frameRing.Length ==> frameRing[i] == 0
      ensures forall i :: 0 <= i < frameLatest.Length ==> frameLatest[i] == 0
      ensures forall i :: 0 <= i < frameForDetector.Length ==> frameForDetector[i] == 0
      ensures bboxTracker[..] == [0.0, 0.0, 0.0, 0.0, 0.0]
      ensures bboxDetector[..] == [0.0, 0.0, 0.0, 0.0, 0.0]
      ensures odometryXyh[..] == [0.0, 0.0, 0.0]
    {
      frameRing := new byte[FrameRingN * FrameNBytes](_ => 0);
      frameLatest := new byte[FrameNBytes](_ => 0);
      frameForDetector := new byte[FrameNBytes](_ => 0);
      bboxTracker := new real[BboxLen](_ => 0.0);
      bboxDetector := new real[BboxLen](_ => 0.0);
      odometryXyh := new real[OdomLen](_ => 0.0);
    }
  }
}
