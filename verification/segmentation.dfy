/**
 * The Dermalog segment extractor: every segment the vendor reports becomes one
 * fingerprint, cropped from the decoded sensor image into a buffer anchored at
 * the origin, and scored with the NFIQ normaliser.
 */
module Segmentation {
  import opened FingerprintDevice
  import Nfiq

  datatype Point = Point(x: int, y: int)

  /** Whether allocating a segment's buffer of a valid size succeeds or runs out of memory. */
  datatype CropAllocation = CropAllocates | CropRunsOutOfMemory

  /**
   * One finger region as reported by the vendor, with the NFIQ2 value the
   * vendor's quality check computes from the region's raw data, and how
   * allocating its buffer goes.
   */
  datatype FingerprintSegment = FingerprintSegment(positionTopLeft: Point, positionBottomRight: Point, nfiq2: int,
                                                   crop: CropAllocation)

  /** The region of the sensor image the segment covers. */
  function SourceRect(s: FingerprintSegment): Rect {
    Rect(s.positionTopLeft.x, s.positionTopLeft.y, s.positionBottomRight.x, s.positionBottomRight.y)
  }

  /** Where the segment is drawn in its own buffer: at the origin, with the source region's size. */
  function TargetRect(s: FingerprintSegment): (t: Rect)
    ensures t.left == 0 && t.top == 0
    ensures t.Width() == SourceRect(s).Width()
    ensures t.Height() == SourceRect(s).Height()
  {
    var src := SourceRect(s);
    Rect(0, 0, src.right - src.left, src.bottom - src.top)
  }

  /**
   * Android allocates the segment's buffer: its width and height are both
   * positive (otherwise `createBitmap` throws) and memory suffices (otherwise
   * it raises an out-of-memory error).
   */
  predicate Allocatable(s: FingerprintSegment) {
    TargetRect(s).Width() > 0 && TargetRect(s).Height() > 0 && s.crop.CropAllocates?
  }

  predicate AllAllocatable(segments: seq<FingerprintSegment>) {
    forall i :: 0 <= i < |segments| ==> Allocatable(segments[i])
  }

  /** The segment's bitmap: a target-sized buffer with the source region drawn onto the target rectangle. */
  function Crop(source: Bitmap, s: FingerprintSegment): Bitmap {
    var t := TargetRect(s);
    Drawn(t.Width(), t.Height(), source, SourceRect(s), t)
  }

  /** The fingerprint one segment yields. */
  function ExtractOne(source: Bitmap, s: FingerprintSegment): Fingerprint {
    Fingerprint(Crop(source, s), Nfiq.FromNfiq2(s.nfiq2))
  }

  /**
   * One fingerprint per segment, appended in segment order. The i-th output
   * comes from the i-th segment, never from a spatial sort.
   */
  function ExtractFingerprints(source: Bitmap, segments: seq<FingerprintSegment>): (fps: seq<Fingerprint>)
    ensures |fps| == |segments|
    ensures forall i :: 0 <= i < |segments| ==> fps[i] == ExtractOne(source, segments[i])
  {
    if |segments| == 0 then []
    else ExtractFingerprints(source, segments[..|segments| - 1]) + [ExtractOne(source, segments[|segments| - 1])]
  }

  /**
   * Geometry of every extracted fingerprint: a copy of its segment's source
   * region, placed at the origin of a buffer exactly (right - left) x
   * (bottom - top) in size, with a score on the 1..5 scale.
   */
  lemma ExtractedGeometry(source: Bitmap, segments: seq<FingerprintSegment>, i: int)
    requires 0 <= i < |segments|
    ensures var fp := ExtractFingerprints(source, segments)[i];
      var s := segments[i];
      && fp.bitmap.Drawn?
      && fp.bitmap.source == source
      && fp.bitmap.sourceRect == Rect(s.positionTopLeft.x, s.positionTopLeft.y, s.positionBottomRight.x, s.positionBottomRight.y)
      && fp.bitmap.targetRect.left == 0 && fp.bitmap.targetRect.top == 0
      && fp.bitmap.width == s.positionBottomRight.x - s.positionTopLeft.x
      && fp.bitmap.height == s.positionBottomRight.y - s.positionTopLeft.y
      && fp.bitmap.targetRect.Width() == fp.bitmap.width
      && fp.bitmap.targetRect.Height() == fp.bitmap.height
      && 1 <= fp.nfiqScore <= 5
      && fp.nfiqScore == Nfiq.FromNfiq2(s.nfiq2)
  {
  }

  /** Extraction distributes over concatenation: segments are processed independently. */
  lemma {:induction false} ExtractAppend(source: Bitmap, a: seq<FingerprintSegment>, b: seq<FingerprintSegment>)
    ensures ExtractFingerprints(source, a + b) == ExtractFingerprints(source, a) + ExtractFingerprints(source, b)
  {
    var l := ExtractFingerprints(source, a + b);
    var r := ExtractFingerprints(source, a) + ExtractFingerprints(source, b);
    assert |l| == |r|;
    forall i | 0 <= i < |l|
      ensures l[i] == r[i]
    {
      if i < |a| {
        assert (a + b)[i] == a[i];
      } else {
        assert (a + b)[i] == b[i - |a|];
      }
    }
  }
}
