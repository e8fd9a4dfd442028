/**
 * The backend-independent contract every scanner adapter implements: the two
 * capture modes, the callbacks an application receives while initialising a
 * scanner and while capturing, and the finished fingerprint record.
 *
 * Images are opaque: a bitmap is either one the vendor SDK produced, or a
 * freshly allocated buffer into which part of another bitmap was drawn. No
 * pixels are modelled.
 */
module FingerprintDevice {

  /** Which set of fingers an application asks for. */
  datatype CaptureType = FingerprintCaptureTwo | FingerprintCaptureFour

  /** The number of fingers a capture of this type must yield. */
  function RequiredFingers(t: CaptureType): (n: nat)
    ensures n == 2 || n == 4
    ensures (n == 2) <==> t.FingerprintCaptureTwo?
  {
    match t
    case FingerprintCaptureTwo => 2
    case FingerprintCaptureFour => 4
  }

  /** An Android rectangle; `Width` and `Height` are not sign-checked. */
  datatype Rect = Rect(left: int, top: int, right: int, bottom: int) {
    function Width(): int { right - left }
    function Height(): int { bottom - top }
  }

  /** An opaque pixel buffer. */
  datatype Bitmap =
    | SensorImage(handle: nat)
      /** A `width` x `height` buffer with `sourceRect` of `source` drawn onto `targetRect`. */
    | Drawn(width: int, height: int, source: Bitmap, sourceRect: Rect, targetRect: Rect)

  /** One finger's image with its NFIQ quality score (1 is best). */
  datatype Fingerprint = Fingerprint(bitmap: Bitmap, nfiqScore: int)

  /** Identities of the listener objects an application passes in. */
  datatype InitListener = InitListener(id: nat)
  datatype CaptureListener = CaptureListener(id: nat)

  /** The two callbacks of an init listener. */
  datatype InitCall = OnDeviceInitFail(reason: string) | OnDeviceOpened

  /** The three callbacks of a capture listener. */
  datatype CaptureCall =
    | OnDeviceCaptureFail(reason: string)
    | OnImagePreviewCaptured(preview: Bitmap)
    | OnImageResultCaptured(segmentedFingerprints: seq<Fingerprint>)

  /** An init callback as delivered to one particular listener. */
  datatype InitNotice = InitNotice(listener: InitListener, call: InitCall)

  /** A capture callback as delivered to one particular listener. */
  datatype CaptureNotice = CaptureNotice(listener: CaptureListener, call: CaptureCall)

  /** How many of `notices` reached `l`. */
  function NoticesTo(notices: seq<InitNotice>, l: InitListener): (n: nat)
    ensures n <= |notices|
  {
    if |notices| == 0 then 0
    else NoticesTo(notices[..|notices| - 1], l) + (if notices[|notices| - 1].listener == l then 1 else 0)
  }

  lemma {:induction false} NoticesToAppend(a: seq<InitNotice>, b: seq<InitNotice>, l: InitListener)
    ensures NoticesTo(a + b, l) == NoticesTo(a, l) + NoticesTo(b, l)
    decreases |b|
  {
    if |b| == 0 {
      assert a + b == a;
    } else {
      assert (a + b)[..|a + b| - 1] == a + b[..|b| - 1];
      NoticesToAppend(a, b[..|b| - 1], l);
    }
  }
}
