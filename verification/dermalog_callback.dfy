/**
 * The Dermalog capture callback: one multiplexed vendor event in, the capture
 * listener calls it triggers out, in order, plus the `stopCapture` command it
 * sends to the device and whether an exception leaves the handler uncaught.
 */
module DermalogCallback {
  import opened Options
  import opened FingerprintDevice
  import opened Segmentation

  datatype CallbackEventId = Error | FingerImage | FingerDetect | OtherEventId

  /** The exceptions the vendor's image helpers raise that the handler names. */
  datatype SdkException =
    | IOException
    | DICException
    | NistQualityCheckException(message: Option<string>)

  /**
   * What the vendor's image-argument decoder does with one image argument: a
   * bitmap, one of the named exceptions, or an out-of-memory error, which no
   * handler clause catches.
   */
  datatype Decoding = Decoded(bitmap: Bitmap) | Raises(exception: SdkException) | DecodeRunsOutOfMemory

  datatype EventArgument =
    | ErrorArgument(message: Option<string>)
    | ImageArgument(decoding: Decoding)
    | FingerprintSegmentationArgument(fingerprintSegments: seq<FingerprintSegment>)
    | OtherArgument

  datatype DeviceCallbackEventArgument = DeviceCallbackEventArgument(eventId: CallbackEventId, arguments: seq<EventArgument>)

  /** What the handler does, in order: a listener call, or `device.stopCapture()`. */
  datatype Effect = Notify(call: CaptureCall) | StopCapture

  /** The effects of one event; `escapes` when an exception leaves the handler after them. */
  datatype Reaction = Reaction(effects: seq<Effect>, escapes: bool)

  const ErrorDefault := "Unable to start capture."
  const PreviewFailure := "There was an error getting the fingerprint image preview."
  const ResultIoFailure := "There was an error getting the fingerprint image result."
  const ContainerFailure := "Couldn't capture the fingerprint."

  /** The finger-count complaint for each mode, as the adapter words it. */
  function MismatchMessage(t: CaptureType): string {
    match t
    case FingerprintCaptureTwo => "Please use 2 fingers."
    case FingerprintCaptureFour => "Please use 3 fingers."
  }

  /** The decimal digit for a count below ten. */
  function Digit(n: nat): char
    requires n <= 9
  {
    "0123456789"[n]
  }

  /** The complaint as evidently intended: it names the number of fingers the mode needs. */
  function IntendedMismatchMessage(t: CaptureType): (m: string)
    ensures m == "Please use " + [Digit(RequiredFingers(t))] + " fingers."
  {
    match t
    case FingerprintCaptureTwo => "Please use 2 fingers."
    case FingerprintCaptureFour => "Please use 4 fingers."
  }

  /**
   * As written, the four-finger complaint asks for three fingers, although the
   * check only accepts four; the two-finger complaint is as intended.
   */
  lemma FourFingerMessageAsksForThree()
    ensures MismatchMessage(FingerprintCaptureFour) != "Please use " + [Digit(RequiredFingers(FingerprintCaptureFour))] + " fingers."
    ensures MismatchMessage(FingerprintCaptureFour) == "Please use " + [Digit(RequiredFingers(FingerprintCaptureFour) - 1)] + " fingers."
    ensures MismatchMessage(FingerprintCaptureTwo) == IntendedMismatchMessage(FingerprintCaptureTwo)
  {
    assert MismatchMessage(FingerprintCaptureFour)[11] == '3';
  }

  /** The capture-fail reason for an exception raised while building the result. */
  function DetectFailure(e: SdkException): string {
    match e
    case IOException => ResultIoFailure
    case DICException => ContainerFailure
    // `e.message.toString()` renders a missing message as "null"
    case NistQualityCheckException(m) => m.OrElse("null")
  }

  /** The error arguments among `args`, in order; `ErrorArgumentsAppend` pins the order. */
  function ErrorArguments(args: seq<EventArgument>): (errs: seq<EventArgument>)
    ensures forall i :: 0 <= i < |errs| ==> errs[i].ErrorArgument?
    ensures forall a :: a in errs <==> a in args && a.ErrorArgument?
    ensures |errs| <= |args|
  {
    if |args| == 0 then []
    else if args[0].ErrorArgument? then [args[0]] + ErrorArguments(args[1..])
    else ErrorArguments(args[1..])
  }

  /** The image arguments among `args`, in order; `ImageArgumentsAppend` pins the order. */
  function ImageArguments(args: seq<EventArgument>): (imgs: seq<EventArgument>)
    ensures forall i :: 0 <= i < |imgs| ==> imgs[i].ImageArgument?
    ensures forall a :: a in imgs <==> a in args && a.ImageArgument?
    ensures |imgs| <= |args|
  {
    if |args| == 0 then []
    else if args[0].ImageArgument? then [args[0]] + ImageArguments(args[1..])
    else ImageArguments(args[1..])
  }

  /**
   * Filtering distributes over concatenation; as a one-argument sequence
   * keeps itself exactly when it is an error argument, every error argument is
   * kept once, in its original order.
   */
  lemma {:induction false} ErrorArgumentsAppend(a: seq<EventArgument>, b: seq<EventArgument>)
    ensures ErrorArguments(a + b) == ErrorArguments(a) + ErrorArguments(b)
  {
    if |a| == 0 {
      assert a + b == b;
    } else {
      assert (a + b)[0] == a[0];
      assert (a + b)[1..] == a[1..] + b;
      ErrorArgumentsAppend(a[1..], b);
      if a[0].ErrorArgument? {
        assert ErrorArguments(a + b) == [a[0]] + ErrorArguments(a[1..] + b);
      } else {
        assert ErrorArguments(a + b) == ErrorArguments(a[1..] + b);
      }
    }
  }

  /** The same for image arguments. */
  lemma {:induction false} ImageArgumentsAppend(a: seq<EventArgument>, b: seq<EventArgument>)
    ensures ImageArguments(a + b) == ImageArguments(a) + ImageArguments(b)
  {
    if |a| == 0 {
      assert a + b == b;
    } else {
      assert (a + b)[0] == a[0];
      assert (a + b)[1..] == a[1..] + b;
      ImageArgumentsAppend(a[1..], b);
      if a[0].ImageArgument? {
        assert ImageArguments(a + b) == [a[0]] + ImageArguments(a[1..] + b);
      } else {
        assert ImageArguments(a + b) == ImageArguments(a[1..] + b);
      }
    }
  }

  /** ERROR: one capture-fail per error argument, with its message or the default. */
  function ErrorFails(args: seq<EventArgument>): (effects: seq<Effect>)
    ensures |effects| == |ErrorArguments(args)|
    ensures forall i :: 0 <= i < |effects| ==>
      effects[i] == Notify(OnDeviceCaptureFail(ErrorArguments(args)[i].message.OrElse(ErrorDefault)))
  {
    if |args| == 0 then []
    else match args[0]
      case ErrorArgument(m) => [Notify(OnDeviceCaptureFail(m.OrElse(ErrorDefault)))] + ErrorFails(args[1..])
      case _ => ErrorFails(args[1..])
  }

  /** Whether FINGER_IMAGE's handler gets past this decoding: it succeeds, or raises the caught I/O exception. */
  predicate Caught(d: Decoding) {
    d.Decoded? || (d.Raises? && d.exception.IOException?)
  }

  /** An image argument whose decoding raises something other than an I/O exception. */
  predicate UncaughtPreview(a: EventArgument) {
    a.ImageArgument? && !Caught(a.decoding)
  }

  /** The call a caught decoding yields: the decoded preview, or the fixed preview failure. */
  function PreviewOf(d: Decoding): Effect
    requires Caught(d)
  {
    if d.Decoded? then Notify(OnImagePreviewCaptured(d.bitmap))
    else Notify(OnDeviceCaptureFail(PreviewFailure))
  }

  /**
   * The FINGER_IMAGE loop over the image arguments' decodings: the i-th call
   * belongs to the i-th decoding; the first uncaught exception ends the loop.
   */
  function PreviewAll(ds: seq<Decoding>): (r: Reaction)
    ensures |r.effects| <= |ds|
    ensures forall i :: 0 <= i < |r.effects| ==> Caught(ds[i]) && r.effects[i] == PreviewOf(ds[i])
    ensures r.escapes <==> exists i :: 0 <= i < |ds| && !Caught(ds[i])
    ensures !r.escapes ==> |r.effects| == |ds|
    ensures r.escapes ==> |r.effects| < |ds| && !Caught(ds[|r.effects|])
  {
    if |ds| == 0 then Reaction([], false)
    else if !Caught(ds[0]) then Reaction([], true)
    else
      var rest := PreviewAll(ds[1..]);
      assert forall i :: 1 <= i < |ds| ==> ds[1..][i - 1] == ds[i];
      Reaction([PreviewOf(ds[0])] + rest.effects, rest.escapes)
  }

  /** The decodings of image arguments. */
  function Decodings(imgs: seq<EventArgument>): (ds: seq<Decoding>)
    requires forall i :: 0 <= i < |imgs| ==> imgs[i].ImageArgument?
    ensures |ds| == |imgs| && forall i :: 0 <= i < |imgs| ==> ds[i] == imgs[i].decoding
  {
    seq(|imgs|, i requires 0 <= i < |imgs| => imgs[i].decoding)
  }

  /**
   * FINGER_IMAGE: the i-th call belongs to the i-th image argument, a preview
   * of its bitmap or, for an I/O exception, the fixed failure. Any other
   * exception leaves the handler at that argument, skipping the rest.
   */
  function Previews(args: seq<EventArgument>): (r: Reaction)
    ensures |r.effects| <= |ImageArguments(args)|
    ensures forall i :: 0 <= i < |r.effects| ==>
      Caught(ImageArguments(args)[i].decoding) && r.effects[i] == PreviewOf(ImageArguments(args)[i].decoding)
    ensures r.escapes <==> exists i :: 0 <= i < |args| && UncaughtPreview(args[i])
    ensures !r.escapes ==> |r.effects| == |ImageArguments(args)|
    ensures r.escapes ==> |r.effects| < |ImageArguments(args)| && !Caught(ImageArguments(args)[|r.effects|].decoding)
    ensures forall k :: 0 <= k < |args| && UncaughtPreview(args[k]) ==> |r.effects| <= |ImageArguments(args[..k])|
  {
    var imgs := ImageArguments(args);
    var ds := Decodings(imgs);
    var r := PreviewAll(ds);
    forall k | 0 <= k < |args| && UncaughtPreview(args[k])
      ensures |r.effects| <= |ImageArguments(args[..k])|
    {
      ImageArgumentPosition(args, k);
    }
    assert r.escapes <==> exists i :: 0 <= i < |args| && UncaughtPreview(args[i]) by {
      if r.escapes {
        var j :| 0 <= j < |ds| && !Caught(ds[j]);
        assert imgs[j] in args;
        var i :| 0 <= i < |args| && args[i] == imgs[j];
        assert UncaughtPreview(args[i]);
      }
      if i :| 0 <= i < |args| && UncaughtPreview(args[i]) {
        assert args[i] in imgs;
        var j :| 0 <= j < |imgs| && imgs[j] == args[i];
        assert !Caught(ds[j]);
      }
    }
    r
  }

  /** `args[i]` is a segmentation argument and no later argument is one. */
  predicate LastSegmentationAt(args: seq<EventArgument>, i: int) {
    && 0 <= i < |args|
    && args[i].FingerprintSegmentationArgument?
    && forall j :: i < j < |args| ==> !args[j].FingerprintSegmentationArgument?
  }

  /** `args[i]` is an image argument and no later argument is one. */
  predicate LastImageAt(args: seq<EventArgument>, i: int) {
    && 0 <= i < |args|
    && args[i].ImageArgument?
    && forall j :: i < j < |args| ==> !args[j].ImageArgument?
  }

  /**
   * The last segmentation argument of the event, if any: the argument loop
   * keeps overwriting it. `LastSegmentationIsLast` says which one it is.
   */
  function LastSegmentation(args: seq<EventArgument>): (r: Option<seq<FingerprintSegment>>)
    ensures r.None? <==> forall i :: 0 <= i < |args| ==> !args[i].FingerprintSegmentationArgument?
  {
    if |args| == 0 then None
    else
      var n := |args| - 1;
      if args[n].FingerprintSegmentationArgument? then Some(args[n].fingerprintSegments)
      else
        assert forall i :: 0 <= i < n ==> args[..n][i] == args[i];
        LastSegmentation(args[..n])
  }

  /** The decoding of the last image argument of the event, if any; `LastImageIsLast` says which one it is. */
  function LastImage(args: seq<EventArgument>): (r: Option<Decoding>)
    ensures r.None? <==> forall i :: 0 <= i < |args| ==> !args[i].ImageArgument?
  {
    if |args| == 0 then None
    else
      var n := |args| - 1;
      if args[n].ImageArgument? then Some(args[n].decoding)
      else
        assert forall i :: 0 <= i < n ==> args[..n][i] == args[i];
        LastImage(args[..n])
  }

  /** The segmentation argument that no later one follows is the one FINGER_DETECT uses. */
  lemma {:induction false} LastSegmentationIsLast(args: seq<EventArgument>, i: int)
    requires LastSegmentationAt(args, i)
    ensures LastSegmentation(args) == Some(args[i].fingerprintSegments)
  {
    var n := |args| - 1;
    if i < n {
      assert LastSegmentationAt(args[..n], i);
      LastSegmentationIsLast(args[..n], i);
    }
  }

  /** The image argument that no later one follows is the one FINGER_DETECT decodes. */
  lemma {:induction false} LastImageIsLast(args: seq<EventArgument>, i: int)
    requires LastImageAt(args, i)
    ensures LastImage(args) == Some(args[i].decoding)
  {
    var n := |args| - 1;
    if i < n {
      assert LastImageAt(args[..n], i);
      LastImageIsLast(args[..n], i);
    }
  }

  /** The finger-count check: deliver and stop on the right count, complain otherwise. */
  function CheckCount(t: CaptureType, fps: seq<Fingerprint>): Reaction {
    if |fps| == RequiredFingers(t) then Reaction([Notify(OnImageResultCaptured(fps)), StopCapture], false)
    else Reaction([Notify(OnDeviceCaptureFail(MismatchMessage(t)))], false)
  }

  /**
   * FINGER_DETECT. Decoding a missing image argument is taken to raise an
   * exception the handler does not catch; a missing segmentation argument fails
   * the `!!`; a segment Android cannot allocate a bitmap for aborts extraction.
   */
  function FingerDetected(t: CaptureType, args: seq<EventArgument>): Reaction {
    match LastImage(args)
    case None => Reaction([], true)
    case Some(Raises(e)) => Reaction([Notify(OnDeviceCaptureFail(DetectFailure(e)))], false)
    case Some(DecodeRunsOutOfMemory) => Reaction([], true)
    case Some(Decoded(bitmap)) =>
      match LastSegmentation(args)
      case None => Reaction([], true)
      case Some(segments) =>
        if !AllAllocatable(segments) then Reaction([], true)
        else CheckCount(t, ExtractFingerprints(bitmap, segments))
  }

  /** `onCall`: dispatch on the event id; every other id is ignored. */
  function OnCall(t: CaptureType, ev: DeviceCallbackEventArgument): Reaction {
    match ev.eventId
    case Error => Reaction(ErrorFails(ev.arguments), false)
    case FingerImage => Previews(ev.arguments)
    case FingerDetect => FingerDetected(t, ev.arguments)
    case OtherEventId => Reaction([], false)
  }

  /** A FINGER_DETECT event whose image decodes and whose segments can all be cropped. */
  predicate ReachesCountCheck(args: seq<EventArgument>, bitmap: Bitmap, segments: seq<FingerprintSegment>) {
    && LastImage(args) == Some(Decoded(bitmap))
    && LastSegmentation(args) == Some(segments)
    && AllAllocatable(segments)
  }

  /**
   * Two-finger mode: the result goes out, followed by `stopCapture`, exactly
   * when there are two segments; otherwise one "Please use 2 fingers." and
   * nothing else.
   */
  lemma TwoFingerCountCheck(args: seq<EventArgument>, bitmap: Bitmap, segments: seq<FingerprintSegment>)
    requires ReachesCountCheck(args, bitmap, segments)
    ensures var r := OnCall(FingerprintCaptureTwo, DeviceCallbackEventArgument(FingerDetect, args));
      && !r.escapes
      && (|segments| == 2 ==> r.effects == [Notify(OnImageResultCaptured(ExtractFingerprints(bitmap, segments))), StopCapture])
      && (|segments| != 2 ==> r.effects == [Notify(OnDeviceCaptureFail("Please use 2 fingers."))])
  {
  }

  /**
   * Four-finger mode: the result goes out, followed by `stopCapture`, exactly
   * when there are four segments; otherwise one "Please use 3 fingers." (sic)
   * and nothing else.
   */
  lemma FourFingerCountCheck(args: seq<EventArgument>, bitmap: Bitmap, segments: seq<FingerprintSegment>)
    requires ReachesCountCheck(args, bitmap, segments)
    ensures var r := OnCall(FingerprintCaptureFour, DeviceCallbackEventArgument(FingerDetect, args));
      && !r.escapes
      && (|segments| == 4 ==> r.effects == [Notify(OnImageResultCaptured(ExtractFingerprints(bitmap, segments))), StopCapture])
      && (|segments| != 4 ==> r.effects == [Notify(OnDeviceCaptureFail("Please use 3 fingers."))])
  {
  }

  /** FINGER_IMAGE never delivers a result and never stops the capture. */
  lemma PreviewsNeitherResultNorStop(args: seq<EventArgument>)
    ensures var r := Previews(args);
      && StopCapture !in r.effects
      && forall i :: 0 <= i < |r.effects| ==> r.effects[i].Notify? && !r.effects[i].call.OnImageResultCaptured?
  {
    var r := Previews(args);
    var imgs := ImageArguments(args);
    forall i | 0 <= i < |r.effects|
      ensures r.effects[i].Notify? && !r.effects[i].call.OnImageResultCaptured?
    {
      assert r.effects[i] == PreviewOf(imgs[i].decoding);
    }
  }

  /**
   * `stopCapture` is sent on one path only: right after a single result call
   * carrying exactly the mode's number of fingerprints. Conversely every result
   * call is followed by `stopCapture`.
   */
  lemma StopCaptureOnlyAfterResult(t: CaptureType, ev: DeviceCallbackEventArgument)
    ensures var r := OnCall(t, ev);
      StopCapture in r.effects ==>
        && !r.escapes
        && |r.effects| == 2
        && r.effects[0].Notify? && r.effects[0].call.OnImageResultCaptured?
        && |r.effects[0].call.segmentedFingerprints| == RequiredFingers(t)
        && r.effects[1] == StopCapture
    ensures var r := OnCall(t, ev);
      forall i :: 0 <= i < |r.effects| && r.effects[i].Notify? && r.effects[i].call.OnImageResultCaptured? ==>
        i + 1 < |r.effects| && r.effects[i + 1] == StopCapture
  {
    var r := OnCall(t, ev);
    match ev.eventId
    case Error =>
      assert forall i :: 0 <= i < |r.effects| ==> r.effects[i].Notify? && r.effects[i].call.OnDeviceCaptureFail?;
    case FingerImage =>
      PreviewsNeitherResultNorStop(ev.arguments);
    case FingerDetect =>
    case OtherEventId =>
  }

  /** Every result delivered carries one fingerprint per segment, each scored on the 1..5 scale. */
  lemma ResultScoresInRange(t: CaptureType, ev: DeviceCallbackEventArgument, i: int, k: int)
    requires var r := OnCall(t, ev); 0 <= i < |r.effects| && r.effects[i].Notify? && r.effects[i].call.OnImageResultCaptured?
    requires 0 <= k < |OnCall(t, ev).effects[i].call.segmentedFingerprints|
    ensures 1 <= OnCall(t, ev).effects[i].call.segmentedFingerprints[k].nfiqScore <= 5
  {
    match ev.eventId
    case Error =>
    case FingerImage =>
    case FingerDetect =>
      var segments := LastSegmentation(ev.arguments).value;
      var bitmap := LastImage(ev.arguments).value.bitmap;
      ExtractedGeometry(bitmap, segments, k);
    case OtherEventId =>
  }

  /** A FINGER_DETECT event makes at most one listener call, whatever it carries. */
  lemma FingerDetectCallsListenerAtMostOnce(t: CaptureType, args: seq<EventArgument>)
    ensures var r := OnCall(t, DeviceCallbackEventArgument(FingerDetect, args));
      forall i, j :: 0 <= i < j < |r.effects| ==> !(r.effects[i].Notify? && r.effects[j].Notify?)
  {
  }

  /** An exception raised while decoding the result image becomes exactly one capture-fail with its own message. */
  lemma DetectExceptionMessages(t: CaptureType, args: seq<EventArgument>, e: SdkException)
    requires LastImage(args) == Some(Raises(e))
    ensures var r := OnCall(t, DeviceCallbackEventArgument(FingerDetect, args));
      && !r.escapes
      && r.effects == [Notify(OnDeviceCaptureFail(DetectFailure(e)))]
      && (e.IOException? ==> DetectFailure(e) == "There was an error getting the fingerprint image result.")
      && (e.DICException? ==> DetectFailure(e) == "Couldn't capture the fingerprint.")
      && (e == NistQualityCheckException(None) ==> DetectFailure(e) == "null")
      && (forall m :: e == NistQualityCheckException(Some(m)) ==> DetectFailure(e) == m)
  {
  }

  /**
   * An ERROR event makes one capture-fail per error argument, in order, each
   * with that argument's message or "Unable to start capture."; it never
   * escapes, and other argument kinds add nothing.
   */
  lemma ErrorEventFailsPerErrorArgument(t: CaptureType, args: seq<EventArgument>)
    ensures var r := OnCall(t, DeviceCallbackEventArgument(Error, args));
      && !r.escapes
      && |r.effects| == |ErrorArguments(args)|
      && forall i :: 0 <= i < |r.effects| ==>
        r.effects[i] == Notify(OnDeviceCaptureFail(ErrorArguments(args)[i].message.OrElse("Unable to start capture.")))
  {
  }

  /** Event ids other than ERROR, FINGER_IMAGE and FINGER_DETECT do nothing. */
  lemma OtherEventsIgnored(t: CaptureType, args: seq<EventArgument>)
    ensures OnCall(t, DeviceCallbackEventArgument(OtherEventId, args)) == Reaction([], false)
  {
  }

  /**
   * The scenario of a two-finger capture on which the vendor reports two
   * segments: exactly one result call, with two fingerprints scored 1..5, then
   * `stopCapture`.
   */
  lemma TwoSegmentScenario(source: Bitmap, s0: FingerprintSegment, s1: FingerprintSegment)
    requires Allocatable(s0) && Allocatable(s1)
    ensures var r := OnCall(FingerprintCaptureTwo, DeviceCallbackEventArgument(FingerDetect,
        [ImageArgument(Decoded(source)), FingerprintSegmentationArgument([s0, s1])]));
      && !r.escapes
      && |r.effects| == 2 && r.effects[1] == StopCapture
      && r.effects[0].Notify? && r.effects[0].call.OnImageResultCaptured?
      && |r.effects[0].call.segmentedFingerprints| == 2
      && forall k :: 0 <= k < 2 ==> 1 <= r.effects[0].call.segmentedFingerprints[k].nfiqScore <= 5
  {
    var args := [ImageArgument(Decoded(source)), FingerprintSegmentationArgument([s0, s1])];
    assert LastImage(args) == Some(Decoded(source));
    assert LastSegmentation(args) == Some([s0, s1]);
  }

  /**
   * The scenario of a four-finger capture on which the vendor reports three
   * segments: exactly one capture-fail, no result and no `stopCapture`.
   */
  lemma ThreeSegmentsInFourFingerMode(source: Bitmap, s0: FingerprintSegment, s1: FingerprintSegment, s2: FingerprintSegment)
    requires Allocatable(s0) && Allocatable(s1) && Allocatable(s2)
    ensures OnCall(FingerprintCaptureFour, DeviceCallbackEventArgument(FingerDetect,
        [FingerprintSegmentationArgument([s0, s1, s2]), ImageArgument(Decoded(source))]))
      == Reaction([Notify(OnDeviceCaptureFail("Please use 3 fingers."))], false)
  {
    var args := [FingerprintSegmentationArgument([s0, s1, s2]), ImageArgument(Decoded(source))];
    assert LastImage(args) == Some(Decoded(source));
    assert LastSegmentation(args[..1]) == Some([s0, s1, s2]);
  }

  /**
   * Running out of memory is caught nowhere in FINGER_DETECT: while decoding
   * the image, or while allocating any segment's buffer, it leaves the
   * handler before any listener call and before `stopCapture`.
   */
  lemma DetectOutOfMemoryEscapes(t: CaptureType, args: seq<EventArgument>, segments: seq<FingerprintSegment>, k: int)
    requires || LastImage(args) == Some(DecodeRunsOutOfMemory)
             || (&& LastImage(args).Some? && LastImage(args).value.Decoded?
                 && LastSegmentation(args) == Some(segments)
                 && 0 <= k < |segments| && segments[k].crop.CropRunsOutOfMemory?)
    ensures OnCall(t, DeviceCallbackEventArgument(FingerDetect, args)) == Reaction([], true)
  {
  }

  /**
   * The other exceptions FINGER_DETECT does not catch: a missing image
   * argument (which the decoder refuses), a missing segmentation argument
   * (`!!`), and a segment whose target rectangle has a non-positive width or
   * height (which Android's bitmap allocation refuses). Each leaves the handler
   * before any listener call and before `stopCapture`.
   */
  lemma DetectMalformedEventEscapes(t: CaptureType, args: seq<EventArgument>, segments: seq<FingerprintSegment>, k: int)
    requires || LastImage(args).None?
             || (&& LastImage(args).Some? && LastImage(args).value.Decoded?
                 && LastSegmentation(args).None?)
             || (&& LastImage(args).Some? && LastImage(args).value.Decoded?
                 && LastSegmentation(args) == Some(segments)
                 && 0 <= k < |segments|
                 && (TargetRect(segments[k]).Width() <= 0 || TargetRect(segments[k]).Height() <= 0))
    ensures OnCall(t, DeviceCallbackEventArgument(FingerDetect, args)) == Reaction([], true)
  {
  }

  /**
   * In FINGER_IMAGE, an out-of-memory decode is not caught: the handler leaves
   * at that argument at the latest, so only image arguments before it can have
   * had their call.
   */
  lemma PreviewOutOfMemoryEscapes(t: CaptureType, args: seq<EventArgument>, k: int)
    requires 0 <= k < |args| && args[k] == ImageArgument(DecodeRunsOutOfMemory)
    ensures var r := OnCall(t, DeviceCallbackEventArgument(FingerImage, args));
      var before := |ImageArguments(args[..k])|;
      && r.escapes
      && |r.effects| < |ImageArguments(args)|
      && |r.effects| <= before
  {
    assert UncaughtPreview(args[k]);
  }

  /** An image argument sits in the filtered list right after the image arguments before it. */
  lemma ImageArgumentPosition(args: seq<EventArgument>, k: int)
    requires 0 <= k < |args| && args[k].ImageArgument?
    ensures |ImageArguments(args[..k])| < |ImageArguments(args)|
    ensures ImageArguments(args)[|ImageArguments(args[..k])|] == args[k]
  {
    assert args == args[..k] + args[k..];
    ImageArgumentsAppend(args[..k], args[k..]);
    assert args[k..] == [args[k]] + args[k + 1..];
    ImageArgumentsAppend([args[k]], args[k + 1..]);
    assert ImageArguments([args[k]]) == [args[k]];
  }
}
