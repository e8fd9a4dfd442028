/**
 * The Kojak per-capture listener: each typed callback of the vendor's scan
 * device listener, translated into the capture listener calls it makes, in
 * order, and the "finished" action (the adapter's device setup) it runs.
 */
module KojakListener {
  import opened Options
  import opened FingerprintDevice

  /** The vendor image types the adapter distinguishes; `OtherImageType` stands for rolled and single-finger types. */
  datatype ImageType = FlatTwoFingers | FlatFourFingers | OtherImageType

  /** The two kinds of failure the listener catches, each with its optional localized message. */
  datatype KojakFault = IBScanException(localizedMessage: Option<string>) | OutOfMemoryError(localizedMessage: Option<string>)

  /** The outcome of one vendor call. */
  datatype Attempt<+T> = Returns(value: T) | Throws(fault: KojakFault)

  /** One segment image: what turning it into a bitmap, then scoring it on the device, does. */
  datatype SegmentImage = SegmentImage(toBitmap: Attempt<Bitmap>, nfiqScore: Attempt<int>)

  datatype ScanDeviceEvent =
    | DeviceAcquisitionBegun
    | DeviceCommunicationBroken
    | DeviceWarningReceived
      /** `preview` is what rendering the preview (`createBmpEx`, then `toBitmap`) does. */
    | DeviceImagePreviewAvailable(preview: Attempt<Bitmap>)
      /** `prepare` is the fault, if any, of rendering the whole image before the segments. */
    | DeviceImageResultExtendedAvailable(imageType: ImageType, prepare: Option<KojakFault>,
                                         detectedFingerCount: int, segmentImageArray: seq<SegmentImage>)
    | DeviceFingerQualityChanged
    | DeviceImageResultAvailable
    | DeviceFingerCountChanged
    | DeviceAcquisitionCompleted
    | DevicePlatenStateChanged
    | DevicePressedKeyButtons(key: int)

  /** What the listener does, in order: a capture listener call, or its `onFinishedAction`. */
  datatype Effect = Notify(call: CaptureCall) | FinishedAction

  const CommunicationFailure := "Unable to communicate with the device"
  const PreviewDefault := "Unable to get image preview"
  const ResultDefault := "Couldn't get the results"
  const OutOfMemoryDefault := "Device ran out of memory"

  /** The finger count an image type is checked against; other types are not checked. */
  function ExpectedFingerCount(t: ImageType): Option<int> {
    match t
    case FlatTwoFingers => Some(2)
    case FlatFourFingers => Some(4)
    case OtherImageType => None
  }

  function MismatchMessage(t: ImageType): string
    requires ExpectedFingerCount(t).Some?
  {
    if t.FlatTwoFingers? then "Please use 2 fingers" else "Please use 4 fingers"
  }

  /** The first fault building one segment's fingerprint raises, if any. */
  function SegmentFault(s: SegmentImage): Option<KojakFault> {
    if s.toBitmap.Throws? then Some(s.toBitmap.fault)
    else if s.nfiqScore.Throws? then Some(s.nfiqScore.fault)
    else None
  }

  /**
   * The segment array mapped to fingerprints in order; the first segment whose
   * bitmap or score cannot be had aborts the whole map with its fault.
   */
  function BuildFingerprints(segments: seq<SegmentImage>): (r: Attempt<seq<Fingerprint>>)
    ensures r.Returns? <==> forall i :: 0 <= i < |segments| ==> SegmentFault(segments[i]).None?
    ensures r.Returns? ==> |r.value| == |segments|
    ensures r.Returns? ==> forall i :: 0 <= i < |segments| ==>
      r.value[i] == Fingerprint(segments[i].toBitmap.value, segments[i].nfiqScore.value)
    ensures r.Throws? ==> exists i :: (0 <= i < |segments| && SegmentFault(segments[i]) == Some(r.fault)
      && forall j :: 0 <= j < i ==> SegmentFault(segments[j]).None?)
  {
    if |segments| == 0 then Returns([])
    else match SegmentFault(segments[0])
      case Some(f) => Throws(f)
      case None =>
        var rest := BuildFingerprints(segments[1..]);
        assert forall i :: 1 <= i < |segments| ==> segments[1..][i - 1] == segments[i];
        match rest
        case Throws(f) =>
          var k :| 0 <= k < |segments[1..]| && SegmentFault(segments[1..][k]) == Some(f)
            && forall j :: 0 <= j < k ==> SegmentFault(segments[1..][j]).None?;
          assert SegmentFault(segments[k + 1]) == Some(f);
          rest
        case Returns(fps) =>
          Returns([Fingerprint(segments[0].toBitmap.value, segments[0].nfiqScore.value)] + fps)
  }

  /** A fault while producing the result: the message or its default; only a vendor exception also finishes. */
  function ResultFault(f: KojakFault): seq<Effect> {
    match f
    case IBScanException(m) => [Notify(OnDeviceCaptureFail(m.OrElse(ResultDefault))), FinishedAction]
    case OutOfMemoryError(m) => [Notify(OnDeviceCaptureFail(m.OrElse(OutOfMemoryDefault)))]
  }

  /** `deviceImageResultExtendedAvailable`. The count checked is the detected one, not the segment array's length. */
  function ResultAvailable(t: ImageType, prepare: Option<KojakFault>, detectedFingerCount: int,
                           segments: seq<SegmentImage>): seq<Effect>
  {
    if ExpectedFingerCount(t).Some? && detectedFingerCount != ExpectedFingerCount(t).value then
      [Notify(OnDeviceCaptureFail(MismatchMessage(t)))]
    else match prepare
      case Some(f) => ResultFault(f)
      case None =>
        match BuildFingerprints(segments)
        case Throws(f) => ResultFault(f)
        case Returns(fps) => [Notify(OnImageResultCaptured(fps)), FinishedAction]
  }

  /** `deviceImagePreviewAvailable`. */
  function PreviewAvailable(preview: Attempt<Bitmap>): seq<Effect> {
    match preview
    case Returns(b) => [Notify(OnImagePreviewCaptured(b))]
    case Throws(IBScanException(m)) => [Notify(OnDeviceCaptureFail(m.OrElse(PreviewDefault)))]
    case Throws(OutOfMemoryError(m)) => [Notify(OnDeviceCaptureFail(m.OrElse(OutOfMemoryDefault)))]
  }

  /** The listener's reaction to one callback. */
  function OnEvent(e: ScanDeviceEvent): seq<Effect> {
    match e
    case DeviceCommunicationBroken => [Notify(OnDeviceCaptureFail(CommunicationFailure)), FinishedAction]
    case DeviceImagePreviewAvailable(p) => PreviewAvailable(p)
    case DeviceImageResultExtendedAvailable(t, p, n, segs) => ResultAvailable(t, p, n, segs)
    case _ => []
  }

  /**
   * How the finished action ends. It is the adapter's device setup, which can
   * run out of memory allocating the working buffer or throw something the
   * listener never catches.
   */
  datatype FinishOutcome = Finishes | FinishRunsOutOfMemory(localizedMessage: Option<string>) | FinishThrows

  /** A callback's calls and finished action in order, and whether an exception leaves it. */
  datatype Reaction = Reaction(effects: seq<Effect>, escapes: bool)

  /** The reaction delivers a result first. */
  predicate DeliversResult(effects: seq<Effect>) {
    |effects| > 0 && effects[0].Notify? && effects[0].call.OnImageResultCaptured?
  }

  /**
   * The callback, with its finished action ending as `finish`. Only the finish
   * after a delivered result runs inside the result handler's `try`, whose
   * out-of-memory catch then reports a second time; a failing finish anywhere
   * else (after a broken connection, or in the vendor-exception catch) leaves
   * the callback.
   */
  function OnEventFinishing(e: ScanDeviceEvent, finish: FinishOutcome): Reaction {
    var effects := OnEvent(e);
    if FinishedAction !in effects || finish.Finishes? then Reaction(effects, false)
    else if DeliversResult(effects) && finish.FinishRunsOutOfMemory? then
      Reaction(effects + [Notify(OnDeviceCaptureFail(finish.localizedMessage.OrElse(OutOfMemoryDefault)))], false)
    else Reaction(effects, true)
  }

  /** An all-successful segment array: every segment yields a bitmap and a score. */
  predicate Renderable(segments: seq<SegmentImage>) {
    forall i :: 0 <= i < |segments| ==> segments[i].toBitmap.Returns? && segments[i].nfiqScore.Returns?
  }

  /** Two-finger images with another detected count: one "Please use 2 fingers", no result, no finish. */
  lemma TwoFingerMismatch(p: Option<KojakFault>, n: int, segs: seq<SegmentImage>)
    requires n != 2
    ensures OnEvent(DeviceImageResultExtendedAvailable(FlatTwoFingers, p, n, segs))
      == [Notify(OnDeviceCaptureFail("Please use 2 fingers"))]
  {
  }

  /** Four-finger images with another detected count: one "Please use 4 fingers", no result, no finish. */
  lemma FourFingerMismatch(p: Option<KojakFault>, n: int, segs: seq<SegmentImage>)
    requires n != 4
    ensures OnEvent(DeviceImageResultExtendedAvailable(FlatFourFingers, p, n, segs))
      == [Notify(OnDeviceCaptureFail("Please use 4 fingers"))]
  {
  }

  /** Other image types skip the count check: the detected count makes no difference. */
  lemma OtherImageTypeSkipsCount(p: Option<KojakFault>, n: int, m: int, segs: seq<SegmentImage>)
    ensures OnEvent(DeviceImageResultExtendedAvailable(OtherImageType, p, n, segs))
      == OnEvent(DeviceImageResultExtendedAvailable(OtherImageType, p, m, segs))
  {
  }

  /**
   * A result that passes the count check and renders: one result call with one
   * fingerprint per segment image, in order, each carrying that segment's
   * bitmap and the device's score for it; then the finished action.
   */
  lemma ResultDelivered(t: ImageType, n: int, segs: seq<SegmentImage>)
    requires ExpectedFingerCount(t).Some? ==> n == ExpectedFingerCount(t).value
    requires Renderable(segs)
    ensures var effects := OnEvent(DeviceImageResultExtendedAvailable(t, None, n, segs));
      && |effects| == 2
      && effects[1] == FinishedAction
      && effects[0].Notify? && effects[0].call.OnImageResultCaptured?
      && |effects[0].call.segmentedFingerprints| == |segs|
      && forall i :: 0 <= i < |segs| ==>
        effects[0].call.segmentedFingerprints[i] == Fingerprint(segs[i].toBitmap.value, segs[i].nfiqScore.value)
  {
    var r := BuildFingerprints(segs);
    assert r.Returns?;
  }

  /**
   * The check trusts the detected count: a two-finger image with two detected
   * fingers but three segment images delivers three fingerprints.
   */
  lemma DetectedCountNotSegmentCount(a: SegmentImage, b: SegmentImage, c: SegmentImage)
    requires Renderable([a, b, c])
    ensures var effects := OnEvent(DeviceImageResultExtendedAvailable(FlatTwoFingers, None, 2, [a, b, c]));
      effects[0].Notify? && effects[0].call.OnImageResultCaptured?
      && |effects[0].call.segmentedFingerprints| == 3
  {
    ResultDelivered(FlatTwoFingers, 2, [a, b, c]);
  }

  /**
   * A vendor exception while producing the result: one capture-fail with its
   * message or "Couldn't get the results", then the finished action. Running
   * out of memory: one capture-fail and no finished action.
   */
  lemma ResultFaults(t: ImageType, n: int, segs: seq<SegmentImage>, f: KojakFault)
    requires ExpectedFingerCount(t).Some? ==> n == ExpectedFingerCount(t).value
    ensures var effects := OnEvent(DeviceImageResultExtendedAvailable(t, Some(f), n, segs));
      && (f.IBScanException? ==>
           effects == [Notify(OnDeviceCaptureFail(f.localizedMessage.OrElse("Couldn't get the results"))), FinishedAction])
      && (f.OutOfMemoryError? ==>
           effects == [Notify(OnDeviceCaptureFail(f.localizedMessage.OrElse("Device ran out of memory")))])
  {
  }

  /** A segment that cannot be rendered fails the whole result with the first such segment's fault. */
  lemma SegmentFaultFailsResult(t: ImageType, n: int, segs: seq<SegmentImage>, k: int)
    requires ExpectedFingerCount(t).Some? ==> n == ExpectedFingerCount(t).value
    requires 0 <= k < |segs| && SegmentFault(segs[k]).Some?
    requires forall j :: 0 <= j < k ==> SegmentFault(segs[j]).None?
    ensures OnEvent(DeviceImageResultExtendedAvailable(t, None, n, segs)) == ResultFault(SegmentFault(segs[k]).value)
  {
    var r := BuildFingerprints(segs);
    assert r.Throws?;
    var i :| 0 <= i < |segs| && SegmentFault(segs[i]) == Some(r.fault)
      && forall j :: 0 <= j < i ==> SegmentFault(segs[j]).None?;
    assert i == k;
  }

  /** A broken connection: one "Unable to communicate with the device", then the finished action. */
  lemma CommunicationBrokenFinishes()
    ensures OnEvent(DeviceCommunicationBroken)
      == [Notify(OnDeviceCaptureFail("Unable to communicate with the device")), FinishedAction]
  {
  }

  /** A preview: exactly one call, the preview itself or a capture-fail with the fault's message or default. */
  lemma PreviewOneCall(p: Attempt<Bitmap>)
    ensures var effects := OnEvent(DeviceImagePreviewAvailable(p));
      && |effects| == 1
      && (p.Returns? ==> effects[0] == Notify(OnImagePreviewCaptured(p.value)))
      && (p.Throws? && p.fault.IBScanException? ==>
           effects[0] == Notify(OnDeviceCaptureFail(p.fault.localizedMessage.OrElse("Unable to get image preview"))))
      && (p.Throws? && p.fault.OutOfMemoryError? ==>
           effects[0] == Notify(OnDeviceCaptureFail(p.fault.localizedMessage.OrElse("Device ran out of memory"))))
  {
  }

  /** The callbacks the adapter does not support make no calls at all. */
  lemma UnsupportedCallbacksSilent(e: ScanDeviceEvent)
    requires !e.DeviceCommunicationBroken? && !e.DeviceImagePreviewAvailable? && !e.DeviceImageResultExtendedAvailable?
    ensures OnEvent(e) == []
  {
  }

  /**
   * With a finished action that completes, every callback makes at most one
   * listener call, and that call comes first; the finished action, when it
   * runs, comes last and only after a capture-fail or a result.
   */
  lemma AtMostOneListenerCall(e: ScanDeviceEvent)
    ensures var effects := OnEvent(e);
      && |effects| <= 2
      && (|effects| > 0 ==> effects[0].Notify?)
      && (|effects| == 2 ==> effects[1] == FinishedAction)
      && (FinishedAction in effects ==> !effects[0].call.OnImagePreviewCaptured?)
  {
  }

  /**
   * A finish that completes changes nothing, and a callback without a finished
   * action ignores how one would end.
   */
  lemma FinishOnlyMattersWhenRun(e: ScanDeviceEvent, finish: FinishOutcome)
    ensures OnEventFinishing(e, Finishes) == Reaction(OnEvent(e), false)
    ensures FinishedAction !in OnEvent(e) ==> OnEventFinishing(e, finish) == Reaction(OnEvent(e), false)
  {
  }

  /**
   * A delivered result whose finished action runs out of memory: the result,
   * the finish, then a second call, the capture-fail with the error's message
   * or "Device ran out of memory"; nothing escapes.
   */
  lemma ResultThenFinishOutOfMemory(t: ImageType, n: int, segs: seq<SegmentImage>, m: Option<string>)
    requires ExpectedFingerCount(t).Some? ==> n == ExpectedFingerCount(t).value
    requires Renderable(segs)
    ensures var r := OnEventFinishing(DeviceImageResultExtendedAvailable(t, None, n, segs), FinishRunsOutOfMemory(m));
      && !r.escapes
      && |r.effects| == 3
      && r.effects[0] == OnEvent(DeviceImageResultExtendedAvailable(t, None, n, segs))[0]
      && r.effects[0].Notify? && r.effects[0].call.OnImageResultCaptured?
      && r.effects[1] == FinishedAction
      && r.effects[2] == Notify(OnDeviceCaptureFail(m.OrElse("Device ran out of memory")))
  {
    ResultDelivered(t, n, segs);
  }

  /**
   * Outside a delivered result, a finished action that fails in any way leaves
   * the callback after the listener's one call; so does one after a result that
   * throws something other than running out of memory.
   */
  lemma FailingFinishEscapes(e: ScanDeviceEvent, finish: FinishOutcome)
    requires FinishedAction in OnEvent(e) && !finish.Finishes?
    requires !DeliversResult(OnEvent(e)) || finish.FinishThrows?
    ensures OnEventFinishing(e, finish) == Reaction(OnEvent(e), true)
  {
  }

  /**
   * Whatever the finish does, a callback makes at most two listener calls; a
   * second comes only after a delivered result, as the out-of-memory report of
   * its finished action.
   */
  lemma AtMostTwoListenerCalls(e: ScanDeviceEvent, finish: FinishOutcome)
    ensures var r := OnEventFinishing(e, finish);
      && |r.effects| <= 3
      && (|r.effects| == 3 ==>
           DeliversResult(r.effects) && r.effects[1] == FinishedAction
           && finish.FinishRunsOutOfMemory? && r.effects[2].Notify? && r.effects[2].call.OnDeviceCaptureFail?)
      && (|r.effects| <= 2 ==> r.effects == OnEvent(e))
  {
    AtMostOneListenerCall(e);
  }
}
