/**
 * The Kojak adapter's device lifecycle: discovering and opening a scanner
 * through the vendor's scan listener, the post-open setup that allocates the
 * working buffer, closing, and starting a capture. Each operation is one serial
 * step from an adapter state to a new state, the vendor commands it issued, the
 * listener calls it made, and whether an exception left it uncaught.
 */
module KojakDevice {
  import opened Options
  import opened FingerprintDevice
  import KojakListener

  /** An opened vendor device handle; opaque. */
  datatype ScanDevice = ScanDevice(handle: nat)

  /** One entry of the USB manager's device list. */
  datatype UsbDevice = UsbDevice(deviceId: int, isScanDevice: bool, hasPermission: bool)

  /** The reusable bitmap the adapter allocates for KOJAK devices, of the device's rolled-image size. */
  datatype WorkingBuffer = WorkingBuffer(width: int, height: int)

  /** Whether allocating a buffer of a valid size succeeds or runs out of memory. */
  datatype Allocation = Allocates | AllocationRunsOutOfMemory(localizedMessage: Option<string>)

  /**
   * What reading the device properties yields: the values, or the vendor
   * exception with its message; with the values, how allocating the working
   * buffer of that size would go.
   */
  datatype DeviceProperties =
    | PropertiesRaise(localizedMessage: Option<string>)
    | Properties(productId: string, rolledImageWidth: int, rolledImageHeight: int, allocation: Allocation)

  /** Whether a vendor call goes through or raises a vendor exception. */
  datatype VendorCall = Completes | Raises(localizedMessage: Option<string>)

  /** What `refreshScanner` finds: the vendor's device count, how opening device 0 goes, the USB device list. */
  datatype Discovery = Discovery(deviceCount: int, open: VendorCall, usbDevices: seq<UsbDevice>)

  datatype ImageResolution = Resolution500
  datatype CaptureOption = AutoCapture | AutoContrast

  /** The options every capture uses. */
  const CaptureOptions: set<CaptureOption> := {AutoCapture, AutoContrast}

  /** The per-capture listener registered on a device, with the buffer and capture listener it was built with. */
  datatype Registration = KojakScanDeviceListener(device: ScanDevice, kojakBitmap: WorkingBuffer, captureListener: CaptureListener)

  datatype Command =
    | CloseDevice(device: ScanDevice)
    | SetScanListener
    | OpenDeviceAsync(deviceIndex: nat)
    | RequestPermission(deviceId: int)
    | SetScanDeviceListener(device: ScanDevice, listener: Registration)
    | BeginCaptureImage(device: ScanDevice, imageType: KojakListener.ImageType, resolution: ImageResolution, options: set<CaptureOption>)

  /** The adapter's fields; `scanListenerSet` records whether the scan listener was installed. */
  datatype State = State(
    scannerDevice: Option<ScanDevice>,
    capturedKojakBitmap: Option<WorkingBuffer>,
    kojakInitListener: Option<InitListener>,
    scanListenerSet: bool,
    registration: Option<Registration>)

  const Initial := State(None, None, None, false, None)

  datatype Step = Step(state: State, commands: seq<Command>, initNotices: seq<InitNotice>,
                       captureNotices: seq<CaptureNotice>, escapes: bool)

  function Quiet(s: State, commands: seq<Command>): Step {
    Step(s, commands, [], [], false)
  }

  /** `kojakInitListener?.call(...)` followed by `kojakInitListener = null`. */
  function Tell(s: State, commands: seq<Command>, call: InitCall): Step {
    var notices := if s.kojakInitListener.Some? then [InitNotice(s.kojakInitListener.value, call)] else [];
    Step(s.(kojakInitListener := None), commands, notices, [], false)
  }

  /** The vendor image type each capture type asks for. */
  function ImageTypeFor(t: CaptureType): KojakListener.ImageType {
    match t
    case FingerprintCaptureTwo => KojakListener.FlatTwoFingers
    case FingerprintCaptureFour => KojakListener.FlatFourFingers
  }

  /** `closeScanner`: close a held device and forget it. */
  function CloseScanner(s: State): Step {
    match s.scannerDevice
    case Some(d) => Quiet(s.(scannerDevice := None), [CloseDevice(d)])
    case None => Quiet(s, [])
  }

  /** Whether the USB device list holds a scan device. */
  predicate HasScanDevice(usb: seq<UsbDevice>) {
    exists i :: 0 <= i < |usb| && usb[i].isScanDevice
  }

  /** A scan device the app has no USB permission for yet. */
  predicate NeedsPermission(u: UsbDevice) {
    u.isScanDevice && !u.hasPermission
  }

  /** A permission request for every scan device lacking permission, in list order. */
  function PermissionRequests(usb: seq<UsbDevice>): (cmds: seq<Command>)
    ensures forall i :: 0 <= i < |usb| && NeedsPermission(usb[i]) ==> RequestPermission(usb[i].deviceId) in cmds
    ensures forall c :: c in cmds ==> exists i :: 0 <= i < |usb| && NeedsPermission(usb[i]) && c == RequestPermission(usb[i].deviceId)
    ensures !HasScanDevice(usb) ==> cmds == []
  {
    if |usb| == 0 then []
    else
      var rest := PermissionRequests(usb[1..]);
      assert forall i :: 1 <= i < |usb| ==> usb[1..][i - 1] == usb[i];
      assert forall c :: c in rest ==> exists i :: 0 <= i < |usb| && NeedsPermission(usb[i]) && c == RequestPermission(usb[i].deviceId) by {
        forall c | c in rest
          ensures exists i :: 0 <= i < |usb| && NeedsPermission(usb[i]) && c == RequestPermission(usb[i].deviceId)
        {
          var k :| 0 <= k < |usb[1..]| && NeedsPermission(usb[1..][k]) && c == RequestPermission(usb[1..][k].deviceId);
          assert usb[k + 1] == usb[1..][k];
        }
      }
      if NeedsPermission(usb[0]) then [RequestPermission(usb[0].deviceId)] + rest else rest
  }

  /**
   * `refreshScanner`: with vendor devices present, open device 0; otherwise
   * request permission for each scan device lacking it, and report "No Scanner
   * found" only when the USB list holds no scan device at all.
   */
  function RefreshScanner(s: State, env: Discovery): Step {
    if env.deviceCount > 0 then
      match env.open
      case Completes => Quiet(s, [OpenDeviceAsync(0)])
      case Raises(m) => Tell(s, [OpenDeviceAsync(0)], OnDeviceInitFail(m.OrElse("Unable to open device.")))
    else
      var requests := PermissionRequests(env.usbDevices);
      if HasScanDevice(env.usbDevices) then Quiet(s, requests)
      else Tell(s, requests, OnDeviceInitFail("No Scanner found"))
  }

  /**
   * How the setup ends, as seen by its caller: only the vendor exception is
   * caught inside it; for a KOJAK product, a non-positive size (which Android
   * refuses) and running out of memory while allocating both leave it.
   */
  function SetupOutcome(props: DeviceProperties): KojakListener.FinishOutcome {
    match props
    case PropertiesRaise(_) => KojakListener.Finishes
    case Properties(productId, w, h, alloc) =>
      if productId != "KOJAK" then KojakListener.Finishes
      else if !(w > 0 && h > 0) then KojakListener.FinishThrows
      else match alloc
        case Allocates => KojakListener.Finishes
        case AllocationRunsOutOfMemory(m) => KojakListener.FinishRunsOutOfMemory(m)
  }

  /**
   * `setupDeviceForCapture`: for a KOJAK product, allocate the working buffer
   * at the rolled-image size; a vendor exception is reported to the init
   * listener, if one is stored. An exception that leaves it changes nothing.
   */
  function SetupDeviceForCapture(s: State, props: DeviceProperties): (r: Step)
    ensures r.escapes <==> !SetupOutcome(props).Finishes?
    ensures r.escapes ==> r == Step(s, [], [], [], true)
    ensures r.commands == [] && r.captureNotices == []
  {
    match props
    case PropertiesRaise(m) => Tell(s, [], OnDeviceInitFail(m.OrElse("Unable to setup device.")))
    case Properties(productId, w, h, alloc) =>
      if productId != "KOJAK" then Quiet(s, [])
      else if w > 0 && h > 0 && alloc.Allocates? then Quiet(s.(capturedKojakBitmap := Some(WorkingBuffer(w, h))), [])
      else Step(s, [], [], [], true)
  }

  /** `scanDeviceOpenComplete`: keep a delivered device, set it up, report it opened; a missing device changes nothing. */
  function OpenComplete(s: State, device: Option<ScanDevice>, props: DeviceProperties): Step {
    match device
    case None => Quiet(s, [])
    case Some(d) =>
      var setup := SetupDeviceForCapture(s.(scannerDevice := Some(d)), props);
      if setup.escapes then setup
      else
        var told := Tell(setup.state, [], OnDeviceOpened);
        Step(told.state, setup.commands, setup.initNotices + told.initNotices, [], false)
  }

  /** The callbacks of the vendor's scan listener. */
  datatype ScanEvent =
    | ScanDeviceAttached(deviceId: int, hasPermission: bool)
    | ScanDeviceCountChanged(deviceCount: int)
    | ScanDevicePermissionGranted(deviceId: int, granted: bool, discovery: Discovery)
    | ScanDeviceInitProgress(deviceIndex: int, progressValue: int)
    | ScanDeviceOpenComplete(deviceIndex: int, device: Option<ScanDevice>, exceptionReported: bool, properties: DeviceProperties)
    | ScanDeviceDetached(deviceId: int)

  /** The scan listener installed by `initializeScanner`; nothing happens before it is installed. */
  function OnScanEvent(s: State, e: ScanEvent): Step {
    if !s.scanListenerSet then Quiet(s, [])
    else match e
      case ScanDeviceAttached(id, permitted) => Quiet(s, if permitted then [] else [RequestPermission(id)])
      case ScanDevicePermissionGranted(_, _, env) => RefreshScanner(s, env)
      case ScanDeviceOpenComplete(_, device, _, props) => OpenComplete(s, device, props)
      case _ => Quiet(s, [])
  }

  /**
   * `initializeScanner` as written: close, install the scan listener, refresh.
   * The listener argument is never stored.
   */
  function InitializeScanner(s: State, l: InitListener, env: Discovery): Step {
    var closed := CloseScanner(s);
    var refreshed := RefreshScanner(closed.state.(scanListenerSet := true), env);
    Step(refreshed.state, closed.commands + [SetScanListener] + refreshed.commands,
         refreshed.initNotices, [], false)
  }

  /** `initializeScanner` as evidently intended: the same, with the listener stored before refreshing. */
  function InitializeScannerStoringListener(s: State, l: InitListener, env: Discovery): Step {
    var closed := CloseScanner(s);
    var refreshed := RefreshScanner(closed.state.(scanListenerSet := true, kojakInitListener := Some(l)), env);
    Step(refreshed.state, closed.commands + [SetScanListener] + refreshed.commands,
         refreshed.initNotices, [], false)
  }

  /**
   * `startCapture`: without a device nothing happens; with a device but no
   * working buffer the `!!` throws; otherwise register the per-capture listener
   * and begin capturing, reporting a refused start to the capture listener.
   */
  function StartCapture(s: State, t: CaptureType, cl: CaptureListener, begin: VendorCall): Step {
    match s.scannerDevice
    case None => Quiet(s, [])
    case Some(d) =>
      match s.capturedKojakBitmap
      case None => Step(s, [], [], [], true)
      case Some(buffer) =>
        var reg := KojakScanDeviceListener(d, buffer, cl);
        var commands := [SetScanDeviceListener(d, reg), BeginCaptureImage(d, ImageTypeFor(t), Resolution500, CaptureOptions)];
        var fails := match begin
          case Completes => []
          case Raises(m) => [CaptureNotice(cl, OnDeviceCaptureFail(m.OrElse("Unable to start capture")))];
        Step(s.(registration := Some(reg)), commands, [], fails, false)
  }

  /** The capture listener calls among a listener's effects, addressed to `cl`. */
  function Addressed(effects: seq<KojakListener.Effect>, cl: CaptureListener): (notices: seq<CaptureNotice>)
    ensures |notices| <= |effects|
    ensures forall n :: n in notices ==> n.listener == cl && KojakListener.Notify(n.call) in effects
  {
    if |effects| == 0 then []
    else
      var rest := Addressed(effects[1..], cl);
      match effects[0]
      case Notify(call) => [CaptureNotice(cl, call)] + rest
      case FinishedAction => rest
  }

  /**
   * A callback reaches the registered per-capture listener; its finished action
   * re-runs the device setup, with `props` what the device reports then, and
   * the listener sees how that setup ends.
   */
  function OnCaptureEvent(s: State, e: KojakListener.ScanDeviceEvent, props: DeviceProperties): Step {
    match s.registration
    case None => Quiet(s, [])
    case Some(reg) =>
      var reaction := KojakListener.OnEventFinishing(e, SetupOutcome(props));
      var notices := Addressed(reaction.effects, reg.captureListener);
      if KojakListener.FinishedAction in reaction.effects then
        var setup := SetupDeviceForCapture(s, props);
        Step(setup.state, [], setup.initNotices, notices, reaction.escapes)
      else Step(s, [], [], notices, false)
  }

  /** Everything that can happen to the adapter, one serial step at a time. */
  datatype Action =
    | Initialize(listener: InitListener, discovery: Discovery)
    | Refresh(discovery: Discovery)
    | ScanListenerEvent(event: ScanEvent)
    | Close
    | Capture(captureType: CaptureType, captureListener: CaptureListener, begin: VendorCall)
    | CaptureListenerEvent(deviceEvent: KojakListener.ScanDeviceEvent, properties: DeviceProperties)

  function Apply(s: State, a: Action): Step {
    match a
    case Initialize(l, env) => InitializeScanner(s, l, env)
    case Refresh(env) => RefreshScanner(s, env)
    case ScanListenerEvent(e) => OnScanEvent(s, e)
    case Close => CloseScanner(s)
    case Capture(t, cl, begin) => StartCapture(s, t, cl, begin)
    case CaptureListenerEvent(e, props) => OnCaptureEvent(s, e, props)
  }

  /** A run of actions: the final state with every init callback made along the way. */
  function Run(s: State, actions: seq<Action>): (r: Step) {
    if |actions| == 0 then Quiet(s, [])
    else
      var before := Run(s, actions[..|actions| - 1]);
      var last := Apply(before.state, actions[|actions| - 1]);
      Step(last.state, before.commands + last.commands, before.initNotices + last.initNotices,
           before.captureNotices + last.captureNotices, before.escapes || last.escapes)
  }

  /** No step stores an init listener, so while none is stored, no step fires an init callback. */
  lemma NoStepStoresListener(s: State, a: Action)
    requires s.kojakInitListener == None
    ensures Apply(s, a).state.kojakInitListener == None
    ensures Apply(s, a).initNotices == []
  {
  }

  /**
   * As written, no init callback ever reaches any caller, whatever happens:
   * the listener passed to `initializeScanner` is dropped.
   */
  lemma {:induction false} CallerNeverHearsInit(actions: seq<Action>)
    ensures Run(Initial, actions).initNotices == []
    ensures Run(Initial, actions).state.kojakInitListener == None
  {
    if |actions| > 0 {
      CallerNeverHearsInit(actions[..|actions| - 1]);
      var before := Run(Initial, actions[..|actions| - 1]);
      NoStepStoresListener(before.state, actions[|actions| - 1]);
    }
  }

  /** As written, even with no scanner attached the caller is never told. */
  lemma NoScannerGoesUnreported(l: InitListener, env: Discovery)
    requires env.deviceCount <= 0 && !HasScanDevice(env.usbDevices)
    ensures InitializeScanner(Initial, l, env).initNotices == []
  {
  }

  /** With the listener stored, no scanner attached reaches it as exactly one "No Scanner found". */
  lemma StoredListenerHearsNoScanner(s: State, l: InitListener, env: Discovery)
    requires env.deviceCount <= 0 && !HasScanDevice(env.usbDevices)
    ensures var r := InitializeScannerStoringListener(s, l, env);
      && r.initNotices == [InitNotice(l, OnDeviceInitFail("No Scanner found"))]
      && r.state.kojakInitListener == None
  {
  }

  /** With the listener stored, a device that opens and sets up reaches it as exactly one "opened". */
  lemma StoredListenerHearsOpened(s: State, l: InitListener, env: Discovery, d: ScanDevice, props: DeviceProperties)
    requires env.deviceCount > 0 && env.open.Completes?
    requires props.Properties? && SetupOutcome(props).Finishes?
    ensures var init := InitializeScannerStoringListener(s, l, env);
      var done := OnScanEvent(init.state, ScanDeviceOpenComplete(0, Some(d), false, props));
      && init.initNotices == []
      && done.initNotices == [InitNotice(l, OnDeviceOpened)]
      && done.state.scannerDevice == Some(d)
      && done.state.kojakInitListener == None
  {
  }

  /** `closeScanner` closes a held device once and forgets it, so a second call does nothing. */
  lemma CloseIsIdempotent(s: State)
    ensures var once := CloseScanner(s);
      && once.state.scannerDevice == None
      && once.state == s.(scannerDevice := None)
      && (s.scannerDevice.Some? ==> once.commands == [CloseDevice(s.scannerDevice.value)])
      && (s.scannerDevice.None? ==> once.commands == [])
      && CloseScanner(once.state) == Quiet(once.state, [])
  {
  }

  /** Each capture type asks for the image type whose count check expects that type's finger count. */
  lemma ImageTypeMatchesCaptureType(t: CaptureType, u: CaptureType)
    ensures KojakListener.ExpectedFingerCount(ImageTypeFor(t)) == Some(RequiredFingers(t) as int)
    ensures ImageTypeFor(t) == ImageTypeFor(u) ==> t == u
  {
  }

  /**
   * `startCapture` on a set-up device registers the listener, then begins a
   * capture of the mapped image type at 500 ppi with auto-capture and
   * auto-contrast; a refused start makes exactly one capture-fail.
   */
  lemma StartCaptureBegins(s: State, t: CaptureType, cl: CaptureListener, begin: VendorCall, d: ScanDevice, b: WorkingBuffer)
    requires s.scannerDevice == Some(d) && s.capturedKojakBitmap == Some(b)
    ensures var r := StartCapture(s, t, cl, begin);
      && !r.escapes
      && r.commands == [SetScanDeviceListener(d, KojakScanDeviceListener(d, b, cl)),
                        BeginCaptureImage(d, ImageTypeFor(t), Resolution500, {AutoCapture, AutoContrast})]
      && r.state == s.(registration := Some(KojakScanDeviceListener(d, b, cl)))
      && (begin.Completes? ==> r.captureNotices == [])
      && (begin.Raises? ==>
           r.captureNotices == [CaptureNotice(cl, OnDeviceCaptureFail(begin.localizedMessage.OrElse("Unable to start capture")))])
      && r.initNotices == []
  {
  }

  /** Without a device `startCapture` does nothing; with a device but no working buffer it throws before any call. */
  lemma StartCaptureGuards(s: State, t: CaptureType, cl: CaptureListener, begin: VendorCall)
    requires s.scannerDevice.None? || s.capturedKojakBitmap.None?
    ensures var r := StartCapture(s, t, cl, begin);
      && r.commands == [] && r.captureNotices == [] && r.state == s
      && (r.escapes <==> s.scannerDevice.Some?)
  {
  }

  /**
   * With vendor devices present, `refreshScanner` opens device 0; a refused
   * open reaches a stored listener as one init-fail with the exception's message
   * or "Unable to open device.", and clears it.
   */
  lemma RefreshOpensFirstDevice(s: State, env: Discovery)
    requires env.deviceCount > 0
    ensures var r := RefreshScanner(s, env);
      && r.commands == [OpenDeviceAsync(0)]
      && (env.open.Completes? ==> r.state == s && r.initNotices == [])
      && (env.open.Raises? ==> r.state == s.(kojakInitListener := None))
      && (env.open.Raises? && s.kojakInitListener.Some? ==>
           r.initNotices == [InitNotice(s.kojakInitListener.value, OnDeviceInitFail(env.open.localizedMessage.OrElse("Unable to open device.")))])
  {
  }

  /**
   * Without vendor devices, `refreshScanner` requests permission for exactly
   * the scan devices lacking it. A stored listener hears "No Scanner found"
   * exactly when there is no scan device; with none stored (as in every state
   * the adapter as written reaches) nobody hears anything.
   */
  lemma RefreshRequestsPermissions(s: State, env: Discovery)
    requires env.deviceCount <= 0
    ensures var r := RefreshScanner(s, env);
      && (forall i :: 0 <= i < |env.usbDevices| && NeedsPermission(env.usbDevices[i]) ==>
            RequestPermission(env.usbDevices[i].deviceId) in r.commands)
      && (forall c :: c in r.commands ==>
            exists i :: 0 <= i < |env.usbDevices| && NeedsPermission(env.usbDevices[i]) && c == RequestPermission(env.usbDevices[i].deviceId))
      && (s.kojakInitListener.None? ==> r.initNotices == [] && r.state == s)
      && (s.kojakInitListener.Some? ==>
           (r.initNotices == [InitNotice(s.kojakInitListener.value, OnDeviceInitFail("No Scanner found"))] <==> !HasScanDevice(env.usbDevices)))
      && (HasScanDevice(env.usbDevices) ==> r.initNotices == [] && r.state == s)
      && (!HasScanDevice(env.usbDevices) ==> r.state == s.(kojakInitListener := None))
  {
  }

  /**
   * Only a KOJAK product allocates, at the rolled-image size, when the size is
   * positive and memory suffices; otherwise a KOJAK product's setup leaves by
   * an exception, and any other product's setup does nothing.
   */
  lemma SetupAllocatesOnlyForKojak(s: State, props: DeviceProperties)
    requires props.Properties?
    ensures var r := SetupDeviceForCapture(s, props);
      && r.state.scannerDevice == s.scannerDevice
      && r.initNotices == [] && r.commands == []
      && (r.state.capturedKojakBitmap != s.capturedKojakBitmap ==> props.productId == "KOJAK")
      && (props.productId == "KOJAK" && props.rolledImageWidth > 0 && props.rolledImageHeight > 0 && props.allocation.Allocates? ==>
           r.state == s.(capturedKojakBitmap := Some(WorkingBuffer(props.rolledImageWidth, props.rolledImageHeight))) && !r.escapes)
      && (props.productId == "KOJAK" && !(props.rolledImageWidth > 0 && props.rolledImageHeight > 0) ==>
           r.escapes && r.state == s && SetupOutcome(props).FinishThrows?)
      && (props.productId == "KOJAK" && props.rolledImageWidth > 0 && props.rolledImageHeight > 0 && props.allocation.AllocationRunsOutOfMemory? ==>
           r.escapes && r.state == s && SetupOutcome(props) == KojakListener.FinishRunsOutOfMemory(props.allocation.localizedMessage))
      && (props.productId != "KOJAK" ==> r.state == s && !r.escapes)
  {
  }

  /**
   * A vendor exception while reading the properties is caught: a stored
   * listener hears its message or "Unable to setup device." and is cleared;
   * nothing else changes and nothing escapes.
   */
  lemma SetupReportsVendorException(s: State, m: Option<string>)
    ensures var r := SetupDeviceForCapture(s, PropertiesRaise(m));
      && !r.escapes
      && r.state == s.(kojakInitListener := None)
      && (s.kojakInitListener.Some? ==>
           r.initNotices == [InitNotice(s.kojakInitListener.value, OnDeviceInitFail(m.OrElse("Unable to setup device.")))])
      && (s.kojakInitListener.None? ==> r.initNotices == [])
  {
  }

  /**
   * Open complete with a device: it is kept and set up. A setup that finishes
   * tells a stored listener "opened" once, unless the property read failed, in
   * which case it was already told the setup failure and cleared, so "opened"
   * reaches nobody. A setup that throws leaves the handler with the device
   * kept. Without a device nothing changes.
   */
  lemma OpenCompleteKeepsDevice(s: State, device: Option<ScanDevice>, props: DeviceProperties)
    requires s.scanListenerSet
    ensures var r := OnScanEvent(s, ScanDeviceOpenComplete(0, device, false, props));
      && (device.None? ==> r == Quiet(s, []))
      && (device.Some? ==>
           && r.state.scannerDevice == device
           && r.commands == []
           && (r.escapes <==> !SetupOutcome(props).Finishes?)
           && (r.escapes ==> r.state == s.(scannerDevice := device) && r.initNotices == [])
           && (!r.escapes ==> r.state.kojakInitListener == None)
           && (!r.escapes ==> r.state == SetupDeviceForCapture(s.(scannerDevice := device), props).state.(kojakInitListener := None))
           && (s.kojakInitListener.None? ==> r.initNotices == [])
           && (props.PropertiesRaise? ==> !r.escapes && r.state == s.(scannerDevice := device, kojakInitListener := None))
           && (props.PropertiesRaise? && s.kojakInitListener.Some? ==>
                r.initNotices == [InitNotice(s.kojakInitListener.value, OnDeviceInitFail(props.localizedMessage.OrElse("Unable to setup device.")))])
           && (props.Properties? && !r.escapes ==>
                && r.state.capturedKojakBitmap == SetupDeviceForCapture(s.(scannerDevice := device), props).state.capturedKojakBitmap
                && (s.kojakInitListener.Some? ==> r.initNotices == [InitNotice(s.kojakInitListener.value, OnDeviceOpened)])
                && (s.kojakInitListener.None? ==> r.initNotices == [])))
  {
  }

  /** The capture listener calls of consecutive effects are those of each part, in order. */
  lemma {:induction false} AddressedAppend(a: seq<KojakListener.Effect>, b: seq<KojakListener.Effect>, cl: CaptureListener)
    ensures Addressed(a + b, cl) == Addressed(a, cl) + Addressed(b, cl)
  {
    if |a| > 0 {
      assert (a + b)[1..] == a[1..] + b;
      AddressedAppend(a[1..], b, cl);
    } else {
      assert a + b == b;
    }
  }

  /**
   * A broken connection reaches the registered capture listener as one
   * "Unable to communicate with the device", and the device setup runs again.
   */
  lemma CommunicationBrokenResets(s: State, reg: Registration, props: DeviceProperties)
    requires s.registration == Some(reg)
    ensures var r := OnCaptureEvent(s, KojakListener.DeviceCommunicationBroken, props);
      && r.captureNotices == [CaptureNotice(reg.captureListener, OnDeviceCaptureFail("Unable to communicate with the device"))]
      && r.state == SetupDeviceForCapture(s, props).state
      && (r.escapes <==> !SetupOutcome(props).Finishes?)
  {
    var effects := KojakListener.OnEvent(KojakListener.DeviceCommunicationBroken);
    var cl := reg.captureListener;
    assert effects[1..] == [KojakListener.FinishedAction];
    assert Addressed(effects[1..][1..], cl) == [];
    assert Addressed(effects[1..], cl) == [];
    assert Addressed(effects, cl) == [CaptureNotice(cl, OnDeviceCaptureFail("Unable to communicate with the device"))] + [];
  }

  /** A call, a finished action and a second call reach the capture listener as the two calls. */
  lemma AddressedNotifyFinishNotify(first: CaptureCall, second: CaptureCall, cl: CaptureListener)
    ensures Addressed([KojakListener.Notify(first), KojakListener.FinishedAction, KojakListener.Notify(second)], cl)
      == [CaptureNotice(cl, first), CaptureNotice(cl, second)]
  {
    var one, finish, two := [KojakListener.Notify(first)], [KojakListener.FinishedAction], [KojakListener.Notify(second)];
    assert one[1..] == [] && finish[1..] == [] && two[1..] == [];
    AddressedAppend(one, finish + two, cl);
    AddressedAppend(finish, two, cl);
    assert one + (finish + two) == [KojakListener.Notify(first), KojakListener.FinishedAction, KojakListener.Notify(second)];
  }

  /**
   * A delivered result whose finished action runs out of memory allocating the
   * buffer: the capture listener hears the result, then a second call, the
   * capture-fail "Device ran out of memory" (or the error's message); nothing
   * escapes and the adapter state is unchanged.
   */
  lemma ResultThenSetupOutOfMemory(s: State, reg: Registration, t: KojakListener.ImageType, n: int,
                                   segs: seq<KojakListener.SegmentImage>, w: int, h: int, m: Option<string>)
    requires s.registration == Some(reg)
    requires KojakListener.ExpectedFingerCount(t).Some? ==> n == KojakListener.ExpectedFingerCount(t).value
    requires KojakListener.Renderable(segs)
    requires w > 0 && h > 0
    ensures var r := OnCaptureEvent(s, KojakListener.DeviceImageResultExtendedAvailable(t, None, n, segs),
                                    Properties("KOJAK", w, h, AllocationRunsOutOfMemory(m)));
      && !r.escapes
      && r.state == s
      && |r.captureNotices| == 2
      && r.captureNotices[0].listener == reg.captureListener
      && r.captureNotices[0].call.OnImageResultCaptured?
      && r.captureNotices[1] == CaptureNotice(reg.captureListener, OnDeviceCaptureFail(m.OrElse("Device ran out of memory")))
  {
    var e := KojakListener.DeviceImageResultExtendedAvailable(t, None, n, segs);
    var props := Properties("KOJAK", w, h, AllocationRunsOutOfMemory(m));
    assert SetupOutcome(props) == KojakListener.FinishRunsOutOfMemory(m);
    KojakListener.ResultThenFinishOutOfMemory(t, n, segs, m);
    var effects := KojakListener.OnEventFinishing(e, SetupOutcome(props)).effects;
    var fail := OnDeviceCaptureFail(m.OrElse("Device ran out of memory"));
    assert effects == [KojakListener.Notify(effects[0].call), KojakListener.FinishedAction, KojakListener.Notify(fail)];
    AddressedNotifyFinishNotify(effects[0].call, fail, reg.captureListener);
  }

  /**
   * Only the registered capture listener hears capture callbacks, and they
   * never issue commands, replace the registration or the device; a callback
   * without a finished action changes nothing else. Without a registration
   * nothing happens.
   */
  lemma CaptureEventsReachRegisteredListener(s: State, e: KojakListener.ScanDeviceEvent, props: DeviceProperties)
    ensures var r := OnCaptureEvent(s, e, props);
      && (s.registration.None? ==> r == Quiet(s, []))
      && (s.registration.Some? ==>
           && r.commands == []
           && (forall n :: n in r.captureNotices ==> n.listener == s.registration.value.captureListener)
           && r.state.registration == s.registration
           && r.state.scannerDevice == s.scannerDevice
           && (KojakListener.FinishedAction !in KojakListener.OnEvent(e) ==> r.state == s && !r.escapes && r.initNotices == []))
  {
  }

  /**
   * A started capture routes the device's callbacks to the capture listener it
   * was started with.
   */
  lemma StartedCaptureRoutesEvents(s: State, t: CaptureType, cl: CaptureListener, begin: VendorCall, d: ScanDevice, b: WorkingBuffer,
                                   e: KojakListener.ScanDeviceEvent, props: DeviceProperties)
    requires s.scannerDevice == Some(d) && s.capturedKojakBitmap == Some(b)
    ensures var started := StartCapture(s, t, cl, begin);
      var r := OnCaptureEvent(started.state, e, props);
      forall n :: n in r.captureNotices ==> n.listener == cl
  {
    CaptureEventsReachRegisteredListener(StartCapture(s, t, cl, begin).state, e, props);
  }

  /**
   * Only a KOJAK product gets a working buffer, so on an adapter that has
   * never set up a KOJAK device, a device of any other product opens and sets
   * up without complaint, but every `startCapture` on it then throws at the
   * `!!` before any call.
   */
  lemma NonKojakProductCannotCapture(s: State, d: ScanDevice, props: DeviceProperties, t: CaptureType, cl: CaptureListener, begin: VendorCall)
    requires s.scanListenerSet && s.capturedKojakBitmap.None?
    requires props.Properties? && props.productId != "KOJAK"
    ensures var done := OnScanEvent(s, ScanDeviceOpenComplete(0, Some(d), false, props));
      var start := StartCapture(done.state, t, cl, begin);
      && !done.escapes
      && done.state.scannerDevice == Some(d)
      && done.state.capturedKojakBitmap.None?
      && start.escapes && start.commands == [] && start.captureNotices == []
  {
  }

  /**
   * Neither `closeScanner` nor a non-KOJAK setup clears the working buffer, so
   * a non-KOJAK device opened after a KOJAK one captures into the buffer sized
   * for the earlier device.
   */
  lemma NonKojakProductInheritsBuffer(s: State, d: ScanDevice, props: DeviceProperties, t: CaptureType, cl: CaptureListener, begin: VendorCall, b: WorkingBuffer)
    requires s.scanListenerSet && s.capturedKojakBitmap == Some(b)
    requires props.Properties? && props.productId != "KOJAK"
    ensures var done := OnScanEvent(s, ScanDeviceOpenComplete(0, Some(d), false, props));
      var start := StartCapture(done.state, t, cl, begin);
      && !done.escapes
      && done.state.capturedKojakBitmap == Some(b)
      && !start.escapes
      && start.state.registration == Some(KojakScanDeviceListener(d, b, cl))
      && start.commands == [SetScanDeviceListener(d, KojakScanDeviceListener(d, b, cl)),
                            BeginCaptureImage(d, ImageTypeFor(t), Resolution500, CaptureOptions)]
  {
  }

  /**
   * The run that reaches it: set up a KOJAK device, close, initialize again and
   * open a device of another product; its capture registers the earlier buffer.
   */
  lemma StaleBufferAfterReopen(l: InitListener, env1: Discovery, env2: Discovery, d1: ScanDevice, d2: ScanDevice,
                               w: int, h: int, other: DeviceProperties, t: CaptureType, cl: CaptureListener, begin: VendorCall)
    requires w > 0 && h > 0
    requires other.Properties? && other.productId != "KOJAK"
    ensures var first := InitializeScanner(Initial, l, env1);
      var kojak := OnScanEvent(first.state, ScanDeviceOpenComplete(0, Some(d1), false, Properties("KOJAK", w, h, Allocates)));
      var closed := CloseScanner(kojak.state);
      var reopened := InitializeScanner(closed.state, l, env2);
      var second := OnScanEvent(reopened.state, ScanDeviceOpenComplete(0, Some(d2), false, other));
      var start := StartCapture(second.state, t, cl, begin);
      && closed.state.scannerDevice.None?
      && !start.escapes
      && start.state.registration == Some(KojakScanDeviceListener(d2, WorkingBuffer(w, h), cl))
  {
    var first := InitializeScanner(Initial, l, env1);
    var kojak := OnScanEvent(first.state, ScanDeviceOpenComplete(0, Some(d1), false, Properties("KOJAK", w, h, Allocates)));
    assert kojak.state.capturedKojakBitmap == Some(WorkingBuffer(w, h));
    var closed := CloseScanner(kojak.state);
    var reopened := InitializeScanner(closed.state, l, env2);
    assert reopened.state.scanListenerSet && reopened.state.capturedKojakBitmap == Some(WorkingBuffer(w, h));
    NonKojakProductInheritsBuffer(reopened.state, d2, other, t, cl, begin, WorkingBuffer(w, h));
  }
}
