/**
 * The Dermalog ZF10 adapter's device lifecycle: initialisation through the
 * USB-permission result, opening the first enumerated device, closing, and
 * starting a capture. Each operation is one serial step from an adapter state
 * to a new state, the SDK commands it issued and the init callbacks it fired.
 */
module DermalogDevice {
  import opened Options
  import opened FingerprintDevice

  /** An SDK device handle and an enumeration entry; both opaque. */
  datatype Device = Device(handle: nat)
  datatype DeviceInfo = DeviceInfo(id: nat)

  /** The SDK's USB-permission result codes; `OtherResultCode` stands for any code the adapter does not name. */
  datatype ResultCode = Success | PartialPermission | UsbNotSupported | NoDevice | NoPermission | OtherResultCode

  /**
   * What enumerating the SDK's devices does: it raises, or lists devices; when
   * the list is not empty, `created` is what creating its first entry returns
   * (`None` when that raises).
   */
  datatype Enumeration = EnumerationRaises | Enumerated(deviceInfos: seq<DeviceInfo>, created: Option<Device>)

  /** The capture callback registered on the device for one capture. */
  datatype DeviceCallback = DermalogDeviceCallback(captureType: CaptureType, captureListener: CaptureListener)

  datatype SdkCommand =
    | StopCapture(device: Device)
    | DisposeDevice(device: Device)
    | DisposeSdk
    | RequestUsbPermissions
    | EnumerateDevices
    | CreateDevice(info: DeviceInfo)
    | RegisterCallback(device: Device, callback: DeviceCallback)
    | StartCapture(device: Device)

  /** The adapter's two mutable fields. */
  datatype State = State(scannerDevice: Option<Device>, initListener: Option<InitListener>)

  const Initial := State(None, None)

  datatype Step = Step(state: State, commands: seq<SdkCommand>, notices: seq<InitNotice>)

  const InitFailure := "Couldn't initialize device correctly."
  const NoScanner := "No scanner could be found."

  /** `initListener?.call(...)` followed by `initListener = null`. */
  function Tell(s: State, commands: seq<SdkCommand>, call: InitCall): Step {
    var notices := if s.initListener.Some? then [InitNotice(s.initListener.value, call)] else [];
    Step(s.(initListener := None), commands, notices)
  }

  /** The init-fail reason for each refused permission result. */
  function PermissionFailure(code: ResultCode): string
    requires code != Success
  {
    match code
    case PartialPermission => "Not all permissions were granted."
    case UsbNotSupported => "The USB device found isn't supported"
    case NoDevice => "No USB devices were found."
    case NoPermission => "No permissions were granted."
    case OtherResultCode => InitFailure
  }

  /** `closeScanner`: stop and dispose a held device, always dispose the SDK; the device field is kept. */
  function CloseScanner(s: State): Step {
    var deviceCommands := match s.scannerDevice
      case Some(d) => [StopCapture(d), DisposeDevice(d)]
      case None => [];
    Step(s, deviceCommands + [DisposeSdk], [])
  }

  /**
   * `initializeScanner`: close, store the listener, then ask for USB
   * permissions; `requestRaises` is whether that request throws at once.
   */
  function InitializeScanner(s: State, l: InitListener, requestRaises: bool): Step {
    var closed := CloseScanner(s);
    var armed := closed.state.(initListener := Some(l));
    var commands := closed.commands + [RequestUsbPermissions];
    if requestRaises then Tell(armed, commands, OnDeviceInitFail(InitFailure))
    else Step(armed, commands, [])
  }

  /** `openDevice`: keep the first enumerated device and report it, or report why not. */
  function OpenDevice(s: State, en: Enumeration): Step {
    match en
    case EnumerationRaises => Tell(s, [EnumerateDevices], OnDeviceInitFail(InitFailure))
    case Enumerated(infos, created) =>
      if |infos| == 0 then Tell(s, [EnumerateDevices], OnDeviceInitFail(NoScanner))
      else match created
        case None => Tell(s, [EnumerateDevices, CreateDevice(infos[0])], OnDeviceInitFail(InitFailure))
        case Some(d) => Tell(s.(scannerDevice := Some(d)), [EnumerateDevices, CreateDevice(infos[0])], OnDeviceOpened)
  }

  /** The USB-permission result arrives: open on success, report the refusal otherwise. */
  function OnPermissionResult(s: State, code: ResultCode, en: Enumeration): Step {
    if code == Success then OpenDevice(s, en)
    else Tell(s, [], OnDeviceInitFail(PermissionFailure(code)))
  }

  /** `startCapture`: without a device nothing happens; with one, register the callback, then start. */
  function StartCaptureOn(s: State, t: CaptureType, cl: CaptureListener): Step {
    match s.scannerDevice
    case None => Step(s, [], [])
    case Some(d) => Step(s, [RegisterCallback(d, DermalogDeviceCallback(t, cl)), StartCapture(d)], [])
  }

  /** Everything that can happen to the adapter, one serial step at a time. */
  datatype Action =
    | Initialize(listener: InitListener, requestRaises: bool)
    | PermissionResult(code: ResultCode, enumeration: Enumeration)
    | Close
    | Capture(captureType: CaptureType, captureListener: CaptureListener)

  function Apply(s: State, a: Action): Step {
    match a
    case Initialize(l, raises) => InitializeScanner(s, l, raises)
    case PermissionResult(code, en) => OnPermissionResult(s, code, en)
    case Close => CloseScanner(s)
    case Capture(t, cl) => StartCaptureOn(s, t, cl)
  }

  /** A run of actions: the final state, with every command and init callback in order. */
  function Run(s: State, actions: seq<Action>): Step {
    if |actions| == 0 then Step(s, [], [])
    else
      var before := Run(s, actions[..|actions| - 1]);
      var last := Apply(before.state, actions[|actions| - 1]);
      Step(last.state, before.commands + last.commands, before.notices + last.notices)
  }

  /** 1 when `l` is the stored init listener. */
  function Armed(s: State, l: InitListener): nat {
    if s.initListener == Some(l) then 1 else 0
  }

  /** How many of `actions` initialise with listener `l`. */
  function Initializations(actions: seq<Action>, l: InitListener): (n: nat)
    ensures n <= |actions|
  {
    if |actions| == 0 then 0
    else
      var last := actions[|actions| - 1];
      Initializations(actions[..|actions| - 1], l) + (if last.Initialize? && last.listener == l then 1 else 0)
  }

  /**
   * Every step fires at most one init callback, only to the listener stored at
   * that moment, and leaves no listener stored afterwards.
   */
  lemma EveryCallbackClearsListener(s: State, a: Action)
    ensures var r := Apply(s, a);
      && |r.notices| <= 1
      && (|r.notices| == 1 ==> r.state.initListener == None)
      && (|r.notices| == 1 && !a.Initialize? ==> s.initListener == Some(r.notices[0].listener))
      && (|r.notices| == 1 && a.Initialize? ==> r.notices[0].listener == a.listener)
  {
  }

  lemma StepBudget(s: State, a: Action, l: InitListener)
    ensures var r := Apply(s, a);
      NoticesTo(r.notices, l) + Armed(r.state, l)
        <= (if a.Initialize? && a.listener == l then 1 else 0) + Armed(s, l)
  {
    var r := Apply(s, a);
    if |r.notices| == 1 {
      assert r.notices == r.notices[..0] + [r.notices[0]];
    }
  }

  /**
   * Over any run, a listener hears at most as many init callbacks as it was
   * passed to `initializeScanner`, counting one still owed while it is stored.
   */
  lemma {:induction false} CallbacksBoundedByInitializations(s: State, actions: seq<Action>, l: InitListener)
    ensures NoticesTo(Run(s, actions).notices, l) + Armed(Run(s, actions).state, l)
      <= Initializations(actions, l) + Armed(s, l)
  {
    if |actions| > 0 {
      var before := Run(s, actions[..|actions| - 1]);
      var last := Apply(before.state, actions[|actions| - 1]);
      CallbacksBoundedByInitializations(s, actions[..|actions| - 1], l);
      StepBudget(before.state, actions[|actions| - 1], l);
      NoticesToAppend(before.notices, last.notices, l);
    }
  }

  /** From a fresh adapter: at most one init callback per `initializeScanner` call with that listener. */
  lemma AtMostOneCallbackPerInitialization(actions: seq<Action>, l: InitListener)
    ensures NoticesTo(Run(Initial, actions).notices, l) <= Initializations(actions, l)
  {
    CallbacksBoundedByInitializations(Initial, actions, l);
  }

  /**
   * `initializeScanner` first closes (its commands come first and the device
   * field is untouched), then stores the listener and requests permissions; a
   * request that throws reports one generic failure and clears the listener.
   */
  lemma InitializeClosesFirst(s: State, l: InitListener, requestRaises: bool)
    ensures var r := InitializeScanner(s, l, requestRaises);
      && r.commands == CloseScanner(s).commands + [RequestUsbPermissions]
      && r.state.scannerDevice == s.scannerDevice
      && (!requestRaises ==> r.state.initListener == Some(l) && r.notices == [])
      && (requestRaises ==>
           && r.state.initListener == None
           && r.notices == [InitNotice(l, OnDeviceInitFail("Couldn't initialize device correctly."))])
  {
  }

  /** Each refused permission result reaches the stored listener as one init-fail with its own message. */
  lemma PermissionResultMessages(s: State, l: InitListener, code: ResultCode, en: Enumeration)
    requires s.initListener == Some(l)
    requires code != Success
    ensures var r := OnPermissionResult(s, code, en);
      && r.state == s.(initListener := None)
      && r.commands == []
      && (code == PartialPermission ==> r.notices == [InitNotice(l, OnDeviceInitFail("Not all permissions were granted."))])
      && (code == UsbNotSupported ==> r.notices == [InitNotice(l, OnDeviceInitFail("The USB device found isn't supported"))])
      && (code == NoDevice ==> r.notices == [InitNotice(l, OnDeviceInitFail("No USB devices were found."))])
      && (code == NoPermission ==> r.notices == [InitNotice(l, OnDeviceInitFail("No permissions were granted."))])
      && (code == OtherResultCode ==> r.notices == [InitNotice(l, OnDeviceInitFail("Couldn't initialize device correctly."))])
  {
  }

  /** Distinct refusals are told apart: no two refused codes share a message. */
  lemma PermissionFailuresDistinct(a: ResultCode, b: ResultCode)
    requires a != Success && b != Success && a != b
    ensures PermissionFailure(a) != PermissionFailure(b)
  {
  }

  /**
   * A successful permission result opens the device: a non-empty enumeration
   * keeps the first device and reports it opened; an empty one reports "No
   * scanner could be found."; an SDK exception reports the generic failure.
   */
  lemma PermissionGrantedOpens(s: State, l: InitListener, en: Enumeration)
    requires s.initListener == Some(l)
    ensures var r := OnPermissionResult(s, Success, en);
      && r.state.initListener == None
      && (en.Enumerated? && |en.deviceInfos| > 0 && en.created.Some? ==>
           && r.state.scannerDevice == en.created
           && r.commands == [EnumerateDevices, CreateDevice(en.deviceInfos[0])]
           && r.notices == [InitNotice(l, OnDeviceOpened)])
      && (en.Enumerated? && |en.deviceInfos| == 0 ==>
           && r.state.scannerDevice == s.scannerDevice
           && r.notices == [InitNotice(l, OnDeviceInitFail("No scanner could be found."))])
      && (en.EnumerationRaises? || (en.Enumerated? && |en.deviceInfos| > 0 && en.created.None?) ==>
           && r.state.scannerDevice == s.scannerDevice
           && r.notices == [InitNotice(l, OnDeviceInitFail("Couldn't initialize device correctly."))])
  {
  }

  /**
   * A permission result arriving after the listener was used still opens a
   * created device, silently; any other result changes nothing.
   */
  lemma LateResultIsSilent(s: State, code: ResultCode, en: Enumeration)
    requires s.initListener == None
    ensures OnPermissionResult(s, code, en).notices == []
    ensures OnPermissionResult(s, code, en).state.initListener == None
    ensures code == Success && en.Enumerated? && |en.deviceInfos| > 0 && en.created.Some? ==>
      OnPermissionResult(s, code, en).state.scannerDevice == en.created
    ensures !(code == Success && en.Enumerated? && |en.deviceInfos| > 0 && en.created.Some?) ==>
      OnPermissionResult(s, code, en).state == s
  {
  }

  /**
   * `closeScanner` stops and disposes a held device before disposing the SDK,
   * and leaves the adapter's fields as they were: the device stays referenced.
   */
  lemma CloseKeepsDevice(s: State)
    ensures var r := CloseScanner(s);
      && r.state == s
      && r.notices == []
      && (s.scannerDevice.Some? ==> r.commands == [StopCapture(s.scannerDevice.value), DisposeDevice(s.scannerDevice.value), DisposeSdk])
      && (s.scannerDevice.None? ==> r.commands == [DisposeSdk])
  {
  }

  /** So a second `closeScanner` stops and disposes the same device again. */
  lemma CloseTwiceDisposesTwice(s: State, d: Device)
    requires s.scannerDevice == Some(d)
    ensures var first := CloseScanner(s);
      var second := CloseScanner(first.state);
      && second.state == s
      && first.commands + second.commands
        == [StopCapture(d), DisposeDevice(d), DisposeSdk, StopCapture(d), DisposeDevice(d), DisposeSdk]
  {
  }

  /** `startCapture` does nothing without a device; with one it registers the callback before starting. */
  lemma StartCaptureGuard(s: State, t: CaptureType, cl: CaptureListener)
    ensures var r := StartCaptureOn(s, t, cl);
      && r.state == s && r.notices == []
      && (s.scannerDevice.None? ==> r.commands == [])
      && (s.scannerDevice.Some? ==>
           r.commands == [RegisterCallback(s.scannerDevice.value, DermalogDeviceCallback(t, cl)), StartCapture(s.scannerDevice.value)])
  {
  }

  /** The scenario of an empty enumeration after a granted permission: one "no scanner" callback, nothing held. */
  lemma NoDeviceScenario(l: InitListener)
    ensures var r := Run(Initial, [Initialize(l, false), PermissionResult(Success, Enumerated([], None))]);
      && r.notices == [InitNotice(l, OnDeviceInitFail("No scanner could be found."))]
      && r.state == Initial
  {
    var actions := [Initialize(l, false), PermissionResult(Success, Enumerated([], None))];
    assert actions[..1] == [Initialize(l, false)];
    assert actions[..1][..0] == [];
    assert Run(Initial, []) == Step(Initial, [], []);
    var i := InitializeScanner(Initial, l, false);
    assert i.state == State(None, Some(l)) && i.notices == [];
    assert Run(Initial, actions[..1]) == Step(i.state, [] + i.commands, [] + i.notices);
  }
}
