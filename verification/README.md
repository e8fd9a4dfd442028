# Fingerprint capture adapters, modelled in Dafny

The repository hides two vendor fingerprint-scanner SDKs behind one Android
interface, `FingerprintDevice`. That interface has capture types TWO and FOUR, an init listener, a
capture listener, and a `Fingerprint(bitmap, nfiqScore)` result. This project
models the decision logic of the two adapters that implement it:

- **Dermalog ZF10**:
  - a single multiplexed device callback (`DermalogDeviceCallback.onCall`) that
    turns ERROR, FINGER_IMAGE and FINGER_DETECT events into capture listener calls;
  - the segment extractor with its rectangle arithmetic;
  - the NFIQ2 → 1..5 quality step function;
  - the init, close and start-capture logic driven by the USB-permission result.
- **Kojak (IB scan SDK)**:
  - the typed per-capture listener (`KojakScanDeviceListener`), with its finger-count check, result building and fault mapping;
  - the device's refresh/open/setup/close/start-capture logic.

Each Kotlin handler is a pure function. It takes the adapter state and the vendor's
event, with the outcomes of the vendor calls given as inputs. It returns the new state, the SDK
commands issued, and the listener calls made, in order. The Dermalog callback and the
Kojak adapter and listener model the exceptions their code does not catch as `escapes`
(the handler stops there). These come from:
- decoding, including an out-of-memory decode;
- Android's bitmap allocation, both a non-positive size and running out of memory, in the Dermalog crop and the Kojak setup;
- the `!!` in Kojak `startCapture`.
The vendor calls listed under "Left out" are taken to complete.

Modules, one per file:

| file | module | models |
|---|---|---|
| options.dfy | `Options` | Kotlin nullables and `?:` |
| fingerprint_device.dfy | `FingerprintDevice` | the shared interface, listener calls, `Fingerprint` |
| nfiq.dfy | `Nfiq` | the Dermalog NFIQ2 → 1..5 mapping |
| segmentation.dfy | `Segmentation` | Dermalog `extractFingerprints` geometry and order |
| dermalog_callback.dfy | `DermalogCallback` | Dermalog `onCall` (`OnCall`), with `ErrorFails`, `Previews`, `FingerDetected` and `CheckCount` for its branches |
| dermalog_device.dfy | `DermalogDevice` | `DermalogZF10FingerprintDevice`: `InitializeScanner`, `OnPermissionResult`, `OpenDevice`, `CloseScanner`, `StartCaptureOn` |
| kojak_listener.dfy | `KojakListener` | `KojakScanDeviceListener`: `OnEvent` (`ResultAvailable`, `PreviewAvailable`) and `OnEventFinishing` for how its finished action ends |
| kojak_device.dfy | `KojakDevice` | `KojakFingerprintDevice`: `InitializeScanner`, `RefreshScanner`, `OpenComplete`, `SetupDeviceForCapture`, `CloseScanner`, `StartCapture`, and `OnCaptureEvent` for the registered listener |

The model follows the code as written, including where it looks unintended:

- The Dermalog four-finger complaint reads "Please use 3 fingers.".
- The Kojak adapter never stores the caller's init listener, so it never reports an init outcome.
- The Dermalog `closeScanner` keeps its device reference, so a second close stops and disposes the same device again.
- Neither adapter checks segment geometry. An inverted or empty rectangle reaches Android's `Bitmap.createBitmap`, which throws for a non-positive size. The model records this as an escaping exception.
- The Kojak adapter allocates its working buffer only for product "KOJAK". On an adapter that has never set up a KOJAK device, every `startCapture` on a device of any other product throws at its `!!`. Neither `closeScanner` nor a non-KOJAK setup clears the buffer, so a closed adapter keeps the previous KOJAK buffer, and a non-KOJAK device opened later captures into it.
- The Kojak listener checks the vendor's `detectedFingerCount`, not the length of the segment array it delivers.

## Model

| member | source | states |
|---|---|---|
| FingerprintDevice.RequiredFingers | dermalog/src/main/java/ng/softcom/android/fingerprint/dermalog/DermalogDeviceCallback.kt:80-97 | TWO needs 2 fingers and FOUR needs 4 |
| Nfiq.FromNfiq2 | dermalog/src/main/java/ng/softcom/android/fingerprint/dermalog/DermalogDeviceCallback.kt:150-156 | the normalised score is always in 1..5 |
| Nfiq.FromNfiq2CountsMissedBreakPoints | dermalog/src/main/java/ng/softcom/android/fingerprint/dermalog/DermalogDeviceCallback.kt:150-156 | the score is one plus the number of break points 61, 56, 27, 1 that the NFIQ2 value does not reach |
| Nfiq.FromNfiq2AtMost | dermalog/src/main/java/ng/softcom/android/fingerprint/dermalog/DermalogDeviceCallback.kt:150-156 | score ≤ k exactly when the value reaches the k-th break point (61, 56, 27, 1 for k = 1..4) |
| Nfiq.FromNfiq2NonIncreasing | dermalog/src/main/java/ng/softcom/android/fingerprint/dermalog/DermalogDeviceCallback.kt:150-156 | a larger NFIQ2 value never gives a worse score |
| Nfiq.FromNfiq2TierBoundaries | dermalog/src/main/java/ng/softcom/android/fingerprint/dermalog/DermalogDeviceCallback.kt:150-156 | each break point is the least value of its tier; 0 gives 5 |
| Segmentation.TargetRect | dermalog/src/main/java/ng/softcom/android/fingerprint/dermalog/DermalogDeviceCallback.kt:123-138 | the target rectangle sits at the origin, with the source segment's width (right − left) and height (bottom − top) |
| Segmentation.ExtractFingerprints | dermalog/src/main/java/ng/softcom/android/fingerprint/dermalog/DermalogDeviceCallback.kt:121-164 | one fingerprint per segment; the i-th comes from the i-th segment |
| Segmentation.ExtractedGeometry | dermalog/src/main/java/ng/softcom/android/fingerprint/dermalog/DermalogDeviceCallback.kt:128-161 | each fingerprint draws its segment's source rectangle of the decoded image into a buffer of exactly (r − l) × (b − t) at (0,0), with its NFIQ2 normalised to 1..5 |
| Segmentation.ExtractAppend | dermalog/src/main/java/ng/softcom/android/fingerprint/dermalog/DermalogDeviceCallback.kt:128-162 | segments are extracted independently: extraction distributes over concatenation |
| DermalogCallback.ErrorFails | dermalog/src/main/java/ng/softcom/android/fingerprint/dermalog/DermalogDeviceCallback.kt:42-50 | one capture-fail per error argument, in order, with its message or "Unable to start capture." |
| DermalogCallback.ErrorEventFailsPerErrorArgument | dermalog/src/main/java/ng/softcom/android/fingerprint/dermalog/DermalogDeviceCallback.kt:42-50 | an ERROR event fails once per error argument, ignores other arguments, and never escapes |
| DermalogCallback.ErrorArgumentsAppend | dermalog/src/main/java/ng/softcom/android/fingerprint/dermalog/DermalogDeviceCallback.kt:43-44 | the error arguments the ERROR loop visits are those of the event, each once, in order |
| DermalogCallback.ImageArgumentsAppend | dermalog/src/main/java/ng/softcom/android/fingerprint/dermalog/DermalogDeviceCallback.kt:51-52 | the image arguments the FINGER_IMAGE loop visits are those of the event, each once, in order |
| DermalogCallback.PreviewAll | dermalog/src/main/java/ng/softcom/android/fingerprint/dermalog/DermalogDeviceCallback.kt:51-59 | the i-th call belongs to the i-th decoding; the loop stops exactly at the first exception other than an I/O one |
| DermalogCallback.Previews | dermalog/src/main/java/ng/softcom/android/fingerprint/dermalog/DermalogDeviceCallback.kt:51-59 | FINGER_IMAGE's i-th call is for the i-th image argument: a preview of its bitmap, or the fixed fail for an I/O exception. Any other exception escapes, exactly when one occurs: the calls made are at most one per image argument before any argument whose decode is uncaught, so that argument and every later one get no call |
| DermalogCallback.LastSegmentation | dermalog/src/main/java/ng/softcom/android/fingerprint/dermalog/DermalogDeviceCallback.kt:61-71 | FINGER_DETECT finds no segmentation argument exactly when the event has none |
| DermalogCallback.LastImage | dermalog/src/main/java/ng/softcom/android/fingerprint/dermalog/DermalogDeviceCallback.kt:61-71 | FINGER_DETECT finds no image argument exactly when the event has none |
| DermalogCallback.LastSegmentationIsLast | dermalog/src/main/java/ng/softcom/android/fingerprint/dermalog/DermalogDeviceCallback.kt:61-71 | the segmentation argument with none after it is the one FINGER_DETECT uses |
| DermalogCallback.LastImageIsLast | dermalog/src/main/java/ng/softcom/android/fingerprint/dermalog/DermalogDeviceCallback.kt:61-71 | the image argument with none after it is the one FINGER_DETECT decodes |
| DermalogCallback.TwoFingerCountCheck | dermalog/src/main/java/ng/softcom/android/fingerprint/dermalog/DermalogDeviceCallback.kt:80-102 | TWO: exactly 2 segments give the result then stopCapture; any other count gives only "Please use 2 fingers." |
| DermalogCallback.FourFingerCountCheck | dermalog/src/main/java/ng/softcom/android/fingerprint/dermalog/DermalogDeviceCallback.kt:89-102 | FOUR: exactly 4 segments give the result then stopCapture; any other count gives only "Please use 3 fingers." |
| DermalogCallback.StopCaptureOnlyAfterResult | dermalog/src/main/java/ng/softcom/android/fingerprint/dermalog/DermalogDeviceCallback.kt:99-102 | stopCapture is sent only straight after the single result call, which holds the mode's finger count. Every result call is followed by it |
| DermalogCallback.ResultScoresInRange | dermalog/src/main/java/ng/softcom/android/fingerprint/dermalog/DermalogDeviceCallback.kt:77-100 | every delivered fingerprint has a score in 1..5 |
| DermalogCallback.FingerDetectCallsListenerAtMostOnce | dermalog/src/main/java/ng/softcom/android/fingerprint/dermalog/DermalogDeviceCallback.kt:60-110 | a FINGER_DETECT event makes at most one listener call |
| DermalogCallback.DetectExceptionMessages | dermalog/src/main/java/ng/softcom/android/fingerprint/dermalog/DermalogDeviceCallback.kt:103-109 | I/O, container and quality-check exceptions each give exactly one fail with their own message; a missing quality-check message reads "null" |
| DermalogCallback.DetectOutOfMemoryEscapes | dermalog/src/main/java/ng/softcom/android/fingerprint/dermalog/DermalogDeviceCallback.kt:73-109 | in FINGER_DETECT, running out of memory while decoding the image or allocating any segment's buffer is caught by no clause: the event escapes with no listener call and no stopCapture |
| DermalogCallback.DetectMalformedEventEscapes | dermalog/src/main/java/ng/softcom/android/fingerprint/dermalog/DermalogDeviceCallback.kt:60-143 | in FINGER_DETECT, a missing image argument, a missing segmentation argument (`!!`), or a segment whose target has a non-positive width or height is caught by no clause: the event escapes with no listener call and no stopCapture |
| DermalogCallback.PreviewOutOfMemoryEscapes | dermalog/src/main/java/ng/softcom/android/fingerprint/dermalog/DermalogDeviceCallback.kt:51-59 | in FINGER_IMAGE, an out-of-memory decode is not caught: the event escapes, and the calls made are at most one per image argument before that one, so that argument and every later one get no call |
| DermalogCallback.OtherEventsIgnored | dermalog/src/main/java/ng/softcom/android/fingerprint/dermalog/DermalogDeviceCallback.kt:111-113 | other event ids do nothing |
| DermalogCallback.TwoSegmentScenario | dermalog/src/main/java/ng/softcom/android/fingerprint/dermalog/DermalogDeviceCallback.kt:73-102 | TWO with two segments: one result of two fingerprints scored 1..5, then stopCapture |
| DermalogCallback.ThreeSegmentsInFourFingerMode | dermalog/src/main/java/ng/softcom/android/fingerprint/dermalog/DermalogDeviceCallback.kt:89-96 | FOUR with three segments: exactly one fail, with no result and no stopCapture |
| DermalogCallback.FourFingerMessageAsksForThree | dermalog/src/main/java/ng/softcom/android/fingerprint/dermalog/DermalogDeviceCallback.kt:93 | as written, the FOUR complaint names 3 fingers, not the 4 the check requires |
| DermalogCallback.IntendedMismatchMessage | dermalog/src/main/java/ng/softcom/android/fingerprint/dermalog/DermalogDeviceCallback.kt:80-97 | corrected wording: each complaint names the mode's required finger count |
| DermalogDevice.EveryCallbackClearsListener | dermalog/src/main/java/ng/softcom/android/fingerprint/dermalog/DermalogZF10FingerprintDevice.kt:29-88 | each step fires at most one init callback. It goes only to the listener stored at that moment, and clears that listener |
| DermalogDevice.CallbacksBoundedByInitializations | dermalog/src/main/java/ng/softcom/android/fingerprint/dermalog/DermalogZF10FingerprintDevice.kt:29-88 | over any run of steps, a listener's init callbacks never exceed its initialisations |
| DermalogDevice.AtMostOneCallbackPerInitialization | dermalog/src/main/java/ng/softcom/android/fingerprint/dermalog/DermalogZF10FingerprintDevice.kt:29-88 | from a fresh adapter, at most one init callback per initializeScanner call |
| DermalogDevice.InitializeClosesFirst | dermalog/src/main/java/ng/softcom/android/fingerprint/dermalog/DermalogZF10FingerprintDevice.kt:29-41 | initializeScanner closes first, then stores the listener and requests USB permissions. If the request throws, it sends one generic fail |
| DermalogDevice.PermissionResultMessages | dermalog/src/main/java/ng/softcom/android/fingerprint/dermalog/DermalogZF10FingerprintDevice.kt:60-88 | each refused permission result gives one init-fail with its own message, and clears the listener |
| DermalogDevice.PermissionFailuresDistinct | dermalog/src/main/java/ng/softcom/android/fingerprint/dermalog/DermalogZF10FingerprintDevice.kt:66-85 | no two refused result codes share a message |
| DermalogDevice.PermissionGrantedOpens | dermalog/src/main/java/ng/softcom/android/fingerprint/dermalog/DermalogZF10FingerprintDevice.kt:43-58 | Success opens the device. A non-empty enumeration keeps the first device and reports it opened. An empty one reports "No scanner could be found.", and an SDK exception reports the generic failure |
| DermalogDevice.LateResultIsSilent | dermalog/src/main/java/ng/softcom/android/fingerprint/dermalog/DermalogZF10FingerprintDevice.kt:43-88 | with no listener stored, a permission result makes no init callback; a granted result with a created first device still keeps that device, and any other result leaves the adapter unchanged |
| DermalogDevice.CloseKeepsDevice | dermalog/src/main/java/ng/softcom/android/fingerprint/dermalog/DermalogZF10FingerprintDevice.kt:90-96 | close stops and disposes a held device, then disposes the SDK; the device field is kept |
| DermalogDevice.CloseTwiceDisposesTwice | dermalog/src/main/java/ng/softcom/android/fingerprint/dermalog/DermalogZF10FingerprintDevice.kt:90-96 | a second close stops and disposes the same device again |
| DermalogDevice.StartCaptureGuard | dermalog/src/main/java/ng/softcom/android/fingerprint/dermalog/DermalogZF10FingerprintDevice.kt:98-111 | startCapture without a device does nothing; with one, it registers the callback and then starts |
| DermalogDevice.NoDeviceScenario | dermalog/src/main/java/ng/softcom/android/fingerprint/dermalog/DermalogZF10FingerprintDevice.kt:43-58 | an empty enumeration gives exactly one "No scanner could be found." and leaves nothing held |
| KojakListener.BuildFingerprints | kojak/src/main/java/ng/softcom/android/fingerprint/kojak/KojakScanDeviceListener.kt:96-98 | segments map in order to fingerprints of their bitmap and device score. The first failing segment aborts the map with its fault |
| KojakListener.TwoFingerMismatch | kojak/src/main/java/ng/softcom/android/fingerprint/kojak/KojakScanDeviceListener.kt:82-85 | FLAT_TWO_FINGERS with a detected count other than 2 gives exactly "Please use 2 fingers", with no result and no finish |
| KojakListener.FourFingerMismatch | kojak/src/main/java/ng/softcom/android/fingerprint/kojak/KojakScanDeviceListener.kt:86-89 | FLAT_FOUR_FINGERS with a detected count other than 4 gives exactly "Please use 4 fingers", with no result and no finish |
| KojakListener.OtherImageTypeSkipsCount | kojak/src/main/java/ng/softcom/android/fingerprint/kojak/KojakScanDeviceListener.kt:90-92 | for other image types the detected count changes nothing |
| KojakListener.ResultDelivered | kojak/src/main/java/ng/softcom/android/fingerprint/kojak/KojakScanDeviceListener.kt:94-101 | a passing result gives one result call, with one fingerprint per segment image in order and that segment's score. The finished action follows |
| KojakListener.DetectedCountNotSegmentCount | kojak/src/main/java/ng/softcom/android/fingerprint/kojak/KojakScanDeviceListener.kt:76-98 | the check uses detectedFingerCount. A two-finger result with 3 segment images delivers 3 fingerprints |
| KojakListener.ResultFaults | kojak/src/main/java/ng/softcom/android/fingerprint/kojak/KojakScanDeviceListener.kt:102-110 | a vendor exception gives one fail (its message or "Couldn't get the results") and then the finish. Out-of-memory gives one fail and no finish |
| KojakListener.SegmentFaultFailsResult | kojak/src/main/java/ng/softcom/android/fingerprint/kojak/KojakScanDeviceListener.kt:96-110 | the first failing segment's fault decides the failure |
| KojakListener.CommunicationBrokenFinishes | kojak/src/main/java/ng/softcom/android/fingerprint/kojak/KojakScanDeviceListener.kt:32-35 | a broken connection gives "Unable to communicate with the device" and then the finish |
| KojakListener.PreviewOneCall | kojak/src/main/java/ng/softcom/android/fingerprint/kojak/KojakScanDeviceListener.kt:54-65 | a preview event makes exactly one call: the preview, or a fail with the fault's message or its default |
| KojakListener.UnsupportedCallbacksSilent | kojak/src/main/java/ng/softcom/android/fingerprint/kojak/KojakScanDeviceListener.kt:114-171 | every other callback makes no call |
| KojakListener.AtMostOneListenerCall | kojak/src/main/java/ng/softcom/android/fingerprint/kojak/KojakScanDeviceListener.kt:32-111 | with a finished action that completes, each callback makes at most one listener call, and it comes first. The finish comes last, never after a preview |
| KojakListener.FinishOnlyMattersWhenRun | kojak/src/main/java/ng/softcom/android/fingerprint/kojak/KojakScanDeviceListener.kt:32-111 | a finished action that completes changes nothing, and callbacks without one do not depend on it |
| KojakListener.ResultThenFinishOutOfMemory | kojak/src/main/java/ng/softcom/android/fingerprint/kojak/KojakScanDeviceListener.kt:94-111 | a finished action that runs out of memory after a delivered result is caught by the result handler: the result, then a second call, "Device ran out of memory" or the error's message |
| KojakListener.FailingFinishEscapes | kojak/src/main/java/ng/softcom/android/fingerprint/kojak/KojakScanDeviceListener.kt:32-35 | a failing finished action after a broken connection or in the vendor-exception catch, or one that throws something other than out-of-memory, escapes the callback |
| KojakListener.AtMostTwoListenerCalls | kojak/src/main/java/ng/softcom/android/fingerprint/kojak/KojakScanDeviceListener.kt:80-111 | at most two listener calls per callback; a second one comes only after a delivered result, as the out-of-memory report of its finished action |
| KojakDevice.PermissionRequests | kojak/src/main/java/ng/softcom/android/fingerprint/kojak/KojakFingerprintDevice.kt:78-95 | permission is requested for exactly the scan devices that lack it |
| KojakDevice.NoStepStoresListener | kojak/src/main/java/ng/softcom/android/fingerprint/kojak/KojakFingerprintDevice.kt:25-65 | no step stores an init listener, so no step fires an init callback |
| KojakDevice.CallerNeverHearsInit | kojak/src/main/java/ng/softcom/android/fingerprint/kojak/KojakFingerprintDevice.kt:25-65 | as written, no run ever delivers an init callback |
| KojakDevice.NoScannerGoesUnreported | kojak/src/main/java/ng/softcom/android/fingerprint/kojak/KojakFingerprintDevice.kt:27-95 | as written, "No Scanner found" never reaches the caller |
| KojakDevice.StoredListenerHearsNoScanner | kojak/src/main/java/ng/softcom/android/fingerprint/kojak/KojakFingerprintDevice.kt:78-95 | corrected: with the listener stored, no scanner gives exactly one "No Scanner found" |
| KojakDevice.StoredListenerHearsOpened | kojak/src/main/java/ng/softcom/android/fingerprint/kojak/KojakFingerprintDevice.kt:47-57 | corrected: with the listener stored, a completed open gives exactly one "opened" |
| KojakDevice.CloseIsIdempotent | kojak/src/main/java/ng/softcom/android/fingerprint/kojak/KojakFingerprintDevice.kt:99-102 | close closes a held device and forgets it, so a second close does nothing |
| KojakDevice.ImageTypeMatchesCaptureType | kojak/src/main/java/ng/softcom/android/fingerprint/kojak/KojakFingerprintDevice.kt:127-130 | TWO maps to FLAT_TWO_FINGERS and FOUR to FLAT_FOUR_FINGERS, whose check expects that mode's count; the mapping is injective |
| KojakDevice.StartCaptureBegins | kojak/src/main/java/ng/softcom/android/fingerprint/kojak/KojakFingerprintDevice.kt:123-150 | startCapture registers the listener (the only state change), then begins at 500 ppi with AUTO_CAPTURE and AUTO_CONTRAST. A refused start gives exactly one fail |
| KojakDevice.StartCaptureGuards | kojak/src/main/java/ng/softcom/android/fingerprint/kojak/KojakFingerprintDevice.kt:131-137 | with no device, startCapture does nothing; with a device but no working buffer, `!!` throws |
| KojakDevice.RefreshOpensFirstDevice | kojak/src/main/java/ng/softcom/android/fingerprint/kojak/KojakFingerprintDevice.kt:70-77 | when devices are present, refresh opens device 0. A refused open gives one fail (its message or "Unable to open device.") and clears the listener |
| KojakDevice.RefreshRequestsPermissions | kojak/src/main/java/ng/softcom/android/fingerprint/kojak/KojakFingerprintDevice.kt:78-95 | with no device, refresh requests permission for exactly the scan devices lacking it. With no listener stored (every state the adapter as written reaches), nobody is told anything; a stored listener hears "No Scanner found" exactly when there is no scan device |
| KojakDevice.SetupDeviceForCapture | kojak/src/main/java/ng/softcom/android/fingerprint/kojak/KojakFingerprintDevice.kt:104-121 | setup escapes exactly when its outcome is a non-positive size or out-of-memory, and an escaping setup changes nothing |
| KojakDevice.SetupAllocatesOnlyForKojak | kojak/src/main/java/ng/softcom/android/fingerprint/kojak/KojakFingerprintDevice.kt:104-121 | setup allocates the rolled-size working buffer only for product "KOJAK", when the size is positive and memory suffices; that buffer is then the only change. Otherwise a KOJAK setup escapes, and any other product's setup does nothing |
| KojakDevice.SetupReportsVendorException | kojak/src/main/java/ng/softcom/android/fingerprint/kojak/KojakFingerprintDevice.kt:117-120 | a failed property read tells a stored listener its message or "Unable to setup device." and clears it; nothing escapes |
| KojakDevice.OpenCompleteKeepsDevice | kojak/src/main/java/ng/softcom/android/fingerprint/kojak/KojakFingerprintDevice.kt:47-57 | an open-complete with a device keeps it and sets it up; the state is the set-up state with the listener cleared. A finished setup tells a stored listener "opened" once and clears it, unless a failed property read already told it the setup failure. A throwing setup escapes with the device kept. Without a device nothing changes |
| KojakDevice.CommunicationBrokenResets | kojak/src/main/java/ng/softcom/android/fingerprint/kojak/KojakFingerprintDevice.kt:131-137 | a broken connection sends one fail to the registered capture listener and re-runs the device setup, escaping exactly when that setup throws |
| KojakDevice.CaptureEventsReachRegisteredListener | kojak/src/main/java/ng/softcom/android/fingerprint/kojak/KojakFingerprintDevice.kt:131-137 | capture callbacks reach only the registered listener, issue no commands and keep the registration and device; a callback without a finished action changes nothing |
| KojakDevice.StartedCaptureRoutesEvents | kojak/src/main/java/ng/softcom/android/fingerprint/kojak/KojakFingerprintDevice.kt:131-137 | after startCapture, every capture callback call goes to the listener the capture was started with |
| KojakDevice.NonKojakProductCannotCapture | kojak/src/main/java/ng/softcom/android/fingerprint/kojak/KojakFingerprintDevice.kt:104-137 | on an adapter holding no working buffer, a non-KOJAK device opens without complaint but gets none, so startCapture on it throws at `!!` before any call |
| KojakDevice.NonKojakProductInheritsBuffer | kojak/src/main/java/ng/softcom/android/fingerprint/kojak/KojakFingerprintDevice.kt:99-137 | on an adapter still holding a working buffer, a non-KOJAK device opens without touching it, and startCapture registers that buffer with the new device and begins capturing |
| KojakDevice.StaleBufferAfterReopen | kojak/src/main/java/ng/softcom/android/fingerprint/kojak/KojakFingerprintDevice.kt:27-137 | setting up a KOJAK device, closing, initializing again and opening a device of another product leaves no device reference from the close, yet the new device's capture registers the buffer sized for the KOJAK device |
| KojakDevice.ResultThenSetupOutOfMemory | kojak/src/main/java/ng/softcom/android/fingerprint/kojak/KojakFingerprintDevice.kt:104-116 | when the setup after a delivered result runs out of memory, the capture listener hears the result and then "Device ran out of memory"; nothing escapes and the adapter is unchanged |

## Left out

- The `GlobalScope.launch` plus sleep loop that waits for each Dermalog NFIQ2 value, and the background dispatch of Dermalog initialisation: each segment carries its NFIQ2 value, and each handler is one serial step. Thread identity and cross-thread ordering are out of scope.
- Exceptions raised by `Decode` or `CheckNfiq2` inside that coroutine: they cannot reach the enclosing catch clauses, and the model does not follow them. The FINGER_DETECT exception cases model exceptions from decoding the event's image.
- Decoding a FINGER_DETECT event that has no image argument (`fromImageArgument(null)`) belongs to the vendor SDK. The model takes it to throw an exception that is not caught.
- Pixel work (`createBitmap`, `drawBitmap`, `fromImageArgument`, `createBmpEx`, `toBitmap`): bitmaps are opaque values. Only the rectangles, sizes and the source a crop was drawn from are kept.
- Segmentation.ExtractedGeometry: states the crop's rectangles, size and source, not that its pixels equal the source region's, because bitmaps are opaque.
- Vendor SDK internals (USB permission negotiation, device enumeration, `calculateNfiqScore`, property reads, buffer allocation, `UsbManager`): their outcomes are inputs (`Enumeration`, `Discovery`, `DeviceProperties` with its `Allocation`, `Attempt`, `VendorCall`).
- The Kojak rolled-image properties are read as strings and converted with `toInt`. The model takes them as integers, so a `NumberFormatException` is not modelled.
- Unused vendor data: the Kojak result's `imageStatus` and `segmentPositionArray`, and the open-complete exception argument. They are carried or ignored exactly as the code ignores them.
- Exceptions from vendor calls that the adapters neither catch nor anticipate are taken to complete. These are Dermalog `closeScanner`'s `stopCapture`, `dispose` and SDK `dispose`, Dermalog `startCapture`'s `registerCallback` and `startCapture`, the Dermalog callback's own `device.stopCapture()` after a result, and Kojak `closeScanner`'s `close`. What they can throw, and what state a half-finished close leaves behind, is vendor behaviour outside this model.
- DermalogDevice.CloseKeepsDevice: assumes stop, dispose and SDK dispose all return, so it does not cover a close cut short, or an `initializeScanner` that throws before storing its listener.
- DermalogDevice.StartCaptureGuard: assumes `registerCallback` and `startCapture` return.
- DermalogCallback.FingerDetected: takes the callback's `device.stopCapture()` to return once the result has been delivered.
- KojakDevice.CloseIsIdempotent: assumes `close` returns; if it threw, the device field would not be cleared.
- `deviceName` ("Dermalog ZF10", "Kojak"): a constant with no behaviour.
- Build configuration (`buildSrc`, Gradle scripts): no behaviour.

## Findings

| source | as written | input that shows it | evidently intended | confidence | as-written member | corrected member |
|---|---|---|---|---|---|---|
| dermalog/src/main/java/ng/softcom/android/fingerprint/dermalog/DermalogDeviceCallback.kt:93 | a FOUR capture with the wrong count says "Please use 3 fingers." | FOUR mode, three segments | "Please use 4 fingers.", like the TWO message and the Kojak adapter | high; not executed | DermalogCallback.FourFingerMessageAsksForThree | DermalogCallback.IntendedMismatchMessage |
| kojak/src/main/java/ng/softcom/android/fingerprint/kojak/KojakFingerprintDevice.kt:27-65 | `kojakInitListener` is never assigned, so the caller's init listener never hears an outcome | no scan device attached: `initializeScanner` makes no call, and "No Scanner found" is lost | store `initListener` before refreshing | high; not executed | KojakDevice.NoScannerGoesUnreported | KojakDevice.StoredListenerHearsNoScanner |

The adapters themselves are modelled as written. The corrected definitions
(`DermalogCallback.IntendedMismatchMessage` and
`KojakDevice.InitializeScannerStoringListener`) stand beside them with their
intended properties proved.
