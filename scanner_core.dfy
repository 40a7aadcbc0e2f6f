/** What the embedded widget and the modal scanner view share: the values their controllers
    hold, the error classification, the camera-preference search, the engine's stop/clear
    sequence, and the observable effects a controller step produces. The decode engine, the
    DOM and Livewire's `$wire` are outside the model: their answers are parameters and the
    calls made to them are recorded as effects. */
module ScannerCore {
  import opened Wrappers
  import opened JsText

  // ---------------------------------------------------------------------------
  // Configuration values as they cross from PHP arrays to JavaScript objects

  datatype ConfigValue =
    | UndefinedValue
    | NullValue
    | BoolValue(b: bool)
    | IntValue(i: int)
    | RealValue(r: real)
    | StringValue(s: string)
    | BoxValue(width: int, height: int)
    | IntListValue(ids: seq<int>)

  /** JavaScript truthiness of a configuration value (objects and arrays are truthy). */
  predicate Truthy(v: ConfigValue) {
    match v
    case UndefinedValue => false
    case NullValue => false
    case BoolValue(b) => b
    case IntValue(i) => i != 0
    case RealValue(r) => r != 0.0
    case StringValue(s) => s != []
    case BoxValue(_, _) => true
    case IntListValue(_) => true
  }

  /** `config.key` on a JavaScript object built from a PHP array. */
  function Lookup(config: map<string, ConfigValue>, key: string): ConfigValue {
    if key in config then config[key] else UndefinedValue
  }

  // ---------------------------------------------------------------------------
  // Cameras and errors

  /** A camera as enumerated by the engine (`label` is a Dafny keyword, hence `deviceLabel`). */
  datatype Camera = Camera(id: string, deviceLabel: string)

  /** A thrown error: its `message` (empty when absent) and what `toString()` renders. */
  datatype JsError = JsError(message: string, rendered: string)

  /** `error.message || error.toString()`. */
  function ErrorString(e: JsError): (r: string)
    ensures e.message != [] ==> r == e.message
    ensures e.message == [] ==> r == e.rendered
  {
    if e.message != [] then e.message else e.rendered
  }

  /** The error both views throw themselves when no camera can be used. */
  const CameraUnavailableError := JsError("camera_unavailable", "Error: camera_unavailable")

  datatype ErrorType = NotSupported | Overconstrained | PermissionDenied | CameraUnavailable | Unknown

  /** The `errorType` strings of the widget's error event. */
  function ErrorTypeName(t: ErrorType): string {
    match t
    case NotSupported => "not_supported"
    case Overconstrained => "overconstrained"
    case PermissionDenied => "permission_denied"
    case CameraUnavailable => "camera_unavailable"
    case Unknown => "unknown"
  }

  predicate SignalsNotSupported(e: string) { Contains(e, "NotSupportedError") }
  predicate SignalsOverconstrained(e: string) { Contains(e, "OverconstrainedError") }
  predicate SignalsPermission(e: string) {
    Contains(e, "Permission") || Contains(e, "NotAllowedError") || Contains(e, "denied")
  }
  predicate SignalsUnavailable(e: string) {
    Contains(e, "camera_unavailable") || Contains(e, "NotFoundError") || Contains(e, "NotReadableError")
  }

  /** `handleError`'s classification: the first signal group, in a fixed order, that the error
      string contains decides the category. */
  function Classify(e: string): (t: ErrorType)
    ensures t == NotSupported <==> SignalsNotSupported(e)
    ensures t == Overconstrained <==> !SignalsNotSupported(e) && SignalsOverconstrained(e)
    ensures t == PermissionDenied <==>
      !SignalsNotSupported(e) && !SignalsOverconstrained(e) && SignalsPermission(e)
    ensures t == CameraUnavailable <==>
      !SignalsNotSupported(e) && !SignalsOverconstrained(e) && !SignalsPermission(e) && SignalsUnavailable(e)
    ensures t == Unknown <==>
      !SignalsNotSupported(e) && !SignalsOverconstrained(e) && !SignalsPermission(e) && !SignalsUnavailable(e)
  {
    if SignalsNotSupported(e) then NotSupported
    else if SignalsOverconstrained(e) then Overconstrained
    else if SignalsPermission(e) then PermissionDenied
    else if SignalsUnavailable(e) then CameraUnavailable
    else Unknown
  }

  /** The message key shown for each category; an unknown error shows the unavailable-camera text. */
  function MessageKey(t: ErrorType): string {
    match t
    case NotSupported => "browserNotSupported"
    case Overconstrained => "cameraConstraints"
    case PermissionDenied => "permissionDenied"
    case CameraUnavailable => "cameraUnavailable"
    case Unknown => "cameraUnavailable"
  }

  /** `labels.key` / `messages.key`; an absent key reads as `undefined`, shown as empty text. */
  function Message(messages: map<string, string>, key: string): (r: string)
    ensures key in messages ==> r == messages[key]
    ensures key !in messages ==> r == []
  {
    if key in messages then messages[key] else ""
  }

  /** An error string naming `NotAllowedError` is a permission error unless an earlier
      signal group (not supported, overconstrained) matches first. */
  lemma NotAllowedIsPermissionDenied(e: string)
    requires Contains(e, "NotAllowedError")
    requires !SignalsNotSupported(e) && !SignalsOverconstrained(e)
    ensures Classify(e) == PermissionDenied && MessageKey(Classify(e)) == "permissionDenied"
  {
  }

  /** Order matters: an error naming both `NotSupportedError` and `NotAllowedError` is
      classified as not supported. */
  lemma NotSupportedWinsOverPermission(e: string)
    requires Contains(e, "NotSupportedError") && Contains(e, "NotAllowedError")
    ensures Classify(e) == NotSupported
  {
  }

  /** An error matching no signal gets category `unknown` and the unavailable-camera message,
      the same message as a recognised unavailable camera. */
  lemma UnknownFallsBackToUnavailableMessage(e: string)
    requires Classify(e) == Unknown
    ensures ErrorTypeName(Classify(e)) == "unknown"
    ensures MessageKey(Classify(e)) == MessageKey(CameraUnavailable)
  {
  }

  /** The views' own `camera_unavailable` error is classified as an unavailable camera. */
  lemma OwnErrorIsCameraUnavailable()
    ensures Classify(ErrorString(CameraUnavailableError)) == CameraUnavailable
  {
    OwnErrorNotSupported();
    OwnErrorNotOverconstrained();
    OwnErrorNotPermission();
    OwnErrorNotAllowed();
    OwnErrorNotDenied();
    assert "camera_unavailable" <= "camera_unavailable";
  }

  // One signal word per lemma: each check runs over the whole literal text.
  lemma OwnErrorNotSupported() ensures !Contains("camera_unavailable", "NotSupportedError") {
    AbsentChar("camera_unavailable", "NotSupportedError", 'N');
  }
  lemma OwnErrorNotOverconstrained() ensures !Contains("camera_unavailable", "OverconstrainedError") {
    AbsentChar("camera_unavailable", "OverconstrainedError", 'O');
  }
  lemma OwnErrorNotPermission() ensures !Contains("camera_unavailable", "Permission") {
    AbsentChar("camera_unavailable", "Permission", 'P');
  }
  lemma OwnErrorNotAllowed() ensures !Contains("camera_unavailable", "NotAllowedError") {
    AbsentChar("camera_unavailable", "NotAllowedError", 'N');
  }
  lemma OwnErrorNotDenied() ensures !Contains("camera_unavailable", "denied") {
    AbsentChar("camera_unavailable", "denied", 'd');
  }

  // ---------------------------------------------------------------------------
  // Camera preference

  datatype Preference = PreferBack | PreferFront

  /** The `find` predicate: the lower-cased label contains one of the preference's words. */
  predicate LabelMatches(pref: Preference, deviceLabel: string) {
    var l := ToLower(deviceLabel);
    match pref
    case PreferBack => Contains(l, "back") || Contains(l, "rear") || Contains(l, "environment")
    case PreferFront => Contains(l, "front") || Contains(l, "user")
  }

  /** Matching ignores case: labels that differ only in the case of ASCII letters match the
      same preferences. */
  lemma LabelMatchIgnoresCase(pref: Preference, a: string, b: string)
    requires SameUpToCase(a, b)
    ensures LabelMatches(pref, a) <==> LabelMatches(pref, b)
  {
    ToLowerIgnoresCase(a, b);
  }

  /** `cameras.find(...)` followed by `cameras.indexOf(found)`: the first matching position. */
  function FindPreferred(cameras: seq<Camera>, pref: Preference): (r: Option<nat>)
    ensures r.Some? ==> r.value < |cameras| && LabelMatches(pref, cameras[r.value].deviceLabel)
    ensures r.Some? ==> forall k :: 0 <= k < r.value ==> !LabelMatches(pref, cameras[k].deviceLabel)
    ensures r.None? ==> forall k :: 0 <= k < |cameras| ==> !LabelMatches(pref, cameras[k].deviceLabel)
    decreases |cameras|
  {
    if cameras == [] then None
    else if LabelMatches(pref, cameras[0].deviceLabel) then Some(0)
    else match FindPreferred(cameras[1..], pref)
      case None => None
      case Some(k) => Some(k + 1)
  }

  /** The initial camera: the first matching one, else index 0. */
  function PreferredIndex(cameras: seq<Camera>, pref: Preference): (r: nat)
    ensures |cameras| > 0 ==> r < |cameras|
    ensures (exists k :: 0 <= k < |cameras| && LabelMatches(pref, cameras[k].deviceLabel)) ==>
      LabelMatches(pref, cameras[r].deviceLabel) && forall k :: 0 <= k < r ==> !LabelMatches(pref, cameras[k].deviceLabel)
    ensures (forall k :: 0 <= k < |cameras| ==> !LabelMatches(pref, cameras[k].deviceLabel)) ==> r == 0
  {
    match FindPreferred(cameras, pref)
    case Some(k) => k
    case None => 0
  }

  /** Example cameras: a front-facing one listed before a back-facing one. */
  const FrontThenBack := [Camera("cam-front", "Front"), Camera("cam-back", "Back Camera")]

  /** "Front" matches the front preference only. */
  lemma FrontLabelMatches()
    ensures LabelMatches(PreferFront, "Front") && !LabelMatches(PreferBack, "Front")
  {
    assert ToLower("Front") == "front";
    assert "front" <= "front";
    AbsentChar("front", "back", 'b');
    AbsentChar("front", "rear", 'a');
    AbsentChar("front", "environment", 'v');
  }

  /** "Back Camera" matches the back preference. */
  lemma BackLabelMatches()
    ensures LabelMatches(PreferBack, "Back Camera")
  {
    var back := ToLower("Back Camera");
    assert back == "back camera";
    assert "back" <= back;
  }

  /** The back preference picks "Back Camera" (index 1); the front preference picks index 0. */
  lemma PreferenceExample()
    ensures PreferredIndex(FrontThenBack, PreferBack) == 1
    ensures PreferredIndex(FrontThenBack, PreferFront) == 0
  {
    FrontLabelMatches();
    BackLabelMatches();
  }

  // ---------------------------------------------------------------------------
  // Engine handle, engine calls and stop sequence

  /** An `Html5Qrcode` instance bound to the container element with this id. */
  datatype Handle = Handle(containerId: string)

  /** `Html5QrcodeScannerState`. */
  datatype EngineStatus = UnknownStatus | NotStarted | Scanning | Paused

  datatype EngineCall = Start(cameraId: string, config: map<string, ConfigValue>) | Stop | Clear

  /** How the engine answers an awaited `stopScanning`: the state `getState()` reports,
      whether `stop()` rejects, and whether the first `clear()` rejects. */
  datatype StopOracle = StopOracle(status: EngineStatus, stopFails: bool, clearFails: bool)

  /** The widget's window events. */
  datatype ScannerEvent =
    | Ready(cameraCount: nat, currentCamera: Camera)
    | Stopped
    | Scanned(value: string, formatId: int, formatName: string)
    | ErrorRaised(error: string, errorType: string)

  function EventName(ev: ScannerEvent): string {
    match ev
    case Ready(_, _) => "barcode-scanner-ready"
    case Stopped => "barcode-scanner-stopped"
    case Scanned(_, _, _) => "barcode-scanned"
    case ErrorRaised(_, _) => "barcode-scanner-error"
  }

  /** What a controller step does outside its own fields: engine calls, window events tagged
      with the scanner id, and the modal's `$wire` calls. */
  datatype Effect =
    | Engine(call: EngineCall)
    | Dispatch(scannerId: string, event: ScannerEvent)
    | WireProcessBarcodeScan(statePath: Option<string>, value: string, formatId: int)
    | WireSet(path: string, value: string)
    | UnmountFormComponentAction
    | UnmountAction

  /** The engine calls of the awaited stop: `stop()` only while scanning or paused, then
      `clear()`; when either rejects, `clear()` is tried once more. Nothing is rethrown. */
  function StopCalls(o: StopOracle): (r: seq<Effect>)
    ensures Engine(Stop) in r <==> o.status == Scanning || o.status == Paused
    ensures 1 <= |r| <= 3 && r[|r| - 1] == Engine(Clear)
    ensures forall k :: 0 <= k < |r| ==> r[k].Engine? && !r[k].call.Start?
  {
    var stops := o.status == Scanning || o.status == Paused;
    if stops && o.stopFails then [Engine(Stop), Engine(Clear)]
    else (if stops then [Engine(Stop)] else []) + [Engine(Clear)] + (if o.clearFails then [Engine(Clear)] else [])
  }

  // ---------------------------------------------------------------------------
  // Controller state

  /** The state fields both views declare in `x-data`; `containerId` is the id attribute of
      the `scannerContainer` element. */
  datatype Session = Session(
    isScanning: bool,
    isLoading: bool,
    cameraError: bool,
    cameraErrorMessage: string,
    scanner: Option<Handle>,
    cameras: seq<Camera>,
    currentCameraIndex: nat,
    currentCameraLabel: string,
    containerId: string)

  const InitialSession := Session(false, false, false, [], None, [], 0, [], [])

  /** The selected camera exists whenever there are cameras. */
  predicate ValidSession(s: Session) {
    |s.cameras| > 0 ==> s.currentCameraIndex < |s.cameras|
  }

  /** The state after a controller method and the effects it produced, in order. */
  datatype Step = Step(session: Session, effects: seq<Effect>)

  /** The circular advance of `switchCamera`. */
  function NextCameraIndex(i: nat, n: nat): (r: nat)
    requires n > 0
    ensures r < n
    ensures i + 1 < n ==> r == i + 1
    ensures i + 1 == n ==> r == 0
  {
    (i + 1) % n
  }

  /** Two advances on two cameras come back to the start. */
  lemma NextCameraTwiceOnTwo(i: nat)
    requires i < 2
    ensures NextCameraIndex(NextCameraIndex(i, 2), 2) == i
  {
  }

  /** `error.message?.includes('removeChild') || error.message?.includes('clear')`: the
      teardown races `switchCamera` deliberately ignores. */
  predicate SuppressedDuringSwitch(e: JsError) {
    Contains(e.message, "removeChild") || Contains(e.message, "clear")
  }

  // ---------------------------------------------------------------------------
  // The controller steps both views share

  /** What tells the two views' controllers apart: where events go (the widget tags them
      with its scanner id, the modal dispatches none), the container id used when the
      element has none, the camera preference, the engine configuration and the messages. */
  datatype Profile = Profile(
    eventScope: Option<string>,
    fallbackContainerId: string,
    preference: Preference,
    engineConfig: map<string, ConfigValue>,
    messages: map<string, string>)

  /** `dispatchScannerEvent` where the view has one; nothing where it has not. */
  function Emit(p: Profile, ev: ScannerEvent): seq<Effect> {
    if p.eventScope.Some? then [Dispatch(p.eventScope.value, ev)] else []
  }

  /** Every dispatched event carries the view's own scanner id. */
  predicate Scoped(p: Profile, effects: seq<Effect>) {
    forall k :: 0 <= k < |effects| && effects[k].Dispatch? ==>
      p.eventScope == Some(effects[k].scannerId)
  }

  /** Tagging is checked effect by effect, so it holds for a concatenation exactly when it
      holds for both parts. */
  lemma ScopedConcat(p: Profile, a: seq<Effect>, b: seq<Effect>)
    ensures Scoped(p, a + b) <==> Scoped(p, a) && Scoped(p, b)
  {
    if Scoped(p, a) && Scoped(p, b) {
      forall k | 0 <= k < |a + b| && (a + b)[k].Dispatch?
        ensures p.eventScope == Some((a + b)[k].scannerId)
      {
        if k >= |a| {
          assert (a + b)[k] == b[k - |a|];
        }
      }
    }
    if Scoped(p, a + b) {
      forall k | 0 <= k < |a| && a[k].Dispatch?
        ensures p.eventScope == Some(a[k].scannerId)
      {
        assert (a + b)[k] == a[k];
      }
      forall k | 0 <= k < |b| && b[k].Dispatch?
        ensures p.eventScope == Some(b[k].scannerId)
      {
        assert (a + b)[|a| + k] == b[k];
      }
    }
  }

  /** No engine call is made. */
  predicate NoEngineCalls(effects: seq<Effect>) {
    forall k :: 0 <= k < |effects| ==> !effects[k].Engine?
  }

  /** While the flag says a camera is scanning, there is a camera and the selected index
      names one. */
  predicate Consistent(s: Session) {
    s.isScanning ==> 0 < |s.cameras| && s.currentCameraIndex < |s.cameras|
  }

  /** `handleError`: scanning and loading end, the error flag is raised, the message of the
      error's category is shown and, in the widget, the error is reported. */
  function HandleErrorStep(p: Profile, s: Session, e: JsError): (r: Step)
    ensures !r.session.isScanning && !r.session.isLoading && r.session.cameraError
    ensures r.session.cameraErrorMessage == Message(p.messages, MessageKey(Classify(ErrorString(e))))
    ensures r.session.scanner == s.scanner && r.session.cameras == s.cameras
    ensures r.session.currentCameraIndex == s.currentCameraIndex
    ensures r.session.currentCameraLabel == s.currentCameraLabel && r.session.containerId == s.containerId
    ensures r.effects == Emit(p, ErrorRaised(ErrorString(e), ErrorTypeName(Classify(ErrorString(e)))))
  {
    var t := Classify(ErrorString(e));
    Step(s.(isScanning := false, isLoading := false, cameraError := true,
            cameraErrorMessage := Message(p.messages, MessageKey(t))),
         Emit(p, ErrorRaised(ErrorString(e), ErrorTypeName(t))))
  }

  /** The label shown for the selected camera: its own label, else "Camera <n>" (1-based). */
  function CameraLabel(c: Camera, index: nat): string {
    if c.deviceLabel != [] then c.deviceLabel else "Camera " + NatToString(index + 1)
  }

  /** The label shown is the camera's own label when it has one; otherwise it is "Camera "
      followed by digits that denote the camera's 1-based position. */
  lemma CameraLabelNamesPosition(c: Camera, index: nat)
    ensures c.deviceLabel != [] ==> CameraLabel(c, index) == c.deviceLabel
    ensures c.deviceLabel == [] ==>
      var r := CameraLabel(c, index);
      |r| > 7 && r[..7] == "Camera " && DigitsValue(r[7..]) == index + 1 && r[7] != '0'
  {
    if c.deviceLabel == [] {
      var digits := NatToString(index + 1);
      assert CameraLabel(c, index)[7..] == digits;
    }
  }

  /** `startCamera`: without an engine instance or cameras, nothing; otherwise the label of
      the selected camera is shown and the engine is started on it. A rejected start goes to
      `handleError` and is not rethrown. */
  function StartCameraStep(p: Profile, s: Session, start: Outcome<JsError>): Step
    requires |s.cameras| > 0 ==> s.currentCameraIndex < |s.cameras|
  {
    if s.scanner.None? || |s.cameras| == 0 then Step(s, [])
    else
      var camera := s.cameras[s.currentCameraIndex];
      var s1 := s.(currentCameraLabel := CameraLabel(camera, s.currentCameraIndex));
      var call := [Engine(Start(camera.id, p.engineConfig))];
      match start
      case Pass => Step(s1, call)
      case Fail(e) =>
        var h := HandleErrorStep(p, s1, e);
        Step(h.session, call + h.effects)
  }

  /** How the environment answers `startScanning`'s awaits: whether the library script
      loads, whether `getUserMedia` exists, what camera enumeration resolves to, whether
      `new Html5Qrcode(...)` throws, and whether `start(...)` rejects. */
  datatype StartOracle = StartOracle(
    libraryLoads: bool,
    hasGetUserMedia: bool,
    enumeration: Result<seq<Camera>, JsError>,
    bind: Outcome<JsError>,
    start: Outcome<JsError>)

  /** The error the script loader rejects with. */
  const LibraryLoadError := JsError("Failed to load scanner library", "Error: Failed to load scanner library")

  /** `startScanning`: loading starts and the error is cleared; then, in order, library,
      `getUserMedia`, enumeration (stored even when empty), a non-empty camera list, the
      container id, the engine instance, the preferred camera and `startCamera`; the widget
      then reports readiness. Any throw goes to `handleError`; loading always ends. */
  function StartScanningStep(p: Profile, s: Session, o: StartOracle): Step {
    var s0 := s.(isLoading := true, cameraError := false, cameraErrorMessage := []);
    var r := StartScanningBody(p, s0, o);
    Step(r.session.(isLoading := false), r.effects)
  }

  /** The `try` block of `startScanning` with its `catch`. */
  function StartScanningBody(p: Profile, s0: Session, o: StartOracle): Step {
    if !o.libraryLoads then HandleErrorStep(p, s0, LibraryLoadError)
    else if !o.hasGetUserMedia then HandleErrorStep(p, s0, CameraUnavailableError)
    else match o.enumeration
      case Failure(e) => HandleErrorStep(p, s0, e)
      case Success(cams) =>
        if |cams| == 0 then HandleErrorStep(p, s0.(cameras := cams), CameraUnavailableError)
        else StartWithCameras(p, s0.(cameras := cams), o)
  }

  /** The rest of the `try` block once a non-empty camera list is stored. */
  function StartWithCameras(p: Profile, s1: Session, o: StartOracle): Step
    requires |s1.cameras| > 0
  {
    var cid := if s1.containerId != [] then s1.containerId else p.fallbackContainerId;
    var s2 := s1.(isScanning := true, containerId := cid);
    match o.bind
    case Fail(e) => HandleErrorStep(p, s2, e)
    case Pass => BoundStartStep(p, s2, o.start)
  }

  /** Once the engine instance is bound to the container: the preferred camera is selected,
      `startCamera` runs and the widget reports readiness. */
  function BoundStartStep(p: Profile, s2: Session, start: Outcome<JsError>): Step
    requires |s2.cameras| > 0
  {
    var s3 := s2.(scanner := Some(Handle(s2.containerId)), currentCameraIndex := PreferredIndex(s2.cameras, p.preference));
    var c := StartCameraStep(p, s3, start);
    Step(c.session, c.effects + Emit(p, Ready(|s3.cameras|, s3.cameras[s3.currentCameraIndex])))
  }

  /** `stopScanning`: the engine is stopped and cleared as `StopCalls` says, the instance is
      dropped, scanning and loading end, and the widget reports the stop. */
  function StopScanningStep(p: Profile, s: Session, o: StopOracle): Step {
    var calls := if s.scanner.Some? then StopCalls(o) else [];
    Step(s.(scanner := None, isScanning := false, isLoading := false), calls + Emit(p, Stopped))
  }

  /** `stopScanningSync` (on `destroy`): `stop()` and `clear()` without waiting, the
      instance dropped, scanning ended; loading is left as it was. */
  function StopScanningSyncStep(s: Session): Step {
    var calls := if s.scanner.Some? then [Engine(Stop), Engine(Clear)] else [];
    Step(s.(scanner := None, isScanning := false), calls)
  }

  /** `switchCamera`: ignored with one camera or while loading; otherwise the engine is
      released (errors ignored), the next camera is selected, a new instance is bound to the
      container and `startCamera` runs. A throw whose message names `removeChild` or
      `clear` is swallowed, any other one goes to `handleError`; loading always ends. */
  function SwitchCameraStep(p: Profile, s: Session, bind: Outcome<JsError>, start: Outcome<JsError>): Step {
    if |s.cameras| <= 1 || s.isLoading then Step(s, [])
    else
      var a := AdvanceStep(s);
      var r := RebindStep(p, a.session, bind, start);
      Step(r.session.(isLoading := false), a.effects + r.effects)
  }

  /** Loading starts, the instance is released and the next camera is selected. */
  function AdvanceStep(s: Session): (r: Step)
    requires |s.cameras| > 0
    ensures r.session == s.(isLoading := true, scanner := None,
                            currentCameraIndex := NextCameraIndex(s.currentCameraIndex, |s.cameras|))
    ensures r.effects == ReleaseStep(s).effects
  {
    var release := ReleaseStep(s.(isLoading := true));
    Step(release.session.(currentCameraIndex := NextCameraIndex(s.currentCameraIndex, |s.cameras|)), release.effects)
  }

  /** An existing instance is stopped (awaited, a rejection ignored) and cleared (a throw
      ignored), and dropped; nothing else changes. */
  function ReleaseStep(s: Session): (r: Step)
    ensures r.session == s.(scanner := None)
    ensures s.scanner.Some? <==> r.effects == [Engine(Stop), Engine(Clear)]
    ensures s.scanner.None? <==> r.effects == []
  {
    var calls := if s.scanner.Some? then [Engine(Stop), Engine(Clear)] else [];
    Step(s.(scanner := None), calls)
  }

  /** The part of `switchCamera` after the next camera is selected, with its `catch`. */
  function RebindStep(p: Profile, s1: Session, bind: Outcome<JsError>, start: Outcome<JsError>): Step
    requires s1.currentCameraIndex < |s1.cameras|
  {
    match bind
    case Fail(e) => if SuppressedDuringSwitch(e) then Step(s1, []) else HandleErrorStep(p, s1, e)
    case Pass => StartCameraStep(p, s1.(scanner := Some(Handle(s1.containerId))), start)
  }
}
