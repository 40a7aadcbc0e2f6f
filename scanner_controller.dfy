/** The Alpine controller object both views declare in `x-data`: its state fields are updated
    in place by its methods, and everything it does outside itself (engine calls, window
    events, `$wire` calls) is appended to `trace`. Each method is proved to follow the
    matching step function of `ScannerCore`. */
module ScannerControl {
  import opened Wrappers
  import opened JsText
  import opened ScannerCore

  class ScannerController {
    const profile: Profile

    var isScanning: bool
    var isLoading: bool
    var cameraError: bool
    var cameraErrorMessage: string
    var scanner: Option<Handle>
    var cameras: seq<Camera>
    var currentCameraIndex: nat
    var currentCameraLabel: string
    /** The `id` attribute of the `scannerContainer` element. */
    var containerId: string
    /** The effects produced so far, oldest first. */
    var trace: seq<Effect>

    /** The controller's fields as a value. */
    function State(): Session
      reads this
    {
      Session(isScanning, isLoading, cameraError, cameraErrorMessage, scanner,
              cameras, currentCameraIndex, currentCameraLabel, containerId)
    }

    /** The initial `x-data` values, on a container element carrying this id attribute. */
    constructor(p: Profile, elementId: string)
      ensures profile == p
      ensures State() == InitialSession.(containerId := elementId)
      ensures trace == []
    {
      profile := p;
      isScanning, isLoading, cameraError, cameraErrorMessage := false, false, false, [];
      scanner, cameras, currentCameraIndex, currentCameraLabel := None, [], 0, [];
      containerId := elementId;
      trace := [];
    }

    /** Appends the view's event, if it dispatches events. */
    method DispatchEvent(ev: ScannerEvent)
      modifies this
      ensures State() == old(State())
      ensures trace == old(trace) + Emit(profile, ev)
    {
      if profile.eventScope.Some? {
        trace := trace + [Dispatch(profile.eventScope.value, ev)];
      }
    }

    method HandleError(e: JsError)
      modifies this
      ensures State() == HandleErrorStep(profile, old(State()), e).session
      ensures trace == old(trace) + HandleErrorStep(profile, old(State()), e).effects
    {
      isScanning := false;
      isLoading := false;
      cameraError := true;
      var errorString := ErrorString(e);
      var t := Classify(errorString);
      cameraErrorMessage := Message(profile.messages, MessageKey(t));
      DispatchEvent(ErrorRaised(errorString, ErrorTypeName(t)));
    }

    method StartCamera(start: Outcome<JsError>)
      requires |cameras| > 0 ==> currentCameraIndex < |cameras|
      modifies this
      ensures State() == StartCameraStep(profile, old(State()), start).session
      ensures trace == old(trace) + StartCameraStep(profile, old(State()), start).effects
    {
      if scanner.None? || |cameras| == 0 {
        return;
      }
      var camera := cameras[currentCameraIndex];
      currentCameraLabel := CameraLabel(camera, currentCameraIndex);
      trace := trace + [Engine(Start(camera.id, profile.engineConfig))];
      if start.Fail? {
        HandleError(start.error);
      }
    }

    /** `init`. */
    method Init(o: StartOracle)
      modifies this
      ensures State() == StartScanningStep(profile, old(State()), o).session
      ensures trace == old(trace) + StartScanningStep(profile, old(State()), o).effects
    {
      StartScanning(o);
    }

    method StartScanning(o: StartOracle)
      modifies this
      ensures State() == StartScanningStep(profile, old(State()), o).session
      ensures trace == old(trace) + StartScanningStep(profile, old(State()), o).effects
    {
      isLoading := true;
      cameraError := false;
      cameraErrorMessage := [];
      TryStart(o);
      isLoading := false;
    }

    /** The `try` block of `startScanning` with its `catch`. */
    method TryStart(o: StartOracle)
      modifies this
      ensures State() == StartScanningBody(profile, old(State()), o).session
      ensures trace == old(trace) + StartScanningBody(profile, old(State()), o).effects
    {
      if !o.libraryLoads {
        HandleError(LibraryLoadError);
      } else if !o.hasGetUserMedia {
        HandleError(CameraUnavailableError);
      } else if o.enumeration.Failure? {
        HandleError(o.enumeration.error);
      } else {
        cameras := o.enumeration.value;
        if |cameras| == 0 {
          HandleError(CameraUnavailableError);
        } else {
          StartWithCameras(o);
        }
      }
    }

    method StartWithCameras(o: StartOracle)
      requires |cameras| > 0
      modifies this
      ensures State() == ScannerCore.StartWithCameras(profile, old(State()), o).session
      ensures trace == old(trace) + ScannerCore.StartWithCameras(profile, old(State()), o).effects
    {
      isScanning := true;
      if containerId == [] {
        containerId := profile.fallbackContainerId;
      }
      if o.bind.Fail? {
        HandleError(o.bind.error);
      } else {
        StartBound(o.start);
      }
    }

    method StartBound(start: Outcome<JsError>)
      requires |cameras| > 0
      modifies this
      ensures State() == BoundStartStep(profile, old(State()), start).session
      ensures trace == old(trace) + BoundStartStep(profile, old(State()), start).effects
    {
      scanner := Some(Handle(containerId));
      currentCameraIndex := PreferredIndex(cameras, profile.preference);
      ghost var s3 := State();
      StartCamera(start);
      assert cameras == s3.cameras && currentCameraIndex == s3.currentCameraIndex;
      DispatchEvent(Ready(|cameras|, cameras[currentCameraIndex]));
    }

    method StopScanning(o: StopOracle)
      modifies this
      ensures State() == StopScanningStep(profile, old(State()), o).session
      ensures trace == old(trace) + StopScanningStep(profile, old(State()), o).effects
    {
      if scanner.Some? {
        trace := trace + StopCalls(o);
        scanner := None;
      }
      isScanning := false;
      isLoading := false;
      DispatchEvent(Stopped);
    }

    /** `await this.stopScanning()` in `onScanSuccess`, followed by what the view does with
        the scan. */
    method StopScanningThen(o: StopOracle, after: seq<Effect>)
      modifies this
      ensures State() == StopScanningStep(profile, old(State()), o).session
      ensures trace == old(trace) + (StopScanningStep(profile, old(State()), o).effects + after)
    {
      ghost var stop := StopScanningStep(profile, State(), o);
      StopScanning(o);
      assert trace == old(trace) + stop.effects;
      trace := trace + after;
    }

    /** `destroy`. */
    method Destroy()
      modifies this
      ensures State() == StopScanningSyncStep(old(State())).session
      ensures trace == old(trace) + StopScanningSyncStep(old(State())).effects
    {
      StopScanningSync();
    }

    method StopScanningSync()
      modifies this
      ensures State() == StopScanningSyncStep(old(State())).session
      ensures trace == old(trace) + StopScanningSyncStep(old(State())).effects
    {
      if scanner.Some? {
        trace := trace + [Engine(Stop), Engine(Clear)];
        scanner := None;
      }
      isScanning := false;
    }

    /** `switchCamera`, with whether binding the new instance throws and whether its start
        rejects. */
    method SwitchCamera(bind: Outcome<JsError>, start: Outcome<JsError>)
      modifies this
      ensures State() == SwitchCameraStep(profile, old(State()), bind, start).session
      ensures trace == old(trace) + SwitchCameraStep(profile, old(State()), bind, start).effects
    {
      if |cameras| <= 1 || isLoading {
        return;
      }
      Advance();
      Rebind(bind, start);
      isLoading := false;
    }

    /** Loading starts, the instance is released and the next camera is selected. */
    method Advance()
      requires |cameras| > 0
      modifies this
      ensures State() == AdvanceStep(old(State())).session
      ensures trace == old(trace) + AdvanceStep(old(State())).effects
    {
      isLoading := true;
      Release();
      currentCameraIndex := NextCameraIndex(currentCameraIndex, |cameras|);
    }

    /** Stops the instance (awaited, a rejection ignored), clears it (a throw ignored) and drops it. */
    method Release()
      modifies this
      ensures State() == ReleaseStep(old(State())).session
      ensures trace == old(trace) + ReleaseStep(old(State())).effects
    {
      if scanner.Some? {
        trace := trace + [Engine(Stop), Engine(Clear)];
        scanner := None;
      }
    }

    /** Binds a new instance to the container and starts it on the selected camera; a
        teardown race reported while binding is ignored. */
    method Rebind(bind: Outcome<JsError>, start: Outcome<JsError>)
      requires currentCameraIndex < |cameras|
      modifies this
      ensures State() == RebindStep(profile, old(State()), bind, start).session
      ensures trace == old(trace) + RebindStep(profile, old(State()), bind, start).effects
    {
      if bind.Fail? {
        if !SuppressedDuringSwitch(bind.error) {
          HandleError(bind.error);
        }
      } else {
        scanner := Some(Handle(containerId));
        StartCamera(start);
      }
    }
  }
}
