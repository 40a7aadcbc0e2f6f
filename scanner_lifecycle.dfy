/** What the shared controller steps guarantee, whichever way the environment answers:
    starting settles, stopping is terminal, switching is guarded and circular, and every
    event is tagged with the view's own scanner id. */
module ScannerLifecycle {
  import opened Wrappers
  import opened JsText
  import opened ScannerCore

  /** The container id `startScanning` settles on. */
  function ContainerFor(p: Profile, s: Session): string {
    if s.containerId != [] then s.containerId else p.fallbackContainerId
  }

  /** An environment where everything up to `start(...)` succeeds and finds these cameras. */
  predicate ReachesStart(o: StartOracle, cams: seq<Camera>) {
    o.libraryLoads && o.hasGetUserMedia && o.enumeration == Success(cams) && |cams| > 0 && o.bind == Pass
  }

  // ---------------------------------------------------------------------------
  // startScanning

  /** An empty camera list is the views' own `camera_unavailable` error: nothing is started,
      the unavailable-camera message is shown, and the widget reports `camera_unavailable`. */
  lemma NoCamerasReportsUnavailable(p: Profile, s: Session, o: StartOracle)
    requires o.libraryLoads && o.hasGetUserMedia && o.enumeration == Success([])
    ensures var r := StartScanningStep(p, s, o);
      && r.session.cameraError && !r.session.isScanning && !r.session.isLoading
      && r.session.cameras == [] && r.session.scanner == s.scanner
      && r.session.cameraErrorMessage == Message(p.messages, "cameraUnavailable")
      && r.effects == Emit(p, ErrorRaised("camera_unavailable", "camera_unavailable"))
  {
    OwnErrorIsCameraUnavailable();
  }

  /** A missing `getUserMedia` is reported the same way, before any camera is enumerated. */
  lemma NoMediaDevicesReportsUnavailable(p: Profile, s: Session, o: StartOracle)
    requires o.libraryLoads && !o.hasGetUserMedia
    ensures var r := StartScanningStep(p, s, o);
      && r.session.cameraError && !r.session.isScanning && r.session.cameras == s.cameras
      && r.effects == Emit(p, ErrorRaised("camera_unavailable", "camera_unavailable"))
  {
    OwnErrorIsCameraUnavailable();
  }

  /** When every await succeeds, the preferred camera is scanning in the settled container,
      its label is shown, the engine got exactly one start call for it, and the widget then
      reports readiness with the camera count and that camera. */
  lemma StartSucceeds(p: Profile, s: Session, o: StartOracle, cams: seq<Camera>)
    requires ReachesStart(o, cams) && o.start == Pass
    ensures var r := StartScanningStep(p, s, o);
      var i := PreferredIndex(cams, p.preference);
      && r.session.isScanning && !r.session.isLoading && !r.session.cameraError
      && r.session.cameraErrorMessage == []
      && r.session.cameras == cams && r.session.currentCameraIndex == i
      && r.session.scanner == Some(Handle(ContainerFor(p, s)))
      && r.session.containerId == ContainerFor(p, s)
      && r.session.currentCameraLabel == CameraLabel(cams[i], i)
      && r.effects == [Engine(Start(cams[i].id, p.engineConfig))] + Emit(p, Ready(|cams|, cams[i]))
  {
  }

  /** A rejected `start(...)` is handled inside `startCamera`, so `startScanning` goes on: the
      widget reports the error and then readiness, and the engine instance is kept although
      nothing is scanning. */
  lemma StartRejectedStillReportsReady(p: Profile, s: Session, o: StartOracle, cams: seq<Camera>, e: JsError)
    requires ReachesStart(o, cams) && o.start == Fail(e)
    ensures var r := StartScanningStep(p, s, o);
      var i := PreferredIndex(cams, p.preference);
      && r.session.cameraError && !r.session.isScanning && !r.session.isLoading
      && r.session.scanner == Some(Handle(ContainerFor(p, s)))
      && r.effects == [Engine(Start(cams[i].id, p.engineConfig))]
                      + Emit(p, ErrorRaised(ErrorString(e), ErrorTypeName(Classify(ErrorString(e)))))
                      + Emit(p, Ready(|cams|, cams[i]))
  {
  }

  /** However the environment answers, `startScanning` ends not loading, in a consistent
      state, scanning exactly when no error is shown, with every event tagged. */
  lemma StartScanningSettles(p: Profile, s: Session, o: StartOracle)
    ensures var r := StartScanningStep(p, s, o);
      && !r.session.isLoading
      && Consistent(r.session)
      && (r.session.isScanning <==> !r.session.cameraError)
      && Scoped(p, r.effects)
  {
    var s0 := s.(isLoading := true, cameraError := false, cameraErrorMessage := []);
    if !o.libraryLoads {
      HandleErrorSettles(p, s0, LibraryLoadError);
    } else if !o.hasGetUserMedia {
      HandleErrorSettles(p, s0, CameraUnavailableError);
    } else if o.enumeration.Failure? {
      HandleErrorSettles(p, s0, o.enumeration.error);
    } else if |o.enumeration.value| == 0 {
      HandleErrorSettles(p, s0.(cameras := o.enumeration.value), CameraUnavailableError);
    } else {
      StartWithCamerasSettles(p, s0.(cameras := o.enumeration.value), o);
    }
  }

  /** `handleError` leaves nothing scanning and an error shown. */
  lemma HandleErrorSettles(p: Profile, s: Session, e: JsError)
    ensures var r := HandleErrorStep(p, s, e);
      && !r.session.isScanning && r.session.cameraError && !r.session.isLoading
      && Consistent(r.session) && Scoped(p, r.effects)
  {
  }

  /** `startCamera` keeps the state consistent, keeps "scanning exactly when no error is
      shown", and tags its events. */
  lemma StartCameraSettles(p: Profile, s: Session, start: Outcome<JsError>)
    requires |s.cameras| > 0 ==> s.currentCameraIndex < |s.cameras|
    ensures var r := StartCameraStep(p, s, start);
      && (Consistent(s) ==> Consistent(r.session))
      && ((s.isScanning <==> !s.cameraError) ==> (r.session.isScanning <==> !r.session.cameraError))
      && Scoped(p, r.effects)
  {
    if s.scanner.Some? && |s.cameras| > 0 && start.Fail? {
      var camera := s.cameras[s.currentCameraIndex];
      var s1 := s.(currentCameraLabel := CameraLabel(camera, s.currentCameraIndex));
      HandleErrorSettles(p, s1, start.error);
      ScopedConcat(p, [Engine(Start(camera.id, p.engineConfig))], HandleErrorStep(p, s1, start.error).effects);
    }
  }

  /** The part of `startScanning` after a non-empty camera list is stored, started with no
      error shown. */
  lemma StartWithCamerasSettles(p: Profile, s1: Session, o: StartOracle)
    requires |s1.cameras| > 0 && !s1.cameraError
    ensures var r := StartWithCameras(p, s1, o);
      && Consistent(r.session)
      && (r.session.isScanning <==> !r.session.cameraError)
      && Scoped(p, r.effects)
  {
    var cid := if s1.containerId != [] then s1.containerId else p.fallbackContainerId;
    var s2 := s1.(isScanning := true, containerId := cid);
    if o.bind.Fail? {
      HandleErrorSettles(p, s2, o.bind.error);
    } else {
      var s3 := s2.(scanner := Some(Handle(s2.containerId)), currentCameraIndex := PreferredIndex(s2.cameras, p.preference));
      StartCameraSettles(p, s3, o.start);
      var c := StartCameraStep(p, s3, o.start);
      ScopedConcat(p, c.effects, Emit(p, Ready(|s3.cameras|, s3.cameras[s3.currentCameraIndex])));
    }
  }

  // ---------------------------------------------------------------------------
  // stopScanning and stopScanningSync

  /** `stopScanning` ends scanning and loading and drops the instance, touching nothing else;
      `stop()` is called exactly when an instance was scanning or paused; nothing is started;
      the widget's last effect is the stopped event. */
  lemma StopScanningEnds(p: Profile, s: Session, o: StopOracle)
    ensures var r := StopScanningStep(p, s, o);
      && !r.session.isScanning && !r.session.isLoading && r.session.scanner.None?
      && r.session.cameras == s.cameras && r.session.currentCameraIndex == s.currentCameraIndex
      && r.session.cameraError == s.cameraError && r.session.cameraErrorMessage == s.cameraErrorMessage
      && (Engine(Stop) in r.effects <==> s.scanner.Some? && (o.status == Scanning || o.status == Paused))
      && (forall k :: 0 <= k < |r.effects| && r.effects[k].Engine? ==> !r.effects[k].call.Start?)
      && (p.eventScope.Some? ==> r.effects[|r.effects| - 1] == Dispatch(p.eventScope.value, Stopped))
      && Consistent(r.session) && Scoped(p, r.effects)
  {
  }

  /** A second `stopScanning` changes nothing and only reports the stop again. */
  lemma StopScanningIdempotent(p: Profile, s: Session, o1: StopOracle, o2: StopOracle)
    ensures var r := StopScanningStep(p, s, o1);
      StopScanningStep(p, r.session, o2) == Step(r.session, Emit(p, Stopped))
  {
  }

  /** `stopScanningSync` stops and clears an existing instance without waiting and leaves the
      loading flag as it was. */
  lemma StopSyncLeavesLoading(s: Session)
    ensures var r := StopScanningSyncStep(s);
      && !r.session.isScanning && r.session.scanner.None? && r.session.isLoading == s.isLoading
      && (s.scanner.Some? ==> r.effects == [Engine(Stop), Engine(Clear)])
      && (s.scanner.None? ==> r.effects == [])
      && Consistent(r.session)
  {
  }

  // ---------------------------------------------------------------------------
  // switchCamera

  /** With at most one camera, or while loading, `switchCamera` does nothing. */
  lemma SwitchIgnored(p: Profile, s: Session, bind: Outcome<JsError>, start: Outcome<JsError>)
    requires |s.cameras| <= 1 || s.isLoading
    ensures SwitchCameraStep(p, s, bind, start) == Step(s, [])
  {
  }

  /** Otherwise the instance is released, the next camera (circularly) is selected, a new
      instance is bound to the element's container and started on that camera, and loading ends. */
  lemma SwitchAdvances(p: Profile, s: Session, start: Outcome<JsError>)
    requires |s.cameras| > 1 && !s.isLoading
    ensures var r := SwitchCameraStep(p, s, Pass, start);
      var n := NextCameraIndex(s.currentCameraIndex, |s.cameras|);
      var release := if s.scanner.Some? then [Engine(Stop), Engine(Clear)] else [];
      && r.session.currentCameraIndex == n && !r.session.isLoading
      && r.session.scanner == Some(Handle(s.containerId))
      && r.session.currentCameraLabel == CameraLabel(s.cameras[n], n)
      && r.effects[..|release| + 1] == release + [Engine(Start(s.cameras[n].id, p.engineConfig))]
      && (start.Pass? ==> |r.effects| == |release| + 1 && r.session.cameraError == s.cameraError)
      && (start.Fail? ==> r.session.cameraError && !r.session.isScanning)
  {
  }

  /** A `removeChild` or `clear` failure while binding the new instance is swallowed: no
      error is shown and the scanning flag keeps its value although no instance remains. */
  lemma SwitchSwallowsTeardownErrors(p: Profile, s: Session, e: JsError, start: Outcome<JsError>)
    requires |s.cameras| > 1 && !s.isLoading && SuppressedDuringSwitch(e)
    ensures var r := SwitchCameraStep(p, s, Fail(e), start);
      && r.session.isScanning == s.isScanning && r.session.cameraError == s.cameraError
      && r.session.scanner.None? && !r.session.isLoading
      && r.session.currentCameraIndex == NextCameraIndex(s.currentCameraIndex, |s.cameras|)
      && r.session.currentCameraLabel == s.currentCameraLabel
      && r.effects == (if s.scanner.Some? then [Engine(Stop), Engine(Clear)] else [])
  {
  }

  /** Any other failure while binding the new instance goes to `handleError`: the error is
      shown with its category's message, nothing is scanning, no instance remains, and the
      error event follows the release calls. The index already names the next camera while
      the label still names the previous one. */
  lemma SwitchReportsOtherErrors(p: Profile, s: Session, e: JsError, start: Outcome<JsError>)
    requires |s.cameras| > 1 && !s.isLoading && !SuppressedDuringSwitch(e)
    ensures var r := SwitchCameraStep(p, s, Fail(e), start);
      var t := Classify(ErrorString(e));
      && r.session.cameraError && !r.session.isScanning && !r.session.isLoading
      && r.session.scanner.None?
      && r.session.cameraErrorMessage == Message(p.messages, MessageKey(t))
      && r.session.currentCameraIndex == NextCameraIndex(s.currentCameraIndex, |s.cameras|)
      && r.session.currentCameraLabel == s.currentCameraLabel
      && r.effects == (if s.scanner.Some? then [Engine(Stop), Engine(Clear)] else [])
                      + Emit(p, ErrorRaised(ErrorString(e), ErrorTypeName(t)))
  {
  }

  /** Two successful switches on two cameras come back to the camera selected before. */
  lemma SwitchTwiceOnTwoCameras(p: Profile, s: Session)
    requires |s.cameras| == 2 && !s.isLoading && s.currentCameraIndex < 2
    ensures var r1 := SwitchCameraStep(p, s, Pass, Pass);
      var r2 := SwitchCameraStep(p, r1.session, Pass, Pass);
      r2.session.currentCameraIndex == s.currentCameraIndex && r2.session.cameras == s.cameras
  {
    NextCameraTwiceOnTwo(s.currentCameraIndex);
  }

  /** `switchCamera` keeps the state consistent and every event tagged. */
  lemma SwitchKeepsConsistent(p: Profile, s: Session, bind: Outcome<JsError>, start: Outcome<JsError>)
    requires Consistent(s)
    ensures var r := SwitchCameraStep(p, s, bind, start);
      Consistent(r.session) && Scoped(p, r.effects) && !(r.session.isLoading && !s.isLoading)
  {
    if |s.cameras| > 1 && !s.isLoading {
      var a := AdvanceStep(s);
      RebindSettles(p, a.session, bind, start);
      ScopedConcat(p, a.effects, RebindStep(p, a.session, bind, start).effects);
    }
  }

  /** Binding and starting the next camera keeps the state consistent and tags its events. */
  lemma RebindSettles(p: Profile, s1: Session, bind: Outcome<JsError>, start: Outcome<JsError>)
    requires s1.currentCameraIndex < |s1.cameras|
    ensures var r := RebindStep(p, s1, bind, start);
      Consistent(r.session) && Scoped(p, r.effects)
  {
    match bind
    case Fail(e) =>
      if !SuppressedDuringSwitch(e) {
        HandleErrorSettles(p, s1, e);
      }
    case Pass =>
      StartCameraSettles(p, s1.(scanner := Some(Handle(s1.containerId))), start);
  }
}
