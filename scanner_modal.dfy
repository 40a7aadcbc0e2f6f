/** The scanner view inside the form-field action's modal: the shared controller run with a
    fixed engine configuration, a back-camera preference and no events, plus what it does with
    a scan (a server-side or client-side state modifier, the state update, closing the modal)
    and the window events that stop it. */
module ScannerModal {
  import opened Wrappers
  import opened JsText
  import opened ScannerCore
  import opened ScannerControl
  import opened ScannerLifecycle

  /** The four messages of the `messages` object. */
  function ModalMessages(cameraUnavailable: string, permissionDenied: string,
                         browserNotSupported: string, cameraConstraints: string): (r: map<string, string>)
    ensures r.Keys == {"cameraUnavailable", "permissionDenied", "browserNotSupported", "cameraConstraints"}
    ensures Message(r, MessageKey(CameraUnavailable)) == cameraUnavailable
    ensures Message(r, MessageKey(Unknown)) == cameraUnavailable
    ensures Message(r, MessageKey(PermissionDenied)) == permissionDenied
    ensures Message(r, MessageKey(NotSupported)) == browserNotSupported
    ensures Message(r, MessageKey(Overconstrained)) == cameraConstraints
  {
    map["cameraUnavailable" := cameraUnavailable, "permissionDenied" := permissionDenied,
        "browserNotSupported" := browserNotSupported, "cameraConstraints" := cameraConstraints]
  }

  /** The view's data: the form state path (JavaScript `null` as `None`), whether the field
      has a server-side modifier, the client-side modifier source, the engine format ids and
      the messages. */
  datatype ModalProps = ModalProps(
    statePath: Option<string>,
    hasPhpModifier: bool,
    stateModifierJs: Option<string>,
    supportedFormats: seq<int>,
    messages: map<string, string>)

  /** The container id used when the element has none. */
  const ModalContainerId := "barcode-scanner-modal-container"

  /** The engine configuration of the modal: always 10 frames per second. */
  function ModalEngineConfig(formats: seq<int>): (r: map<string, ConfigValue>)
    ensures r.Keys == {"fps", "formatsToSupport"}
    ensures r["fps"] == IntValue(10) && r["formatsToSupport"] == IntListValue(formats)
  {
    map["fps" := IntValue(10), "formatsToSupport" := IntListValue(formats)]
  }

  /** The modal's controller profile: no events, the fixed container id, the back camera. */
  function ModalProfile(props: ModalProps): Profile {
    Profile(None, ModalContainerId, PreferBack, ModalEngineConfig(props.supportedFormats), props.messages)
  }

  /** With no event scope, tagging means there is no event at all. */
  lemma ModalIsSilent(props: ModalProps, effects: seq<Effect>)
    requires Scoped(ModalProfile(props), effects)
    ensures forall k :: 0 <= k < |effects| ==> !effects[k].Dispatch?
  {
  }

  /** Whatever the field configured, the modal starts the first back-facing camera (else the
      first one) with 10 frames per second and the supplied formats, and reports nothing. */
  lemma ModalStartUsesFixedConfig(props: ModalProps, s: Session, o: StartOracle, cams: seq<Camera>)
    requires ReachesStart(o, cams) && o.start == Pass
    ensures var r := StartScanningStep(ModalProfile(props), s, o);
      var i := PreferredIndex(cams, PreferBack);
      && r.session.isScanning && r.session.currentCameraIndex == i
      && r.session.containerId == (if s.containerId != [] then s.containerId else ModalContainerId)
      && r.effects == [Engine(Start(cams[i].id, map["fps" := IntValue(10), "formatsToSupport" := IntListValue(props.supportedFormats)]))]
  {
    StartSucceeds(ModalProfile(props), s, o, cams);
    assert ModalEngineConfig(props.supportedFormats)
      == map["fps" := IntValue(10), "formatsToSupport" := IntListValue(props.supportedFormats)];
  }

  // ---------------------------------------------------------------------------
  // State modifiers

  /** What evaluating the client-side modifier gives: the returned value, or a throw (from
      compiling the source or from calling the function). */
  datatype ModifierOutcome = Returned(value: string) | Threw

  /** `applyStateModifier`: without modifier source (null or empty) the value itself;
      otherwise what the modifier returns for (value, formatId), or the value itself when it
      throws. `run` stands for `new Function('return ' + source)()` applied to the arguments. */
  function ApplyStateModifier(source: Option<string>, value: string, formatId: int,
                              run: (string, string, int) -> ModifierOutcome): (r: string)
    ensures (source.None? || source == Some([])) ==> r == value
    ensures source.Some? && source.value != [] && run(source.value, value, formatId).Returned? ==>
      r == run(source.value, value, formatId).value
    ensures source.Some? && source.value != [] && run(source.value, value, formatId).Threw? ==> r == value
  {
    if source.None? || source.value == [] then value
    else match run(source.value, value, formatId)
      case Returned(v) => v
      case Threw => value
  }

  // ---------------------------------------------------------------------------
  // Delivering a scan

  /** Which of Livewire's unmount functions the host component offers. */
  datatype WireHost = WireHost(hasUnmountFormComponentAction: bool, hasUnmountAction: bool)

  /** `closeModal`: the form-component unmount when it exists, else the action unmount, else
      nothing. */
  function CloseModalEffects(host: WireHost): (r: seq<Effect>)
    ensures |r| <= 1
    ensures host.hasUnmountFormComponentAction ==> r == [UnmountFormComponentAction]
    ensures !host.hasUnmountFormComponentAction && host.hasUnmountAction ==> r == [UnmountAction]
    ensures r == [] <==> !host.hasUnmountFormComponentAction && !host.hasUnmountAction
  {
    if host.hasUnmountFormComponentAction then [UnmountFormComponentAction]
    else if host.hasUnmountAction then [UnmountAction]
    else []
  }

  /** `if (this.statePath) $wire.set(this.statePath, value)`. */
  function SetState(statePath: Option<string>, value: string): (r: seq<Effect>)
    ensures r != [] <==> statePath.Some? && statePath.value != []
    ensures r != [] ==> r == [WireSet(statePath.value, value)]
  {
    if statePath.Some? && statePath.value != [] then [WireSet(statePath.value, value)] else []
  }

  /** What happens after the stop: with a server-side modifier, the scan goes to
      `processBarcodeScan` and, once its reply arrives (`None`: it never does), the reply is
      stored and the modal closed; otherwise the client-side modifier's result is stored
      and the modal closed at once. */
  function Delivery(props: ModalProps, host: WireHost, text: string, formatId: int,
                    reply: Option<string>, run: (string, string, int) -> ModifierOutcome): seq<Effect>
  {
    if props.hasPhpModifier then
      [WireProcessBarcodeScan(props.statePath, text, formatId)]
      + (match reply
         case Some(v) => SetState(props.statePath, v) + CloseModalEffects(host)
         case None => [])
    else
      SetState(props.statePath, ApplyStateModifier(props.stateModifierJs, text, formatId, run))
      + CloseModalEffects(host)
  }

  /** `onScanSuccess` of the modal. */
  function ModalScanStep(props: ModalProps, host: WireHost, s: Session, decodedText: JsValue,
                         formatId: Option<int>, o: StopOracle, reply: Option<string>,
                         run: (string, string, int) -> ModifierOutcome): Step
  {
    var stop := StopScanningStep(ModalProfile(props), s, o);
    var text := Sanitize(decodedText);
    Step(stop.session, stop.effects + Delivery(props, host, text, formatId.GetOr(0), reply, run))
  }

  /** A Livewire call of any kind. */
  predicate IsWireCall(e: Effect) {
    e.WireProcessBarcodeScan? || e.WireSet? || e.UnmountFormComponentAction? || e.UnmountAction?
  }

  /** The scanner is stopped before anything is sent to Livewire: the effects up to the stop
      are engine calls, and everything after is the delivery. */
  lemma ModalStopsBeforeDelivering(props: ModalProps, host: WireHost, s: Session, decodedText: JsValue,
                                   formatId: Option<int>, o: StopOracle, reply: Option<string>,
                                   run: (string, string, int) -> ModifierOutcome)
    ensures var r := ModalScanStep(props, host, s, decodedText, formatId, o, reply, run);
      var stop := StopScanningStep(ModalProfile(props), s, o).effects;
      && r.effects == stop + Delivery(props, host, Sanitize(decodedText), formatId.GetOr(0), reply, run)
      && (forall k :: 0 <= k < |stop| ==> stop[k].Engine?)
      && !r.session.isScanning && r.session.scanner.None?
  {
  }

  /** With a server-side modifier, the sanitised text and the format id (0 when none) go to
      `processBarcodeScan` with the state path; the state receives the server's reply, never
      the scanned text itself, and the modal closes only once the reply arrives. */
  lemma ServerModifierPath(props: ModalProps, host: WireHost, text: string, formatId: int,
                           reply: Option<string>, run: (string, string, int) -> ModifierOutcome)
    requires props.hasPhpModifier
    ensures var d := Delivery(props, host, text, formatId, reply, run);
      && d[0] == WireProcessBarcodeScan(props.statePath, text, formatId)
      && (reply.None? ==> d == [d[0]])
      && (reply.Some? ==> d[1..] == SetState(props.statePath, reply.value) + CloseModalEffects(host))
  {
  }

  /** Without a server-side modifier, a throwing client-side modifier stores the scanned text
      unchanged (fail-open) and the modal still closes. */
  lemma ClientModifierFailsOpen(props: ModalProps, host: WireHost, text: string, formatId: int,
                                reply: Option<string>, run: (string, string, int) -> ModifierOutcome)
    requires !props.hasPhpModifier
    requires props.stateModifierJs.Some? && run(props.stateModifierJs.value, text, formatId).Threw?
    ensures Delivery(props, host, text, formatId, reply, run)
      == SetState(props.statePath, text) + CloseModalEffects(host)
  {
  }

  /** Without any modifier and with a state path, the state receives exactly the scanned text. */
  lemma NoModifierStoresText(props: ModalProps, host: WireHost, text: string, formatId: int,
                             reply: Option<string>, run: (string, string, int) -> ModifierOutcome)
    requires !props.hasPhpModifier && props.stateModifierJs.None?
    requires props.statePath.Some? && props.statePath.value != []
    ensures Delivery(props, host, text, formatId, reply, run)[0] == WireSet(props.statePath.value, text)
  {
  }

  /** Without a state path (null or empty), nothing is stored, whatever the modifiers do. */
  lemma NoStatePathNoSet(props: ModalProps, host: WireHost, text: string, formatId: int,
                         reply: Option<string>, run: (string, string, int) -> ModifierOutcome)
    requires props.statePath.None? || props.statePath == Some([])
    ensures var d := Delivery(props, host, text, formatId, reply, run);
      forall k :: 0 <= k < |d| ==> !d[k].WireSet?
  {
  }

  /** `onScanSuccess` on the modal's controller. */
  method OnScanSuccess(c: ScannerController, props: ModalProps, host: WireHost, decodedText: JsValue,
                       formatId: Option<int>, o: StopOracle, reply: Option<string>,
                       run: (string, string, int) -> ModifierOutcome)
    requires c.profile == ModalProfile(props)
    modifies c
    ensures c.State() == ModalScanStep(props, host, old(c.State()), decodedText, formatId, o, reply, run).session
    ensures c.trace == old(c.trace) + ModalScanStep(props, host, old(c.State()), decodedText, formatId, o, reply, run).effects
  {
    var text := Sanitize(decodedText);
    var delivery := Delivery(props, host, text, formatId.GetOr(0), reply, run);
    c.StopScanningThen(o, delivery);
  }

  // ---------------------------------------------------------------------------
  // Window events

  /** The window events the view listens to; `OpenModal` carries the opened modal's id. */
  datatype WindowEvent = ModalClosed | CloseModal | OpenModal(id: Option<string>) | OtherEvent

  /** Closing any modal stops the scanner, and so does opening a modal other than the
      scanner's own (including one without an id). */
  predicate TriggersStop(ev: WindowEvent) {
    match ev
    case ModalClosed => true
    case CloseModal => true
    case OpenModal(id) => id != Some("barcode-scanner")
    case OtherEvent => false
  }

  /** The listeners: a stopping event runs `stopScanning`, any other leaves the controller as it is. */
  method OnWindowEvent(c: ScannerController, ev: WindowEvent, o: StopOracle)
    modifies c
    ensures TriggersStop(ev) ==>
      (c.State() == StopScanningStep(c.profile, old(c.State()), o).session
       && c.trace == old(c.trace) + StopScanningStep(c.profile, old(c.State()), o).effects)
    ensures !TriggersStop(ev) ==> c.State() == old(c.State()) && c.trace == old(c.trace)
  {
    if TriggersStop(ev) {
      c.StopScanning(o);
    }
  }

  /** Reopening the scanner's own modal does not stop it; every other open or close does. */
  lemma OpenOwnModalKeepsScanning()
    ensures !TriggersStop(OpenModal(Some("barcode-scanner")))
    ensures TriggersStop(OpenModal(Some("confirm-delete"))) && TriggersStop(OpenModal(None))
    ensures TriggersStop(ModalClosed) && TriggersStop(CloseModal) && !TriggersStop(OtherEvent)
  {
  }
}
