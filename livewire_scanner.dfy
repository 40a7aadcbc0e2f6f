/** The Livewire `BarcodeScanner` component: its lazily generated scanner id, its callback
    fields, the `handleScan` / `handleError` methods the browser calls, and the view that
    wires the component to an embedded widget. */
module LivewireScanner {
  import opened Wrappers
  import opened JsText
  import opened BarcodeFormats
  import opened ScannerCore
  import opened ScannerWidget
  import opened ScannerConfiguration

  /** PHP's `! $string`: the empty string and "0" are false. */
  predicate PhpFalsy(s: string) {
    s == "" || s == "0"
  }

  const IdPrefix := "livewire-scanner-"

  /** The id `mount` and `getId` settle on: the one already there unless it is falsy, else
      `'livewire-scanner-' . uniqid()`. */
  function SettledId(scannerId: string, uniq: string): (r: string)
    ensures !PhpFalsy(r)
    ensures !PhpFalsy(scannerId) ==> r == scannerId
    ensures PhpFalsy(scannerId) ==> r == IdPrefix + uniq
  {
    var r := if PhpFalsy(scannerId) then IdPrefix + uniq else scannerId;
    assert PhpFalsy(r) ==> |r| <= 1;
    r
  }

  /** Settling twice keeps the first id, whatever the second `uniqid()` would have been. */
  lemma SettledIdStable(scannerId: string, u1: string, u2: string)
    ensures SettledId(SettledId(scannerId, u1), u2) == SettledId(scannerId, u1)
  {
  }

  /** Two components mounted without an id get different ids exactly when the two
      `uniqid()` values differ. */
  lemma FreshIdsDistinct(u1: string, u2: string)
    ensures SettledId("", u1) != SettledId("", u2) <==> u1 != u2
  {
    if SettledId("", u1) == SettledId("", u2) {
      assert u1 == SettledId("", u1)[|IdPrefix|..];
      assert u2 == SettledId("", u2)[|IdPrefix|..];
    }
  }

  /** The closures the component holds, by identity. */
  datatype CallbackRef = CallbackRef(ref: nat)

  /** An invocation of one of the component's closures. */
  datatype Invocation =
    | OnScanInvoked(scanCallback: CallbackRef, value: string, format: Option<BarcodeFormat>)
    | OnErrorInvoked(errorCallback: CallbackRef, error: string, errorType: string)

  /** The invocations `handleScan` makes: the scan callback, once, when there is one. */
  function ScanInvocations(cb: Option<CallbackRef>, value: string, formatId: int): (r: seq<Invocation>)
    ensures cb.None? <==> r == []
    ensures cb.Some? ==> r == [OnScanInvoked(cb.value, value, FromHtml5QrcodeFormat(formatId))]
  {
    if cb.Some? then [OnScanInvoked(cb.value, value, FromHtml5QrcodeFormat(formatId))] else []
  }

  /** The invocations `handleError` makes: the error and its type, passed on unchanged. */
  function ErrorInvocations(cb: Option<CallbackRef>, error: string, errorType: string): (r: seq<Invocation>)
    ensures cb.None? <==> r == []
    ensures cb.Some? ==> r == [OnErrorInvoked(cb.value, error, errorType)]
  {
    if cb.Some? then [OnErrorInvoked(cb.value, error, errorType)] else []
  }

  class Component {
    var value: Option<string>
    var formatId: Option<int>
    var onScanCallback: Option<CallbackRef>
    var onErrorCallback: Option<CallbackRef>
    var scannerId: string
    /** The closure invocations made so far, oldest first. */
    var invocations: seq<Invocation>

    constructor()
      ensures value.None? && formatId.None? && onScanCallback.None? && onErrorCallback.None?
      ensures scannerId == "" && invocations == []
    {
      value, formatId, onScanCallback, onErrorCallback := None, None, None, None;
      scannerId, invocations := "", [];
    }

    /** `mount`, with the value `uniqid()` returns. */
    method Mount(uniq: string)
      modifies this
      ensures scannerId == SettledId(old(scannerId), uniq)
      ensures value == old(value) && formatId == old(formatId) && invocations == old(invocations)
      ensures onScanCallback == old(onScanCallback) && onErrorCallback == old(onErrorCallback)
    {
      if PhpFalsy(scannerId) {
        scannerId := IdPrefix + uniq;
      }
    }

    method OnScan(cb: Option<CallbackRef>) returns (self: Component)
      modifies this
      ensures self == this && onScanCallback == cb
      ensures value == old(value) && formatId == old(formatId) && invocations == old(invocations)
      ensures onErrorCallback == old(onErrorCallback) && scannerId == old(scannerId)
    {
      onScanCallback := cb;
      return this;
    }

    method OnError(cb: Option<CallbackRef>) returns (self: Component)
      modifies this
      ensures self == this && onErrorCallback == cb
      ensures value == old(value) && formatId == old(formatId) && invocations == old(invocations)
      ensures onScanCallback == old(onScanCallback) && scannerId == old(scannerId)
    {
      onErrorCallback := cb;
      return this;
    }

    /** `handleScan`: records the value and format id, then hands them to the scan callback. */
    method HandleScan(v: string, id: int)
      modifies this
      ensures value == Some(v) && formatId == Some(id)
      ensures invocations == old(invocations) + ScanInvocations(onScanCallback, v, id)
      ensures onScanCallback == old(onScanCallback) && onErrorCallback == old(onErrorCallback)
      ensures scannerId == old(scannerId)
    {
      value := Some(v);
      formatId := Some(id);
      var format := FromHtml5QrcodeFormat(id);
      if onScanCallback.Some? {
        invocations := invocations + [OnScanInvoked(onScanCallback.value, v, format)];
      }
    }

    /** `handleError`: hands the error and its type to the error callback and records nothing. */
    method HandleError(error: string, errorType: string)
      modifies this
      ensures invocations == old(invocations) + ErrorInvocations(onErrorCallback, error, errorType)
      ensures value == old(value) && formatId == old(formatId)
      ensures onScanCallback == old(onScanCallback) && onErrorCallback == old(onErrorCallback)
      ensures scannerId == old(scannerId)
    {
      if onErrorCallback.Some? {
        invocations := invocations + [OnErrorInvoked(onErrorCallback.value, error, errorType)];
      }
    }

    /** `getId`, with the value `uniqid()` would return. */
    method GetId(uniq: string) returns (id: string)
      modifies this
      ensures id == scannerId == SettledId(old(scannerId), uniq)
      ensures value == old(value) && formatId == old(formatId) && invocations == old(invocations)
      ensures onScanCallback == old(onScanCallback) && onErrorCallback == old(onErrorCallback)
    {
      if PhpFalsy(scannerId) {
        scannerId := IdPrefix + uniq;
      }
      return scannerId;
    }
  }

  // ---------------------------------------------------------------------------
  // The component's view

  /** A call the view's window listeners make on the component. */
  datatype WireCall = HandleScanCall(value: string, formatId: int) | HandleErrorCall(error: string, errorType: string)

  /** `@barcode-scanned.window` and `@barcode-scanner-error.window`: events of this scanner
      id become calls; every other effect is ignored. */
  function Listen(componentId: string, e: Effect): (r: seq<WireCall>)
    ensures |r| <= 1
    ensures r != [] <==> e.Dispatch? && e.scannerId == componentId && (e.event.Scanned? || e.event.ErrorRaised?)
  {
    if e.Dispatch? && e.scannerId == componentId then
      match e.event
      case Scanned(v, id, _) => [HandleScanCall(v, id)]
      case ErrorRaised(err, t) => [HandleErrorCall(err, t)]
      case _ => []
    else []
  }

  function ListenAll(componentId: string, effects: seq<Effect>): (r: seq<WireCall>)
    ensures |r| <= |effects|
  {
    if effects == [] then [] else Listen(componentId, effects[0]) + ListenAll(componentId, effects[1..])
  }

  lemma {:induction false} ListenAllConcat(componentId: string, a: seq<Effect>, b: seq<Effect>)
    ensures ListenAll(componentId, a + b) == ListenAll(componentId, a) + ListenAll(componentId, b)
    decreases |a|
  {
    if a != [] {
      assert (a + b)[1..] == a[1..] + b;
      assert (a + b)[0] == a[0];
      ListenAllConcat(componentId, a[1..], b);
    } else {
      assert a + b == b;
    }
  }

  /** Effects other than scanned and error events reach the component as nothing. */
  lemma {:induction false} ListenQuiet(componentId: string, effects: seq<Effect>)
    requires forall k :: 0 <= k < |effects| ==>
      !(effects[k].Dispatch? && (effects[k].event.Scanned? || effects[k].event.ErrorRaised?))
    ensures ListenAll(componentId, effects) == []
    decreases |effects|
  {
    if effects != [] {
      assert forall k :: 0 <= k < |effects| - 1 ==> effects[1..][k] == effects[k + 1];
      ListenQuiet(componentId, effects[1..]);
    }
  }

  /** The widget props the view renders from the component and its configuration. */
  function ViewProps(id: string, uniq: string, s: Settings, translate: string -> string): WidgetProps {
    RenderProps(Some(id), uniq, ScannerConfigOf(s), FormatIdsOf(s), LabelsOf(s, translate))
  }

  /** A scan on the component's own widget reaches `handleScan` exactly once, with the
      sanitised text and the format id (0 when none was decoded). */
  lemma WidgetScanReachesHandleScan(props: WidgetProps, s: Session, decodedText: JsValue,
                                    formatId: Option<int>, o: StopOracle)
    ensures ListenAll(props.scannerId, ScanSuccessStep(props, s, decodedText, formatId, o).effects)
      == [HandleScanCall(Sanitize(decodedText), formatId.GetOr(0))]
  {
    var id := props.scannerId;
    var p := WidgetProfile(props);
    var stop := StopScanningStep(p, s, o);
    var fid := formatId.GetOr(0);
    var scanned := Dispatch(id, Scanned(Sanitize(decodedText), fid, FormatName(fid)));
    assert ScanSuccessStep(props, s, decodedText, formatId, o).effects == stop.effects + [scanned];
    ListenAllConcat(id, stop.effects, [scanned]);
    StopEffectsQuiet(p, s, o);
    ListenQuiet(id, stop.effects);
    assert ListenAll(id, [scanned]) == [HandleScanCall(Sanitize(decodedText), fid)];
  }

  /** An error on the component's own widget reaches `handleError` exactly once, with the
      error text and its classified type. */
  lemma WidgetErrorReachesHandleError(props: WidgetProps, s: Session, e: JsError)
    ensures var t := Classify(ErrorString(e));
      ListenAll(props.scannerId, HandleErrorStep(WidgetProfile(props), s, e).effects)
        == [HandleErrorCall(ErrorString(e), ErrorTypeName(t))]
  {
    var t := Classify(ErrorString(e));
    var raised := Dispatch(props.scannerId, ErrorRaised(ErrorString(e), ErrorTypeName(t)));
    assert HandleErrorStep(WidgetProfile(props), s, e).effects == [raised];
    assert ListenAll(props.scannerId, [raised]) == Listen(props.scannerId, raised) + ListenAll(props.scannerId, []);
  }

  /** `stopScanning` dispatches only the stopped event. */
  lemma StopEffectsQuiet(p: Profile, s: Session, o: StopOracle)
    ensures var effects := StopScanningStep(p, s, o).effects;
      forall k :: 0 <= k < |effects| ==>
        !(effects[k].Dispatch? && (effects[k].event.Scanned? || effects[k].event.ErrorRaised?))
  {
  }

  /** A scan on another scanner id never reaches this component. */
  lemma OtherWidgetScanIgnored(id: string, props: WidgetProps, s: Session, decodedText: JsValue,
                               formatId: Option<int>, o: StopOracle)
    requires props.scannerId != id
    ensures ListenAll(id, ScanSuccessStep(props, s, decodedText, formatId, o).effects) == []
  {
    var p := WidgetProfile(props);
    var stop := StopScanningStep(p, s, o);
    var fid := formatId.GetOr(0);
    var scanned := Dispatch(props.scannerId, Scanned(Sanitize(decodedText), fid, FormatName(fid)));
    assert ScanSuccessStep(props, s, decodedText, formatId, o).effects == stop.effects + [scanned];
    ListenAllConcat(id, stop.effects, [scanned]);
    StopEffectsQuiet(p, s, o);
    ListenQuiet(id, stop.effects);
    assert ListenAll(id, [scanned]) == [];
  }

  /** The view renders the widget under the component's id. */
  lemma ViewUsesComponentId(id: string, uniq: string, set_: Settings, translate: string -> string)
    ensures ViewProps(id, uniq, set_, translate).scannerId == id
    ensures WidgetProfile(ViewProps(id, uniq, set_, translate)).eventScope == Some(id)
  {
  }

  /** The configuration reaches the widget's engine: the configured frame rate and formats,
      a scan box and an aspect ratio exactly when configured, and the front camera exactly
      for `facingMode('user')`. */
  lemma ConfigurationReachesEngine(set_: Settings, formats: seq<int>)
    requires ValidSettings(set_)
    ensures var config := MergeConfig(ScannerConfigOf(set_));
      var engine := EngineConfig(config, formats);
      && engine["fps"] == IntValue(set_.fps)
      && engine["formatsToSupport"] == IntListValue(formats)
      && ("qrbox" in engine <==> set_.qrboxWidth.Some?)
      && ("aspectRatio" in engine <==> set_.aspectRatio.Some?)
      && (WidgetPreference(config) == PreferFront <==> set_.facingMode == Some("user"))
  {
    var c := ScannerConfigOf(set_);
    var config := MergeConfig(c);
    assert "fps" in c;
    assert Lookup(config, "fps") == IntValue(set_.fps);
    assert Lookup(config, "qrbox") == Lookup(c, "qrbox");
    assert Lookup(config, "aspectRatio") == Lookup(c, "aspectRatio");
    assert Lookup(config, "facingMode") == Lookup(c, "facingMode");
  }

  /** The rendered widget's profile carries that engine configuration and preference. */
  lemma ViewProfileFromConfiguration(id: string, uniq: string, set_: Settings, translate: string -> string)
    ensures var p := WidgetProfile(ViewProps(id, uniq, set_, translate));
      && p.engineConfig == EngineConfig(MergeConfig(ScannerConfigOf(set_)), FormatIdsOf(set_))
      && p.preference == WidgetPreference(MergeConfig(ScannerConfigOf(set_)))
      && p.messages == MergeLabels(LabelsOf(set_, translate))
  {
  }

  /** The configured, translated messages override the widget's defaults. */
  lemma ConfiguredMessagesShown(set_: Settings, translate: string -> string)
    ensures var m := MergeLabels(LabelsOf(set_, translate));
      && m["cameraUnavailable"] == translate(set_.cameraUnavailableMessage)
      && m["permissionDenied"] == translate(set_.permissionDeniedMessage)
      && m["switchCamera"] == translate(set_.switchCameraLabel)
  {
  }
}
