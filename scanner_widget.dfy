/** The embedded scanner widget (the `barcode-scanner` Blade component): its props with the
    defaults merged in, the engine configuration and camera preference it derives from them,
    the format-name table of its scanned event, and `onScanSuccess`. Its other controller
    methods are the shared ones of `ScannerControl`, run with `WidgetProfile`. */
module ScannerWidget {
  import opened Wrappers
  import opened JsText
  import opened BarcodeFormats
  import opened ScannerCore
  import opened ScannerControl
  import opened ScannerLifecycle

  /** The component's props after `@php`: the scanner id, the configuration object, the
      engine format ids and the labels. */
  datatype WidgetProps = WidgetProps(
    scannerId: string,
    scannerConfig: map<string, ConfigValue>,
    supportedFormats: seq<int>,
    labels: map<string, string>)

  /** `array_merge($defaultConfig, $config)`: the caller's keys win, `fps` defaults to 10. */
  function MergeConfig(config: map<string, ConfigValue>): (r: map<string, ConfigValue>)
    ensures r.Keys == config.Keys + {"fps"}
    ensures forall k :: k in config ==> r[k] == config[k]
    ensures "fps" !in config ==> r["fps"] == IntValue(10)
  {
    map["fps" := IntValue(10)] + config
  }

  /** `$defaultLabels`. */
  const DefaultLabels: map<string, string> := map[
    "switchCamera" := "Switch Camera",
    "cameraUnavailable" := "Camera is not available. Please check your device settings.",
    "permissionDenied" := "Camera permission was denied. Please allow camera access to scan barcodes.",
    "browserNotSupported" := "Your browser does not support camera access.",
    "cameraConstraints" := "The selected camera does not meet the requirements.",
    "tryAgain" := "Try Again",
    "loadingCamera" := "Loading camera...",
    "cameraPreview" := "Barcode scanner camera preview"]

  /** `array_merge($defaultLabels, $labels)`: the caller's labels win, the rest default. */
  function MergeLabels(labels: map<string, string>): (r: map<string, string>)
    ensures r.Keys == DefaultLabels.Keys + labels.Keys
    ensures forall k :: k in labels ==> r[k] == labels[k]
    ensures forall k :: k in DefaultLabels && k !in labels ==> r[k] == DefaultLabels[k]
  {
    DefaultLabels + labels
  }

  /** Rendering the component: the given id, else `'barcode-scanner-' . uniqid()`, and the
      merged configuration and labels. */
  function RenderProps(id: Option<string>, uniq: string, config: map<string, ConfigValue>,
                       supportedFormats: seq<int>, labels: map<string, string>): (r: WidgetProps)
    ensures id.Some? ==> r.scannerId == id.value
    ensures id.None? ==> r.scannerId == "barcode-scanner-" + uniq
    ensures r.scannerConfig == MergeConfig(config) && r.labels == MergeLabels(labels)
    ensures r.supportedFormats == supportedFormats
  {
    WidgetProps(id.GetOr("barcode-scanner-" + uniq), MergeConfig(config), supportedFormats, MergeLabels(labels))
  }

  /** The initial camera preference: the front camera only for `facingMode` 'user'; the back
      camera for 'environment' and when nothing (or anything else) is configured. */
  function WidgetPreference(config: map<string, ConfigValue>): (r: Preference)
    ensures r == PreferFront <==> Lookup(config, "facingMode") == StringValue("user")
  {
    var mode := Lookup(config, "facingMode");
    if mode == StringValue("environment") then PreferBack
    else if mode == StringValue("user") then PreferFront
    else PreferBack
  }

  /** The configuration passed to `start(...)`: `fps` as configured, the supported formats,
      and `qrbox` / `aspectRatio` only when the configured value is truthy. */
  function EngineConfig(config: map<string, ConfigValue>, formats: seq<int>): (r: map<string, ConfigValue>)
    ensures r.Keys <= {"fps", "formatsToSupport", "qrbox", "aspectRatio"}
    ensures "fps" in r && r["fps"] == Lookup(config, "fps")
    ensures "formatsToSupport" in r && r["formatsToSupport"] == IntListValue(formats)
    ensures "qrbox" in r <==> Truthy(Lookup(config, "qrbox"))
    ensures "qrbox" in r ==> r["qrbox"] == config["qrbox"]
    ensures "aspectRatio" in r <==> Truthy(Lookup(config, "aspectRatio"))
    ensures "aspectRatio" in r ==> r["aspectRatio"] == config["aspectRatio"]
  {
    var base := map["fps" := Lookup(config, "fps"), "formatsToSupport" := IntListValue(formats)];
    var withBox := if Truthy(Lookup(config, "qrbox")) then base["qrbox" := Lookup(config, "qrbox")] else base;
    if Truthy(Lookup(config, "aspectRatio")) then withBox["aspectRatio" := Lookup(config, "aspectRatio")] else withBox
  }

  /** The widget's controller profile: events tagged with the scanner id, the container id
      `<scannerId>-container` when the element has none, and the labels as messages. */
  function WidgetProfile(props: WidgetProps): Profile {
    Profile(Some(props.scannerId), props.scannerId + "-container",
            WidgetPreference(props.scannerConfig),
            EngineConfig(props.scannerConfig, props.supportedFormats),
            props.labels)
  }

  /** `getFormatName`: the name in its table of engine ids, else "Unknown". */
  function FormatName(formatId: int): string {
    if formatId == 0 then "QR Code"
    else if formatId == 1 then "Aztec"
    else if formatId == 2 then "Codabar"
    else if formatId == 4 then "Code 39"
    else if formatId == 5 then "Code 93"
    else if formatId == 6 then "Code 128"
    else if formatId == 8 then "ITF"
    else if formatId == 9 then "EAN-13"
    else if formatId == 10 then "PDF417"
    else if formatId == 11 then "EAN-8"
    else if formatId == 12 then "Data Matrix"
    else if formatId == 14 then "UPC-A"
    else if formatId == 15 then "UPC-E"
    else "Unknown"
  }

  /** The table names exactly the enum's cases. */
  lemma FormatNameKnownIff(formatId: int)
    ensures FormatName(formatId) != "Unknown" <==> FromHtml5QrcodeFormat(formatId).Some?
  {
  }

  /** The widget's names agree with the enum's labels for every case but ITF, which the
      widget calls "ITF" and the enum "ITF (Interleaved 2 of 5)". */
  lemma FormatNameMatchesLabel(f: BarcodeFormat)
    ensures f != ITF ==> FormatName(Value(f)) == Label(f)
    ensures f == ITF ==> FormatName(Value(f)) == "ITF" && Label(f) == "ITF (Interleaved 2 of 5)"
  {
  }

  /** `onScanSuccess`: the text is sanitised and the format id defaults to 0; the scanner is
      stopped (awaited), and then the scanned event carries the text, id and name. */
  function ScanSuccessStep(props: WidgetProps, s: Session, decodedText: JsValue,
                           formatId: Option<int>, o: StopOracle): Step
  {
    var text := Sanitize(decodedText);
    var id := formatId.GetOr(0);
    var stop := StopScanningStep(WidgetProfile(props), s, o);
    Step(stop.session, stop.effects + Emit(WidgetProfile(props), Scanned(text, id, FormatName(id))))
  }

  /** A scan is delivered only after the scanner has stopped: the last two effects are the
      stopped event and the scanned event with the format id (0 when none was decoded), both
      tagged with the scanner id, and the scanner is left stopped. */
  lemma ScanStopsBeforeDelivering(props: WidgetProps, s: Session, decodedText: JsValue,
                                  formatId: Option<int>, o: StopOracle)
    ensures var r := ScanSuccessStep(props, s, decodedText, formatId, o);
      var n := |r.effects|;
      && n >= 2
      && r.effects[n - 2] == Dispatch(props.scannerId, Stopped)
      && r.effects[n - 1].Dispatch? && r.effects[n - 1].scannerId == props.scannerId
      && r.effects[n - 1].event.Scanned?
      && r.effects[n - 1].event.formatId == formatId.GetOr(0)
      && !r.session.isScanning && r.session.scanner.None?
  {
  }

  /** The delivered text holds no tag and no surrounding whitespace. */
  lemma ScanDeliversCleanText(props: WidgetProps, s: Session, decodedText: JsValue,
                              formatId: Option<int>, o: StopOracle)
    ensures var r := ScanSuccessStep(props, s, decodedText, formatId, o);
      var v := r.effects[|r.effects| - 1].event.value;
      NoTag(v) && Trim(v) == v
  {
    TrimIdempotent(StripTags(if decodedText.JsString? then decodedText.s else []));
  }

  /** Every event of `onScanSuccess` is tagged with the scanner id. */
  lemma ScanEventsScoped(props: WidgetProps, s: Session, decodedText: JsValue,
                         formatId: Option<int>, o: StopOracle)
    ensures Scoped(WidgetProfile(props), ScanSuccessStep(props, s, decodedText, formatId, o).effects)
  {
    var id := formatId.GetOr(0);
    StopScanningEnds(WidgetProfile(props), s, o);
    ScopedConcat(WidgetProfile(props), StopScanningStep(WidgetProfile(props), s, o).effects,
                 [Dispatch(props.scannerId, Scanned(Sanitize(decodedText), id, FormatName(id)))]);
  }

  /** A decoded `<b>12345</b>` without a format is delivered as "12345" in QR Code format. */
  lemma ScanExample(props: WidgetProps, s: Session, o: StopOracle)
    ensures var r := ScanSuccessStep(props, s, JsString("<b>12345</b>"), None, o);
      r.effects[|r.effects| - 1] == Dispatch(props.scannerId, Scanned("12345", 0, "QR Code"))
  {
    SanitizeBoldExample("<b>12345</b>");
  }

  /** A decoded value that is not a string is delivered as the empty text. */
  lemma NonStringScanIsEmpty(props: WidgetProps, s: Session, formatId: Option<int>, o: StopOracle)
    ensures var r := ScanSuccessStep(props, s, NonString, formatId, o);
      r.effects[|r.effects| - 1].event.value == []
  {
  }

  /** Without label overrides, an error nobody recognises shows the default
      unavailable-camera text. */
  lemma UnknownErrorShowsDefaultText(props: WidgetProps, s: Session, e: JsError)
    requires props.labels == MergeLabels(map[])
    requires Classify(ErrorString(e)) == Unknown
    ensures HandleErrorStep(WidgetProfile(props), s, e).session.cameraErrorMessage
      == "Camera is not available. Please check your device settings."
  {
  }

  /** `onScanSuccess` on the widget's controller. */
  method OnScanSuccess(c: ScannerController, props: WidgetProps, decodedText: JsValue,
                       formatId: Option<int>, o: StopOracle)
    requires c.profile == WidgetProfile(props)
    modifies c
    ensures c.State() == ScanSuccessStep(props, old(c.State()), decodedText, formatId, o).session
    ensures c.trace == old(c.trace) + ScanSuccessStep(props, old(c.State()), decodedText, formatId, o).effects
  {
    var text := Sanitize(decodedText);
    var id := formatId.GetOr(0);
    var name := FormatName(id);
    c.StopScanningThen(o, Emit(c.profile, Scanned(text, id, name)));
  }
}
