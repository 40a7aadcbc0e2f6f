/** The `HasScannerConfiguration` concern: validated fluent setters over the scanner
    settings, and the getters that turn those settings into the engine configuration, the
    format ids and the labels handed to the scanner views. */
module ScannerConfiguration {
  import opened Wrappers
  import opened BarcodeFormats
  import opened ScannerCore

  /** The settings the concern holds. `aspectRatio` (a PHP float) is a `real`. */
  datatype Settings = Settings(
    supportedFormats: seq<BarcodeFormat>,
    fps: int,
    qrboxWidth: Option<int>,
    qrboxHeight: Option<int>,
    aspectRatio: Option<real>,
    facingMode: Option<string>,
    switchCameraLabel: string,
    cameraUnavailableMessage: string,
    permissionDeniedMessage: string)

  /** The property defaults. */
  const DefaultSettings := Settings(
    [], 10, None, None, None, None,
    "Switch Camera",
    "Camera is not available. Please check your device settings.",
    "Camera permission was denied. Please allow camera access to scan barcodes.")

  /** What the setters guarantee about the settings. */
  predicate ValidSettings(s: Settings) {
    && 1 <= s.fps <= 30
    && s.qrboxWidth.Some? == s.qrboxHeight.Some?
    && (s.qrboxWidth.Some? ==> s.qrboxWidth.value >= 1 && s.qrboxHeight.value >= 1)
    && (s.aspectRatio.Some? ==> s.aspectRatio.value > 0.0)
    && (s.facingMode.Some? ==> s.facingMode.value == "user" || s.facingMode.value == "environment")
  }

  /** `getSupportedFormats`: the chosen formats, or every case when none was chosen. */
  function SupportedFormatsOf(s: Settings): (r: seq<BarcodeFormat>)
    ensures s.supportedFormats == [] ==> r == Cases
    ensures s.supportedFormats != [] ==> r == s.supportedFormats
  {
    if s.supportedFormats == [] then Cases else s.supportedFormats
  }

  /** `array_map(fn ($format) => $format->value, ...)`. */
  function Values(fs: seq<BarcodeFormat>): (r: seq<int>)
    ensures |r| == |fs|
    ensures forall i :: 0 <= i < |fs| ==> r[i] == Value(fs[i])
  {
    if fs == [] then [] else [Value(fs[0])] + Values(fs[1..])
  }

  /** `getHtml5QrcodeFormatIds`: the engine ids of the supported formats, in order. */
  function FormatIdsOf(s: Settings): (r: seq<int>)
    ensures |r| == |SupportedFormatsOf(s)|
    ensures forall i :: 0 <= i < |r| ==> r[i] == Value(SupportedFormatsOf(s)[i])
    ensures forall i :: 0 <= i < |r| ==> FromHtml5QrcodeFormat(r[i]) == Some(SupportedFormatsOf(s)[i])
  {
    var fs := SupportedFormatsOf(s);
    var r := Values(fs);
    assert forall i :: 0 <= i < |r| ==> r[i] == Value(fs[i]);
    forall i | 0 <= i < |r| ensures FromHtml5QrcodeFormat(r[i]) == Some(fs[i]) {
      FromValueRoundTrip(fs[i]);
    }
    r
  }

  /** `getScannerConfig`: `fps` always; `qrbox` only when both sides are set; `aspectRatio`
      and `facingMode` only when set. */
  function ScannerConfigOf(s: Settings): (r: map<string, ConfigValue>)
    ensures r.Keys <= {"fps", "qrbox", "aspectRatio", "facingMode"}
    ensures "fps" in r && r["fps"] == IntValue(s.fps)
    ensures "qrbox" in r <==> s.qrboxWidth.Some? && s.qrboxHeight.Some?
    ensures "qrbox" in r ==> r["qrbox"] == BoxValue(s.qrboxWidth.value, s.qrboxHeight.value)
    ensures "aspectRatio" in r <==> s.aspectRatio.Some?
    ensures "aspectRatio" in r ==> r["aspectRatio"] == RealValue(s.aspectRatio.value)
    ensures "facingMode" in r <==> s.facingMode.Some?
    ensures "facingMode" in r ==> r["facingMode"] == StringValue(s.facingMode.value)
  {
    var c0 := map["fps" := IntValue(s.fps)];
    var c1 := if s.qrboxWidth.Some? && s.qrboxHeight.Some?
      then c0["qrbox" := BoxValue(s.qrboxWidth.value, s.qrboxHeight.value)] else c0;
    var c2 := if s.aspectRatio.Some? then c1["aspectRatio" := RealValue(s.aspectRatio.value)] else c1;
    if s.facingMode.Some? then c2["facingMode" := StringValue(s.facingMode.value)] else c2
  }

  /** `getLabels`, with the translator `__` as a parameter. */
  function LabelsOf(s: Settings, translate: string -> string): (r: map<string, string>)
    ensures r.Keys == {"switchCamera", "cameraUnavailable", "permissionDenied"}
    ensures r["switchCamera"] == translate(s.switchCameraLabel)
    ensures r["cameraUnavailable"] == translate(s.cameraUnavailableMessage)
    ensures r["permissionDenied"] == translate(s.permissionDeniedMessage)
  {
    map["switchCamera" := translate(s.switchCameraLabel),
        "cameraUnavailable" := translate(s.cameraUnavailableMessage),
        "permissionDenied" := translate(s.permissionDeniedMessage)]
  }

  /** With no formats chosen, every case's id is sent in declaration order (so each once,
      by `CaseValuesDistinct`). */
  lemma DefaultFormatIdsAreAllCases(s: Settings)
    requires s.supportedFormats == []
    ensures var r := FormatIdsOf(s);
      |r| == |Cases| && forall i :: 0 <= i < |r| ==> r[i] == Value(Cases[i])
  {
  }

  /** With no formats chosen, the ids sent are exactly the assigned engine codes. */
  lemma DefaultFormatIdsAreAssigned(s: Settings, v: int)
    requires s.supportedFormats == []
    ensures v in FormatIdsOf(s) <==> v in AssignedValues
  {
    var r := FormatIdsOf(s);
    if v in r {
      var i :| 0 <= i < |r| && r[i] == v;
      assert FromHtml5QrcodeFormat(v).Some?;
    }
    if v in AssignedValues {
      var f := FromHtml5QrcodeFormat(v).value;
      CasesInOrder();
      assert r[Ordinal(f)] == v;
    }
  }

  /** Choosing QR Code and Code 128 sends the ids 0 and 6. */
  lemma ChosenFormatIdsExample()
    ensures FormatIdsOf(DefaultSettings.(supportedFormats := [QRCode, Code128])) == [0, 6]
  {
    var s := DefaultSettings.(supportedFormats := [QRCode, Code128]);
    assert Values([QRCode, Code128]) == [0] + Values([Code128]);
  }

  /** The defaults are valid, and they produce just `fps` 10. */
  lemma DefaultsValid()
    ensures ValidSettings(DefaultSettings)
    ensures ScannerConfigOf(DefaultSettings) == map["fps" := IntValue(10)]
  {
  }

  /** The messages a setter throws with. */
  const FpsRangeError := "FPS must be between 1 and 30"
  const QrboxWidthError := "Qrbox width must be positive"
  const QrboxHeightError := "Qrbox height must be positive"
  const AspectRatioError := "Aspect ratio must be positive"
  const FacingModeError := "Facing mode must be 'user' or 'environment'"

  /** The object using the concern: its settings are updated in place by the setters. A
      setter that throws `InvalidArgumentException` returns `Fail(message)` and changes
      nothing. */
  class Configurable {
    var supportedFormats: seq<BarcodeFormat>
    var fps: int
    var qrboxWidth: Option<int>
    var qrboxHeight: Option<int>
    var aspectRatio: Option<real>
    var facingMode: Option<string>
    var switchCameraLabel: string
    var cameraUnavailableMessage: string
    var permissionDeniedMessage: string

    function Current(): Settings
      reads this
    {
      Settings(supportedFormats, fps, qrboxWidth, qrboxHeight, aspectRatio, facingMode,
               switchCameraLabel, cameraUnavailableMessage, permissionDeniedMessage)
    }

    predicate Valid()
      reads this
    {
      ValidSettings(Current())
    }

    constructor()
      ensures Current() == DefaultSettings && Valid()
    {
      supportedFormats, fps, qrboxWidth, qrboxHeight := [], 10, None, None;
      aspectRatio, facingMode := None, None;
      switchCameraLabel := "Switch Camera";
      cameraUnavailableMessage := "Camera is not available. Please check your device settings.";
      permissionDeniedMessage := "Camera permission was denied. Please allow camera access to scan barcodes.";
    }

    method Fps(n: int) returns (r: Outcome<string>)
      requires Valid()
      modifies this
      ensures Valid()
      ensures (n < 1 || n > 30) ==> r == Fail(FpsRangeError) && Current() == old(Current())
      ensures 1 <= n <= 30 ==> r == Pass && Current() == old(Current()).(fps := n)
    {
      if n < 1 || n > 30 {
        return Fail(FpsRangeError);
      }
      fps := n;
      return Pass;
    }

    /** `qrbox($width, $height = null)`: a missing height makes the box square. */
    method Qrbox(width: int, height: Option<int>) returns (r: Outcome<string>)
      requires Valid()
      modifies this
      ensures Valid()
      ensures width < 1 ==> r == Fail(QrboxWidthError) && Current() == old(Current())
      ensures width >= 1 && height.Some? && height.value < 1 ==>
        r == Fail(QrboxHeightError) && Current() == old(Current())
      ensures width >= 1 && (height.None? || height.value >= 1) ==>
        r == Pass && Current() == old(Current()).(qrboxWidth := Some(width), qrboxHeight := Some(height.GetOr(width)))
    {
      if width < 1 {
        return Fail(QrboxWidthError);
      }
      if height.Some? && height.value < 1 {
        return Fail(QrboxHeightError);
      }
      qrboxWidth := Some(width);
      qrboxHeight := Some(height.GetOr(width));
      return Pass;
    }

    method AspectRatio(ratio: real) returns (r: Outcome<string>)
      requires Valid()
      modifies this
      ensures Valid()
      ensures ratio <= 0.0 ==> r == Fail(AspectRatioError) && Current() == old(Current())
      ensures ratio > 0.0 ==> r == Pass && Current() == old(Current()).(aspectRatio := Some(ratio))
    {
      if ratio <= 0.0 {
        return Fail(AspectRatioError);
      }
      aspectRatio := Some(ratio);
      return Pass;
    }

    method FacingMode(mode: string) returns (r: Outcome<string>)
      requires Valid()
      modifies this
      ensures Valid()
      ensures mode != "user" && mode != "environment" ==> r == Fail(FacingModeError) && Current() == old(Current())
      ensures mode == "user" || mode == "environment" ==>
        r == Pass && Current() == old(Current()).(facingMode := Some(mode))
    {
      if mode != "user" && mode != "environment" {
        return Fail(FacingModeError);
      }
      facingMode := Some(mode);
      return Pass;
    }

    method PreferBackCamera()
      requires Valid()
      modifies this
      ensures Valid() && Current() == old(Current()).(facingMode := Some("environment"))
    {
      var r := FacingMode("environment");
    }

    method PreferFrontCamera()
      requires Valid()
      modifies this
      ensures Valid() && Current() == old(Current()).(facingMode := Some("user"))
    {
      var r := FacingMode("user");
    }

    method SupportedFormats(formats: seq<BarcodeFormat>)
      requires Valid()
      modifies this
      ensures Valid() && Current() == old(Current()).(supportedFormats := formats)
    {
      supportedFormats := formats;
    }

    method SwitchCameraLabel(text: string)
      requires Valid()
      modifies this
      ensures Valid() && Current() == old(Current()).(switchCameraLabel := text)
    {
      switchCameraLabel := text;
    }

    method CameraUnavailableMessage(text: string)
      requires Valid()
      modifies this
      ensures Valid() && Current() == old(Current()).(cameraUnavailableMessage := text)
    {
      cameraUnavailableMessage := text;
    }

    method PermissionDeniedMessage(text: string)
      requires Valid()
      modifies this
      ensures Valid() && Current() == old(Current()).(permissionDeniedMessage := text)
    {
      permissionDeniedMessage := text;
    }

    /** `getSupportedFormats` on the object's own fields: the entry point to
        `SupportedFormatsOf`, which states what the list is. */
    function GetSupportedFormats(): (r: seq<BarcodeFormat>)
      reads this
      ensures r == SupportedFormatsOf(Current())
    {
      if supportedFormats == [] then Cases else supportedFormats
    }

    /** `getHtml5QrcodeFormatIds` on the object's own fields: the entry point to
        `FormatIdsOf`, whose contract states the round trip. */
    function GetHtml5QrcodeFormatIds(): (r: seq<int>)
      reads this
      ensures r == FormatIdsOf(Current())
    {
      Values(GetSupportedFormats())
    }

    /** `getScannerConfig`, inserting the optional keys one after the other. */
    method GetScannerConfig() returns (config: map<string, ConfigValue>)
      ensures config == ScannerConfigOf(Current())
    {
      config := map["fps" := IntValue(fps)];
      if qrboxWidth.Some? && qrboxHeight.Some? {
        config := config["qrbox" := BoxValue(qrboxWidth.value, qrboxHeight.value)];
      }
      if aspectRatio.Some? {
        config := config["aspectRatio" := RealValue(aspectRatio.value)];
      }
      if facingMode.Some? {
        config := config["facingMode" := StringValue(facingMode.value)];
      }
    }

    /** `getLabels` on the object's own fields: the entry point to `LabelsOf`, which states
        the keys and values. */
    function GetLabels(translate: string -> string): (r: map<string, string>)
      reads this
      ensures r == LabelsOf(Current(), translate)
    {
      map["switchCamera" := translate(switchCameraLabel),
          "cameraUnavailable" := translate(cameraUnavailableMessage),
          "permissionDenied" := translate(permissionDeniedMessage)]
    }
  }
}
