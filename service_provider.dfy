/** The two Livewire `call` hooks of `BarcodeScannerServiceProvider`: `processBarcodeScan`
    runs a form field's PHP state modifier on the scanned value, and
    `processBarcodeScanHeader` runs a header action's after-scan callback and normalises
    its result for the browser. */
module ServiceProvider {
  import opened Wrappers
  import opened BarcodeFormats

  /** The PHP values a callback can return, as far as the hooks look at them. A
      `Responsable` carries the response its `toResponse(request())` builds. */
  datatype PhpValue =
    | PhpNull
    | PhpBool(b: bool)
    | PhpInt(i: int)
    | PhpString(s: string)
    | PhpArray(entries: map<string, PhpValue>)
    | RedirectResponse(targetUrl: string)
    | Responsable(response: PhpValue)
    | OtherObject

  /** What a hook does with a call: lets Livewire go on (`return` without `$returnEarly`),
      or answers it through `$returnEarly`. */
  datatype Reply<+T> = Declined | Answered(value: T)

  // ---------------------------------------------------------------------------
  // normalizeHeaderActionResult

  /** The URL a callback result redirects to: a redirect response, a `Responsable` whose
      response is one, or a plain string. */
  function RedirectTarget(result: PhpValue): Option<string> {
    match result
    case RedirectResponse(url) => Some(url)
    case Responsable(RedirectResponse(url)) => Some(url)
    case PhpString(s) => Some(s)
    case _ => None
  }

  function SuccessReply(redirect: Option<string>): PhpValue {
    if redirect.Some? then PhpArray(map["success" := PhpBool(true), "redirect" := PhpString(redirect.value)])
    else PhpArray(map["success" := PhpBool(true)])
  }

  /** An array is returned as it is; anything else becomes `success: true`, with a
      `redirect` exactly when the result names a target. */
  function NormalizeHeaderActionResult(result: PhpValue): (r: PhpValue)
    ensures r.PhpArray?
    ensures result.PhpArray? ==> r == result
    ensures !result.PhpArray? ==>
      && r.entries.Keys == {"success"} + (if RedirectTarget(result).Some? then {"redirect"} else {})
      && r.entries["success"] == PhpBool(true)
      && (RedirectTarget(result).Some? ==> r.entries["redirect"] == PhpString(RedirectTarget(result).value))
  {
    match result
    case RedirectResponse(url) => SuccessReply(Some(url))
    case Responsable(response) =>
      if response.RedirectResponse? then SuccessReply(Some(response.targetUrl)) else SuccessReply(None)
    case PhpString(s) => SuccessReply(Some(s))
    case PhpArray(_) => result
    case _ => SuccessReply(None)
  }

  /** A callback that returns nothing only closes the modal. */
  lemma NullResultOnlyCloses()
    ensures NormalizeHeaderActionResult(PhpNull) == PhpArray(map["success" := PhpBool(true)])
  {
  }

  /** A redirect built with `redirect('/users/1')`, a `Responsable` producing it, and the
      bare string '/users/1' all become the same reply. */
  lemma RedirectFormsAgree(url: string)
    ensures NormalizeHeaderActionResult(RedirectResponse(url))
      == NormalizeHeaderActionResult(Responsable(RedirectResponse(url)))
      == NormalizeHeaderActionResult(PhpString(url))
      == PhpArray(map["success" := PhpBool(true), "redirect" := PhpString(url)])
  {
  }

  /** A `Responsable` whose response is not a redirect only closes the modal. */
  lemma NonRedirectResponsableOnlyCloses(response: PhpValue)
    requires !response.RedirectResponse?
    ensures NormalizeHeaderActionResult(Responsable(response)) == PhpArray(map["success" := PhpBool(true)])
  {
  }

  /** Normalising twice is normalising once: the reply is already in the browser's shape. */
  lemma NormalizeIdempotent(result: PhpValue)
    ensures NormalizeHeaderActionResult(NormalizeHeaderActionResult(result)) == NormalizeHeaderActionResult(result)
  {
  }

  // ---------------------------------------------------------------------------
  // processBarcodeScanHeader

  /** An after-scan callback: the scanned value and format in, any PHP value out. */
  type AfterScanCallback = (string, Option<BarcodeFormat>) -> PhpValue

  /** The action `getMountedAction` returns. */
  datatype MountedAction = NoAction | OtherAction | HeaderAction(afterScan: Option<AfterScanCallback>)

  /** The Livewire component the call is made on: whether it has `getMountedAction`, and
      what that returns. */
  datatype HeaderHost = HeaderHost(hasGetMountedAction: bool, mounted: MountedAction)

  /** The header hook: `[$value, $formatId]` are the call's parameters. */
  function HeaderHook(methodName: string, host: HeaderHost, value: string, formatId: int): (r: Reply<PhpValue>)
    ensures methodName != "processBarcodeScanHeader" <==> r.Declined?
  {
    if methodName != "processBarcodeScanHeader" then Declined
    else if !host.hasGetMountedAction || !host.mounted.HeaderAction? then
      Answered(PhpArray(map["success" := PhpBool(false)]))
    else if host.mounted.afterScan.None? then
      Answered(PhpArray(map["success" := PhpBool(true), "value" := PhpString(value)]))
    else
      Answered(NormalizeHeaderActionResult(host.mounted.afterScan.value(value, FromHtml5QrcodeFormat(formatId))))
  }

  /** Without a mounted header action the call fails with `success: false`. */
  lemma HeaderWithoutActionFails(host: HeaderHost, value: string, formatId: int)
    requires !host.hasGetMountedAction || !host.mounted.HeaderAction?
    ensures HeaderHook("processBarcodeScanHeader", host, value, formatId)
      == Answered(PhpArray(map["success" := PhpBool(false)]))
  {
  }

  /** Without a callback the scanned value is echoed back with `success: true`. */
  lemma HeaderWithoutCallbackEchoes(value: string, formatId: int)
    ensures HeaderHook("processBarcodeScanHeader", HeaderHost(true, HeaderAction(None)), value, formatId)
      == Answered(PhpArray(map["success" := PhpBool(true), "value" := PhpString(value)]))
  {
  }

  /** With a callback, the reply is its normalised result for the value and the decoded
      format, and it always carries a `success` entry unless the callback built the array. */
  lemma HeaderWithCallbackNormalises(cb: AfterScanCallback, value: string, formatId: int)
    ensures var r := HeaderHook("processBarcodeScanHeader", HeaderHost(true, HeaderAction(Some(cb))), value, formatId);
      var result := cb(value, FromHtml5QrcodeFormat(formatId));
      && r == Answered(NormalizeHeaderActionResult(result))
      && r.value.PhpArray?
      && (!result.PhpArray? ==> r.value.entries["success"] == PhpBool(true))
  {
  }

  // ---------------------------------------------------------------------------
  // processBarcodeScan

  /** A form field's PHP state modifier. */
  type StateModifier = (string, Option<BarcodeFormat>) -> string

  /** The `barcode-scanner` action a form field has. */
  datatype FieldAction = NoFieldAction | OtherFieldAction | ScannerAction(modifier: Option<StateModifier>)

  datatype Field = Field(statePath: string, action: FieldAction)

  /** A cached form, as the sequence of its fields. */
  datatype Form = Form(fields: seq<Field>)

  /** The component the call is made on: its cached forms, or `None` when it has no
      `getCachedForms`. */
  datatype FormHost = FormHost(cachedForms: Option<seq<Form>>)

  /** `$form->getComponent(fn ($c) => $c->getStatePath() === $statePath)`: the first field on
      that state path. */
  function FindField(fields: seq<Field>, statePath: string): (r: Option<Field>)
    ensures r.Some? ==> r.value in fields && r.value.statePath == statePath
    ensures r.None? <==> forall f :: f in fields ==> f.statePath != statePath
    ensures r.Some? ==> exists i :: 0 <= i < |fields| && fields[i] == r.value
                                   && forall j :: 0 <= j < i ==> fields[j].statePath != statePath
  {
    if fields == [] then None
    else if fields[0].statePath == statePath then Some(fields[0])
    else
      var rest := FindField(fields[1..], statePath);
      FirstFieldShifts(fields, statePath, rest);
      rest
  }

  /** A first field on the path found in the tail is the first one of the whole list when the
      head is on another path. */
  lemma FirstFieldShifts(fields: seq<Field>, statePath: string, r: Option<Field>)
    requires fields != [] && fields[0].statePath != statePath
    requires r.Some? ==> exists i :: 0 <= i < |fields| - 1 && fields[1..][i] == r.value
                                     && forall j :: 0 <= j < i ==> fields[1..][j].statePath != statePath
    ensures r.Some? ==> exists i :: 0 <= i < |fields| && fields[i] == r.value
                                    && forall j :: 0 <= j < i ==> fields[j].statePath != statePath
  {
    if r.Some? {
      var i :| 0 <= i < |fields| - 1 && fields[1..][i] == r.value
               && forall j :: 0 <= j < i ==> fields[1..][j].statePath != statePath;
      assert fields[i + 1] == r.value;
      forall j | 0 <= j < i + 1 ensures fields[j].statePath != statePath {
        if j > 0 {
          assert fields[j] == fields[1..][j - 1];
        }
      }
    }
  }

  /** Whether a form's field on the state path carries the scanner action (which the loop
      stops at); otherwise the loop goes on to the next form. */
  predicate Stops(form: Form, statePath: string) {
    var field := FindField(form.fields, statePath);
    field.Some? && field.value.action.ScannerAction?
  }

  /** The modifier of the first form the loop stops at (`None` inside when that action has
      no modifier), or `None` when it stops at none. */
  function FirstScannerAction(forms: seq<Form>, statePath: string): (r: Option<Option<StateModifier>>)
    ensures r.None? <==> forall i :: 0 <= i < |forms| ==> !Stops(forms[i], statePath)
  {
    if forms == [] then None
    else if Stops(forms[0], statePath) then Some(FindField(forms[0].fields, statePath).value.action.modifier)
    else
      var rest := FirstScannerAction(forms[1..], statePath);
      assert forall i :: 1 <= i < |forms| ==> forms[i] == forms[1..][i - 1];
      rest
  }

  /** What the form hook answers: the value unchanged, unless the first scanner action on the
      state path has a PHP modifier, which is then applied to the value and decoded format. */
  function FormReply(host: FormHost, statePath: string, value: string, formatId: int): string {
    if host.cachedForms.None? then value
    else
      match FirstScannerAction(host.cachedForms.value, statePath)
      case Some(Some(modifier)) => modifier(value, FromHtml5QrcodeFormat(formatId))
      case _ => value
  }

  /** The first form that stops the loop decides the answer, whatever the later forms hold. */
  lemma {:induction false} FirstMatchDecides(forms: seq<Form>, statePath: string, k: nat)
    requires k < |forms| && Stops(forms[k], statePath)
    requires forall i :: 0 <= i < k ==> !Stops(forms[i], statePath)
    ensures FirstScannerAction(forms, statePath) == Some(FindField(forms[k].fields, statePath).value.action.modifier)
    decreases k
  {
    if k > 0 {
      assert !Stops(forms[0], statePath);
      forall i | 0 <= i < k - 1 ensures !Stops(forms[1..][i], statePath) {
        assert forms[1..][i] == forms[i + 1];
      }
      FirstMatchDecides(forms[1..], statePath, k - 1);
    }
  }

  /** The value comes back unchanged without cached forms, without a scanner action on the
      state path, or when that action has no PHP modifier. */
  lemma FormReplyUnchanged(host: FormHost, statePath: string, value: string, formatId: int)
    requires || host.cachedForms.None?
             || (forall i :: 0 <= i < |host.cachedForms.value| ==> !Stops(host.cachedForms.value[i], statePath))
             || FirstScannerAction(host.cachedForms.value, statePath) == Some(None)
    ensures FormReply(host, statePath, value, formatId) == value
  {
  }

  /** The form hook as the loop it is: it declines other calls, and answers the rest with
      `FormReply`. */
  method FormHook(methodName: string, host: FormHost, statePath: string, value: string,
                  formatId: int) returns (r: Reply<string>)
    ensures methodName != "processBarcodeScan" ==> r == Declined
    ensures methodName == "processBarcodeScan" ==> r == Answered(FormReply(host, statePath, value, formatId))
  {
    if methodName != "processBarcodeScan" {
      return Declined;
    }
    if host.cachedForms.None? {
      return Answered(value);
    }
    var forms := host.cachedForms.value;
    var i := 0;
    while i < |forms|
      invariant 0 <= i <= |forms|
      invariant forall j :: 0 <= j < i ==> !Stops(forms[j], statePath)
    {
      var field := FindField(forms[i].fields, statePath);
      if field.Some? && field.value.action.ScannerAction? {
        FirstMatchDecides(forms, statePath, i);
        var modifier := field.value.action.modifier;
        if modifier.None? {
          return Answered(value);
        }
        return Answered(modifier.value(value, FromHtml5QrcodeFormat(formatId)));
      }
      i := i + 1;
    }
    return Answered(value);
  }
}
