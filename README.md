# Barcode scanner for Filament, modelled in Dafny

This project models the core of the `filament-qrcode-scanner-html5` package. The package adds
barcode and QR-code scanning to Filament forms and pages in two ways:

- an embedded widget, the `barcode-scanner` Blade component;
- a scanner shown in the modal of a form-field action.

Both views hold the same Alpine.js controller. It loads the `html5-qrcode` decode engine,
picks a camera, starts and stops the engine, switches cameras, classifies errors and delivers
sanitised scans.

Around the controller sit several server-side pieces:

- the `HasScannerConfiguration` concern, with validated fluent setters and the
  configuration they produce;
- the `BarcodeFormat` enum, which maps engine format ids to symbologies;
- a one-shot callback registry;
- the two Livewire `call` hooks of the service provider;
- the Livewire `BarcodeScanner` component and its view.

## How the model is built

| module (file) | what it models | form |
|---|---|---|
| `Wrappers` (wrappers.dfy) | `Option`, `Outcome`, `Result` | datatypes |
| `JsText` (js_text.dfy) | JavaScript `trim`, `replace(/<[^>]*>/g, '')`, `includes`, ASCII `toLowerCase`, `sanitizeScannedText` | functions and lemmas |
| `BarcodeFormats` (barcode_format.dfy) | the enum, its labels and `tryFrom` | datatype, functions, lemmas |
| `ScannerCore` (scanner_core.dfy) | controller state, error classification, camera preference, the stop sequence, one step function per controller method | datatypes and functions |
| `ScannerControl` (scanner_controller.dfy) | the Alpine controller as a class whose methods update its fields in place | class |
| `ScannerLifecycle` (scanner_lifecycle.dfy) | what starting, stopping and switching guarantee | lemmas |
| `ScannerWidget` (scanner_widget.dfy) | the widget's props, engine configuration, format names and `onScanSuccess` | functions, lemmas, a method |
| `ScannerModal` (scanner_modal.dfy) | the modal's fixed configuration, state modifiers, delivery of a scan, `closeModal` and the window events | functions, lemmas, methods |
| `ScannerConfiguration` (scanner_configuration.dfy) | the configuration concern | a class with setters, plus pure getters |
| `CallbackRegistry` (callback_registry.dfy) | the keyed callback store | a class over a `map` |
| `ServiceProvider` (service_provider.dfy) | `normalizeHeaderActionResult` and the two hooks | functions, lemmas, a method with a loop |
| `LivewireScanner` (livewire_scanner.dfy) | the Livewire component and the view's event wiring | a class, functions, lemmas |

**The controller.** The controller is one class, `ScannerController`, shared by both views.
A `Profile` records how the widget and the modal differ:

- the widget dispatches window events tagged with its scanner id; the modal dispatches none;
- each view has its own container id for an element without one;
- each view has its own camera preference, engine configuration and messages.

**The environment.** The decode engine, the DOM and Livewire's `$wire` are not modelled.
What they answer is a parameter:

- a `StartOracle` says whether the script loads, whether `getUserMedia` exists, what camera
  enumeration returns, and whether binding and `start` throw;
- a `StopOracle` gives the engine state and whether `stop` and `clear` reject;
- an `Outcome` says whether a single call passes or fails.

Every call the controller makes outward is appended to the field `trace`. This covers engine
calls, window events and `$wire` calls.

**Method contracts.** Each controller method is proved against a step function of
`ScannerCore`. Its postcondition says that its new fields equal the step function's session,
and that `trace` grew by the step function's effects. The lemmas of `ScannerLifecycle`,
`ScannerWidget` and `ScannerModal` then state what those step functions guarantee.

**Async steps.** Each `await` is one step of a sequential run. The timed settle delays are
steps that change nothing.

## Where the code and the documented behaviour differ

The model follows the code in each of these cases.

- **Fallback error type.** An error that matches no signal gets error type `unknown` in
  `handleError`, and the camera-unavailable message. It is not reported as
  `camera_unavailable` (`ScannerCore.UnknownFallsBackToUnavailableMessage`).
- **Rejected start.** A rejected `start(...)` is caught inside `startCamera`. `startScanning`
  therefore still reports readiness, and it keeps the engine instance although nothing is
  scanning (`ScannerLifecycle.StartRejectedStillReportsReady`).
- **Swallowed switch errors.** A `removeChild` or `clear` error while switching cameras is
  swallowed. The scanning flag keeps its old value although no engine instance remains
  (`ScannerLifecycle.SwitchSwallowsTeardownErrors`).
- **No re-check after an await.** Nothing is checked again after an `await`. A teardown that
  happens during `startScanning` is not seen by the rest of that run.
- **ITF name.** The widget calls format 8 "ITF", while the enum's label is
  "ITF (Interleaved 2 of 5)" (`ScannerWidget.FormatNameMatchesLabel`).
- **Livewire events.** The component's tests expect `handleScan` and `handleError` to dispatch
  `barcode-scanned` and `barcode-scanner-error`. The component dispatches nothing itself: only
  the widget's Alpine controller does. `Component.HandleScan` and `Component.HandleError`
  therefore record no event (`LivewireScanner.WidgetScanReachesHandleScan` and
  `WidgetErrorReachesHandleError` state the widget-to-component path).
- **Server-side modifier.** The path through the server-side modifier is not fail-open. If no
  reply arrives, nothing is stored and the modal stays open (`ScannerModal.ServerModifierPath`).

## Model

| member | source | states |
|---|---|---|
| JsText.TrimStart | resources/views/components/barcode-scanner.blade.php:68 | the result is a suffix of the input, every dropped character is JavaScript whitespace, and the result does not start with whitespace |
| JsText.TrimEnd | resources/views/components/barcode-scanner.blade.php:68 | the result is a prefix of the input, every dropped character is whitespace, and the result does not end with whitespace |
| JsText.Trim | resources/views/components/barcode-scanner.blade.php:68 | `trim` never lengthens the text and leaves neither end blank |
| JsText.TrimIsSlice | resources/views/components/barcode-scanner.blade.php:68 | the trimmed text is the contiguous slice of the input that starts after the leading whitespace |
| JsText.TrimIdentity | resources/views/components/barcode-scanner.blade.php:68 | text whose ends are not blank is left unchanged by `trim` |
| JsText.TrimIdempotent | resources/views/components/barcode-scanner.blade.php:68 | trimming twice is trimming once |
| JsText.IndexOf | resources/views/components/barcode-scanner.blade.php:68 | the first position of the character, or none exactly when it does not occur |
| JsText.StripTags | resources/views/components/barcode-scanner.blade.php:68 | the global `<[^>]*>` replace never lengthens the text, and no `<` in its result is followed later by a `>` |
| JsText.StripTagsIdentity | resources/views/components/barcode-scanner.blade.php:68 | text holding no tag passes through unchanged |
| JsText.StripTagsRemovesTag | resources/views/components/barcode-scanner.blade.php:68 | a `<…>` span after `<`-free text is deleted, and matching goes on after it |
| JsText.StripTagsBoldExample | resources/views/components/barcode-scanner.blade.php:68 | stripping the tags of `<b>12345</b>` leaves `12345` |
| JsText.StripTagsClosingTag | resources/views/components/barcode-scanner.blade.php:68 | a closing tag after the digits is removed: `12345</b>` becomes `12345` |
| JsText.Sanitize | resources/views/components/barcode-scanner.blade.php:64-69 | `''` for a value that is not a string; otherwise the tag-stripped then trimmed text; never a tag in the result |
| JsText.SanitizeIdempotent | resources/views/components/barcode-scanner.blade.php:64-69 | sanitising sanitised text changes nothing |
| JsText.SanitizeBoldExample | resources/views/components/barcode-scanner.blade.php:64-69 | `<b>12345</b>` is sanitised to `12345` |
| JsText.ContainsAt | resources/views/components/barcode-scanner.blade.php:291 | `includes` holds whenever the needle sits at some offset |
| JsText.ContainsWitness | resources/views/components/barcode-scanner.blade.php:291 | when `includes` holds, the needle sits at some offset |
| JsText.AbsentChar | resources/views/components/barcode-scanner.blade.php:291 | a needle holding a character the text lacks is not included |
| JsText.ToLower | resources/views/components/barcode-scanner.blade.php:115 | `toLowerCase` keeps the length, leaves no ASCII capital, keeps every other character and replaces each capital by its small letter |
| JsText.ToLowerIdempotent | resources/views/components/barcode-scanner.blade.php:115 | lower-casing lower-cased text changes nothing |
| JsText.ToLowerIgnoresCase | resources/views/components/barcode-scanner.blade.php:115 | texts that differ only in ASCII case lower-case to the same text |
| JsText.NatToString | resources/views/components/barcode-scanner.blade.php:155 | the camera number is rendered as decimal digits that denote it (`DigitsValue`), with no leading zero unless it is 0 |
| BarcodeFormats.CasesInOrder | src/Enums/BarcodeFormat.php:12-24 | there are exactly 13 cases, each listed once at its declaration position |
| BarcodeFormats.Value | src/Enums/BarcodeFormat.php:12-24 | the backing value of each case, as declared; its properties are stated by `CaseValuesAreAssigned` and `ValueInjective` |
| BarcodeFormats.CaseValuesDistinct | src/Enums/BarcodeFormat.php:12-24 | the 13 backing values are pairwise distinct |
| BarcodeFormats.ValueIsAssigned | src/Enums/BarcodeFormat.php:12-24 | every case is backed by one of the assigned codes |
| BarcodeFormats.CaseValuesAreAssigned | src/Enums/BarcodeFormat.php:12-24 | the backing values are exactly {0,1,2,4,5,6,8,9,10,11,12,14,15} |
| BarcodeFormats.ValueInjective | src/Enums/BarcodeFormat.php:12-24 | two cases with the same value are the same case |
| BarcodeFormats.FromHtml5QrcodeFormat | src/Enums/BarcodeFormat.php:45-48 | `tryFrom` gives a case whose value is the argument, and null exactly for a code that names no case |
| BarcodeFormats.FromValueRoundTrip | src/Enums/BarcodeFormat.php:45-48 | looking up a case's value gives the case back |
| BarcodeFormats.ValueFromRoundTrip | src/Enums/BarcodeFormat.php:45-48 | an assigned code is looked up to the case with that value |
| BarcodeFormats.InvalidIdsExample | src/Enums/BarcodeFormat.php:45-48 | 3, 7, -1 and 999 name no case |
| BarcodeFormats.LabelsDistinct | src/Enums/BarcodeFormat.php:26-43 | `getLabel` is total and gives distinct cases distinct labels |
| BarcodeFormats.Label | src/Enums/BarcodeFormat.php:26-43 | the label of each case, as declared; `LabelsDistinct` and `ScannerWidget.FormatNameMatchesLabel` state its properties |
| ScannerCore.Classify | resources/views/components/barcode-scanner.blade.php:291-310 | each category holds exactly when its signal words occur and no earlier group's words do; `unknown` exactly when none occur |
| ScannerCore.ErrorString | resources/views/components/barcode-scanner.blade.php:288 | the error's `message` when it has one, else its `toString()` rendering |
| ScannerCore.Message | resources/views/components/barcode-scanner.blade.php:291-310 | the message under the key, or empty text (JavaScript `undefined`) when the key is absent |
| ScannerCore.NotAllowedIsPermissionDenied | resources/views/components/barcode-scanner.blade.php:297-302 | `NotAllowedError` is a permission error, with the permission message, unless an earlier group matches |
| ScannerCore.NotSupportedWinsOverPermission | resources/views/components/barcode-scanner.blade.php:291-302 | the first matching group wins: not-supported before permission |
| ScannerCore.UnknownFallsBackToUnavailableMessage | resources/views/components/barcode-scanner.blade.php:307-310 | an unrecognised error has type `unknown` and shows the camera-unavailable message |
| ScannerCore.OwnErrorIsCameraUnavailable | resources/views/components/barcode-scanner.blade.php:93-101 | the views' own `camera_unavailable` error is classified as an unavailable camera |
| ScannerCore.FindPreferred | resources/views/components/barcode-scanner.blade.php:112-134 | `find` gives the first camera whose lower-cased label matches the preference, or none exactly when no label matches |
| ScannerCore.LabelMatches | resources/views/components/barcode-scanner.blade.php:114-124 | the `find` predicate: the lower-cased label includes `back`, `rear` or `environment` (back) or `front` or `user` (front) |
| ScannerCore.LabelMatchIgnoresCase | resources/views/components/barcode-scanner.blade.php:114-124 | labels that differ only in ASCII case match the same preferences |
| ScannerCore.PreferredIndex | resources/views/components/barcode-scanner.blade.php:112-134 | the index is valid for a non-empty camera list; it is the first matching camera, else 0 |
| ScannerCore.FrontLabelMatches | resources/views/components/barcode-scanner.blade.php:121-124 | "Front" matches the front preference and not the back one |
| ScannerCore.BackLabelMatches | resources/views/components/barcode-scanner.blade.php:128-132 | "Back Camera" matches the back preference |
| ScannerCore.PreferenceExample | resources/views/components/barcode-scanner.blade.php:112-134 | with cameras Front and Back Camera, the back preference picks index 1 and the front preference index 0 |
| ScannerCore.StopCalls | resources/views/components/barcode-scanner.blade.php:184-204 | `stop()` only while scanning or paused; the last call is always `clear()`; nothing is started |
| ScannerCore.NextCameraIndex | resources/views/components/barcode-scanner.blade.php:232 | the advance is circular and stays in range |
| ScannerCore.NextCameraTwiceOnTwo | resources/views/components/barcode-scanner.blade.php:232 | two advances on two cameras come back to the start |
| ScannerCore.ScopedConcat | resources/views/components/barcode-scanner.blade.php:321-329 | events carry the scanner id in a concatenation exactly when they do in both parts |
| ScannerCore.AdvanceStep | resources/views/components/barcode-scanner.blade.php:213-232 | loading on, the instance dropped and the index advanced circularly (`NextCameraIndex` of the old index); nothing else changes; the effects are the release calls |
| ScannerCore.HandleErrorStep | resources/views/components/barcode-scanner.blade.php:283-319 | scanning and loading off, the error flag on, the message of the classified category shown; scanner, cameras, index, label and container unchanged; the only effect is the error event with the error text and type name |
| ScannerCore.CameraLabel | resources/views/components/barcode-scanner.blade.php:155 | the camera's label, else "Camera " and its 1-based number; stated by `CameraLabelNamesPosition` |
| ScannerCore.CameraLabelNamesPosition | resources/views/components/barcode-scanner.blade.php:155 | a camera with a label shows that label; one without shows "Camera " followed by digits that denote its 1-based position, with no leading zero |
| ScannerCore.StartCameraStep | resources/views/components/barcode-scanner.blade.php:151-182 | `startCamera`: nothing without an instance or cameras; otherwise the label is shown, one start call is made on the selected camera, and a rejection goes to `handleError`; stated by `ScannerLifecycle.StartCameraSettles` and `StartSucceeds` |
| ScannerCore.StartScanningStep | resources/views/components/barcode-scanner.blade.php:85-149 | `startScanning`: the error is cleared and loading set, the try block runs, loading ends; stated by `ScannerLifecycle.StartScanningSettles`, `StartSucceeds` and the failure lemmas |
| ScannerCore.StartScanningBody | resources/views/components/barcode-scanner.blade.php:90-146 | the try block: library, `getUserMedia`, enumeration, empty list, each failure to `handleError`; stated by `ScannerLifecycle.NoMediaDevicesReportsUnavailable` and `NoCamerasReportsUnavailable` |
| ScannerCore.StartWithCameras | resources/views/components/barcode-scanner.blade.php:103-142 | scanning set and container settled, then a bind failure to `handleError` or the bound start; stated by `ScannerLifecycle.StartWithCamerasSettles` |
| ScannerCore.BoundStartStep | resources/views/components/barcode-scanner.blade.php:110-142 | the preferred camera selected, `startCamera`, then readiness with the camera count and camera; stated by `ScannerLifecycle.StartSucceeds` and `StartRejectedStillReportsReady` |
| ScannerCore.StopScanningStep | resources/views/components/barcode-scanner.blade.php:184-208 | `stopScanning`: the stop calls of `StopCalls` for an instance, instance dropped, scanning and loading off, the stopped event; stated by `ScannerLifecycle.StopScanningEnds` and `StopScanningIdempotent` |
| ScannerCore.StopScanningSyncStep | resources/views/components/barcode-scanner.blade.php:51-62 | `stopScanningSync`: stop and clear without waiting, instance dropped, scanning off; stated by `ScannerLifecycle.StopSyncLeavesLoading` |
| ScannerCore.SwitchCameraStep | resources/views/components/barcode-scanner.blade.php:210-245 | `switchCamera`: the guard, release, advance and rebind, loading ending; stated by `ScannerLifecycle.SwitchIgnored`, `SwitchAdvances`, `SwitchSwallowsTeardownErrors`, `SwitchReportsOtherErrors` and `SwitchKeepsConsistent` |
| ScannerCore.ReleaseStep | resources/views/components/barcode-scanner.blade.php:214-228 | only the instance changes, to none; stop (awaited, rejection ignored) and clear are called exactly when there was an instance |
| ScannerCore.RebindStep | resources/views/components/barcode-scanner.blade.php:234-241 | a new instance bound and `startCamera`; a `removeChild`/`clear` bind error swallowed (`ScannerLifecycle.SwitchSwallowsTeardownErrors`), any other to `handleError` (`ScannerLifecycle.SwitchReportsOtherErrors`); consistency by `RebindSettles` |
| ScannerControl.ScannerController.constructor | resources/views/components/barcode-scanner.blade.php:28-41 | the initial `x-data` values on a container element with the given id, and an empty trace |
| ScannerControl.ScannerController.DispatchEvent | resources/views/components/barcode-scanner.blade.php:321-329 | the event is appended with the view's scanner id, or not at all in the modal; the state is unchanged |
| ScannerControl.ScannerController.HandleError | resources/views/components/barcode-scanner.blade.php:283-319 | the new fields and trace are those of `handleError`'s step |
| ScannerControl.ScannerController.StartCamera | resources/views/components/barcode-scanner.blade.php:151-182 | the new fields and trace are those of `startCamera`'s step |
| ScannerControl.ScannerController.Init | resources/views/components/barcode-scanner.blade.php:43-45 | `init` is `startScanning` |
| ScannerControl.ScannerController.StartScanning | resources/views/components/barcode-scanner.blade.php:85-149 | the new fields and trace are those of `startScanning`'s step |
| ScannerControl.ScannerController.TryStart | resources/views/components/barcode-scanner.blade.php:90-146 | the `try` block with its `catch` |
| ScannerControl.ScannerController.StartWithCameras | resources/views/components/barcode-scanner.blade.php:103-142 | the part after a non-empty camera list is stored |
| ScannerControl.ScannerController.StartBound | resources/views/components/barcode-scanner.blade.php:110-142 | the part after the engine instance is bound |
| ScannerControl.ScannerController.StopScanning | resources/views/components/barcode-scanner.blade.php:184-208 | the new fields and trace are those of `stopScanning`'s step |
| ScannerControl.ScannerController.StopScanningThen | resources/views/components/barcode-scanner.blade.php:253-261 | the stop is awaited before the given effects |
| ScannerControl.ScannerController.Destroy | resources/views/components/barcode-scanner.blade.php:47-49 | `destroy` is `stopScanningSync` |
| ScannerControl.ScannerController.StopScanningSync | resources/views/components/barcode-scanner.blade.php:51-62 | the new fields and trace are those of `stopScanningSync`'s step |
| ScannerControl.ScannerController.SwitchCamera | resources/views/components/barcode-scanner.blade.php:210-245 | the new fields and trace are those of `switchCamera`'s step |
| ScannerControl.ScannerController.Advance | resources/views/components/barcode-scanner.blade.php:213-232 | loading starts, the instance is released and the next camera is selected |
| ScannerControl.ScannerController.Release | resources/views/components/barcode-scanner.blade.php:215-228 | the instance is stopped, cleared and dropped |
| ScannerControl.ScannerController.Rebind | resources/views/components/barcode-scanner.blade.php:234-241 | a new instance is bound and started; a teardown race is ignored |
| ScannerLifecycle.NoCamerasReportsUnavailable | resources/views/components/barcode-scanner.blade.php:99-101 | an empty camera list never sets scanning; it ends in the error state, not loading, with the unavailable message and a `camera_unavailable` event |
| ScannerLifecycle.NoMediaDevicesReportsUnavailable | resources/views/components/barcode-scanner.blade.php:93-95 | a missing `getUserMedia` is reported the same way before enumeration |
| ScannerLifecycle.StartSucceeds | resources/views/components/barcode-scanner.blade.php:85-149 | when every await succeeds, the preferred camera scans in the settled container with its label, one start call is made, and readiness is reported |
| ScannerLifecycle.StartRejectedStillReportsReady | resources/views/components/barcode-scanner.blade.php:136-142 | a rejected start is reported as an error, then readiness; the instance is kept |
| ScannerLifecycle.StartScanningSettles | resources/views/components/barcode-scanner.blade.php:85-149 | for every environment, `startScanning` ends not loading and consistent, scanning exactly when no error is shown, with every event tagged |
| ScannerLifecycle.HandleErrorSettles | resources/views/components/barcode-scanner.blade.php:283-286 | `handleError` always ends with scanning and loading off and the error flag on |
| ScannerLifecycle.StartCameraSettles | resources/views/components/barcode-scanner.blade.php:151-182 | `startCamera` keeps the state consistent and tags its events |
| ScannerLifecycle.StartWithCamerasSettles | resources/views/components/barcode-scanner.blade.php:103-142 | after a non-empty camera list, scanning holds exactly when no error is shown |
| ScannerLifecycle.StopScanningEnds | resources/views/components/barcode-scanner.blade.php:184-208 | `stopScanning` always drops the instance and ends scanning and loading, whatever stop and clear do; it calls `stop()` exactly while scanning or paused, never starts, and reports the stop last |
| ScannerLifecycle.StopScanningIdempotent | resources/views/components/barcode-scanner.blade.php:184-208 | a second stop changes nothing and only reports again |
| ScannerLifecycle.StopSyncLeavesLoading | resources/views/components/barcode-scanner.blade.php:51-62 | the synchronous stop clears an existing instance, ends scanning and leaves loading as it was |
| ScannerLifecycle.SwitchIgnored | resources/views/components/barcode-scanner.blade.php:211 | with at most one camera, or while loading, switching does nothing |
| ScannerLifecycle.SwitchAdvances | resources/views/components/barcode-scanner.blade.php:210-245 | otherwise the instance is released, the next camera is selected and started in the element's container, and loading ends |
| ScannerLifecycle.SwitchSwallowsTeardownErrors | resources/views/components/barcode-scanner.blade.php:232-244 | a `removeChild`/`clear` error leaves the error flag, the scanning flag and the label unchanged, drops the instance, keeps the advanced index and emits only the release calls |
| ScannerLifecycle.SwitchReportsOtherErrors | resources/views/components/barcode-scanner.blade.php:232-244 | any other bind error is handled: error shown with its category's message, nothing scanning, no instance, loading off, index advanced but label unchanged, and the error event right after the release calls |
| ScannerLifecycle.SwitchTwiceOnTwoCameras | resources/views/components/barcode-scanner.blade.php:232 | two switches on two cameras come back to the first camera |
| ScannerLifecycle.SwitchKeepsConsistent | resources/views/components/barcode-scanner.blade.php:210-245 | switching keeps the state consistent, tags its events and never leaves loading on |
| ScannerLifecycle.RebindSettles | resources/views/components/barcode-scanner.blade.php:234-241 | binding and starting the next camera keeps the state consistent |
| ScannerWidget.MergeConfig | resources/views/components/barcode-scanner.blade.php:10-13 | the caller's keys win; `fps` defaults to 10 |
| ScannerWidget.MergeLabels | resources/views/components/barcode-scanner.blade.php:15-25 | the caller's labels win; the rest are the defaults |
| ScannerWidget.RenderProps | resources/views/components/barcode-scanner.blade.php:1-25 | the given id, else `barcode-scanner-` plus the unique id, and the merged configuration and labels |
| ScannerWidget.WidgetPreference | resources/views/components/barcode-scanner.blade.php:112-134 | the front camera exactly for facing mode `user`; otherwise the back camera |
| ScannerWidget.EngineConfig | resources/views/components/barcode-scanner.blade.php:157-170 | `fps` from the configuration and the formats always; `qrbox` and `aspectRatio` exactly when truthy |
| ScannerWidget.FormatName | resources/views/components/barcode-scanner.blade.php:264-281 | `getFormatName`'s table; stated by `FormatNameKnownIff` and `FormatNameMatchesLabel` |
| ScannerWidget.ScanSuccessStep | resources/views/components/barcode-scanner.blade.php:247-262 | the widget's scan step: sanitise, default the id to 0, awaited stop, scanned event; stated by `ScanStopsBeforeDelivering`, `ScanDeliversCleanText` and `ScanEventsScoped` |
| ScannerWidget.FormatNameKnownIff | resources/views/components/barcode-scanner.blade.php:264-281 | the name is not `Unknown` exactly for the 13 assigned ids |
| ScannerWidget.FormatNameMatchesLabel | resources/views/components/barcode-scanner.blade.php:264-281 | the widget's names equal the enum labels except for ITF |
| ScannerWidget.ScanStopsBeforeDelivering | resources/views/components/barcode-scanner.blade.php:247-262 | the stopped event comes right before the scanned event, which carries the format id (0 when none); the scanner is left stopped |
| ScannerWidget.ScanDeliversCleanText | resources/views/components/barcode-scanner.blade.php:248 | the delivered text holds no tag and has nothing to trim |
| ScannerWidget.ScanEventsScoped | resources/views/components/barcode-scanner.blade.php:321-329 | every event of a scan carries the widget's scanner id |
| ScannerWidget.ScanExample | resources/views/components/barcode-scanner.blade.php:247-262 | `<b>12345</b>` without a format is delivered as `12345`, id 0, "QR Code" |
| ScannerWidget.NonStringScanIsEmpty | resources/views/components/barcode-scanner.blade.php:64-67 | a decoded value that is not a string is delivered as empty text |
| ScannerWidget.UnknownErrorShowsDefaultText | resources/views/components/barcode-scanner.blade.php:307-310 | without label overrides, an unknown error shows the default unavailable text |
| ScannerWidget.OnScanSuccess | resources/views/components/barcode-scanner.blade.php:247-262 | the new fields and trace are those of the widget's scan step |
| ScannerModal.ModalMessages | resources/views/barcode-scanner-modal.blade.php:6-11 | the four messages are found under the keys `handleError` reads |
| ScannerModal.ModalEngineConfig | resources/views/barcode-scanner-modal.blade.php:130-133 | always `fps` 10 and the supplied formats, nothing else |
| ScannerModal.ModalIsSilent | resources/views/barcode-scanner-modal.blade.php:242-266 | the modal dispatches no event |
| ScannerModal.ModalStartUsesFixedConfig | resources/views/barcode-scanner-modal.blade.php:98-133 | the modal starts the first back-facing camera (else the first one) at 10 fps with the supplied formats, ignoring any facing mode |
| ScannerModal.ApplyStateModifier | resources/views/barcode-scanner-modal.blade.php:49-61 | without modifier source the value itself; otherwise the modifier's result, or the value itself when it throws |
| ScannerModal.CloseModalEffects | resources/views/barcode-scanner-modal.blade.php:234-240 | prefers `unmountFormComponentAction`, falls back to `unmountAction`, and does nothing when neither exists |
| ScannerModal.SetState | resources/views/barcode-scanner-modal.blade.php:227-229 | the state is set exactly when the state path is non-empty |
| ScannerModal.Delivery | resources/views/barcode-scanner-modal.blade.php:215-231 | the server path (call, then store and close on the reply) or the client path (store the modified value, close); stated by `ServerModifierPath`, `ClientModifierFailsOpen`, `NoModifierStoresText` and `NoStatePathNoSet` |
| ScannerModal.ModalScanStep | resources/views/barcode-scanner-modal.blade.php:207-232 | the awaited stop followed by the delivery of the sanitised text; stated by `ModalStopsBeforeDelivering` |
| ScannerModal.ModalStopsBeforeDelivering | resources/views/barcode-scanner-modal.blade.php:207-214 | the stop's engine calls come before the delivery; the scanner is stopped |
| ScannerModal.ServerModifierPath | resources/views/barcode-scanner-modal.blade.php:215-223 | the text and format id go to `processBarcodeScan`; the reply is stored and the modal closed only when it arrives |
| ScannerModal.ClientModifierFailsOpen | resources/views/barcode-scanner-modal.blade.php:224-231 | a throwing client modifier stores the scanned text and still closes the modal |
| ScannerModal.NoModifierStoresText | resources/views/barcode-scanner-modal.blade.php:224-231 | without modifiers the state receives the scanned text |
| ScannerModal.NoStatePathNoSet | resources/views/barcode-scanner-modal.blade.php:207-232 | without a state path nothing is stored |
| ScannerModal.OnScanSuccess | resources/views/barcode-scanner-modal.blade.php:207-232 | the new fields and trace are those of the modal's scan step |
| ScannerModal.OnWindowEvent | resources/views/barcode-scanner-modal.blade.php:268-270 | a stopping event runs `stopScanning`; any other changes nothing |
| ScannerModal.TriggersStop | resources/views/barcode-scanner-modal.blade.php:268-270 | the close events, and `open-modal` for any id other than `barcode-scanner`; stated by `OpenOwnModalKeepsScanning` |
| ScannerModal.OpenOwnModalKeepsScanning | resources/views/barcode-scanner-modal.blade.php:268-270 | close events stop; `open-modal` stops unless its id is `barcode-scanner` |
| ScannerConfiguration.SupportedFormatsOf | src/Concerns/HasScannerConfiguration.php:129-136 | every case when none was chosen, else exactly the chosen list |
| ScannerConfiguration.Values | src/Concerns/HasScannerConfiguration.php:216-219 | the order-preserving map of `->value` |
| ScannerConfiguration.FormatIdsOf | src/Concerns/HasScannerConfiguration.php:214-220 | one id per supported format, in order, each looking back up to its format |
| ScannerConfiguration.ScannerConfigOf | src/Concerns/HasScannerConfiguration.php:169-191 | `fps` always; `qrbox` exactly when both sides are set; `aspectRatio` and `facingMode` exactly when set |
| ScannerConfiguration.LabelsOf | src/Concerns/HasScannerConfiguration.php:202-209 | the three translated labels under their keys |
| ScannerConfiguration.DefaultFormatIdsAreAllCases | src/Concerns/HasScannerConfiguration.php:129-136 | with no formats chosen, every case's id is sent in declaration order |
| ScannerConfiguration.DefaultFormatIdsAreAssigned | src/Concerns/HasScannerConfiguration.php:214-220 | with no formats chosen, the ids sent are exactly the assigned codes |
| ScannerConfiguration.ChosenFormatIdsExample | src/Concerns/HasScannerConfiguration.php:214-220 | QR Code and Code 128 give the ids 0 and 6 |
| ScannerConfiguration.DefaultsValid | src/Concerns/HasScannerConfiguration.php:10-26 | the defaults satisfy the setters' checks and give just `fps` 10 |
| ScannerConfiguration.Configurable.constructor | src/Concerns/HasScannerConfiguration.php:10-26 | the property defaults |
| ScannerConfiguration.Configurable.Fps | src/Concerns/HasScannerConfiguration.php:33-42 | succeeds exactly for 1..30 and stores the value; otherwise fails with the range message and changes nothing |
| ScannerConfiguration.Configurable.Qrbox | src/Concerns/HasScannerConfiguration.php:50-64 | fails for a width below 1 or a given height below 1, changing nothing; otherwise stores width × height, square when no height is given |
| ScannerConfiguration.Configurable.AspectRatio | src/Concerns/HasScannerConfiguration.php:71-80 | fails exactly for a ratio ≤ 0; otherwise stores it |
| ScannerConfiguration.Configurable.FacingMode | src/Concerns/HasScannerConfiguration.php:87-96 | accepts exactly `user` and `environment`; otherwise fails and changes nothing |
| ScannerConfiguration.Configurable.PreferBackCamera | src/Concerns/HasScannerConfiguration.php:101-104 | is `facingMode('environment')` |
| ScannerConfiguration.Configurable.PreferFrontCamera | src/Concerns/HasScannerConfiguration.php:109-112 | is `facingMode('user')` |
| ScannerConfiguration.Configurable.SupportedFormats | src/Concerns/HasScannerConfiguration.php:119-124 | stores the list and nothing else |
| ScannerConfiguration.Configurable.SwitchCameraLabel | src/Concerns/HasScannerConfiguration.php:138-143 | stores the label and nothing else |
| ScannerConfiguration.Configurable.CameraUnavailableMessage | src/Concerns/HasScannerConfiguration.php:145-150 | stores the message and nothing else |
| ScannerConfiguration.Configurable.PermissionDeniedMessage | src/Concerns/HasScannerConfiguration.php:152-157 | stores the message and nothing else |
| ScannerConfiguration.Configurable.GetSupportedFormats | src/Concerns/HasScannerConfiguration.php:129-136 | equals `SupportedFormatsOf` of the current settings |
| ScannerConfiguration.Configurable.GetHtml5QrcodeFormatIds | src/Concerns/HasScannerConfiguration.php:214-220 | equals `FormatIdsOf` of the current settings |
| ScannerConfiguration.Configurable.GetScannerConfig | src/Concerns/HasScannerConfiguration.php:169-191 | the keys inserted one by one give `ScannerConfigOf` of the current settings |
| ScannerConfiguration.Configurable.GetLabels | src/Concerns/HasScannerConfiguration.php:202-209 | equals `LabelsOf` of the current settings |
| CallbackRegistry.Key | src/BarcodeScannerCallbackRegistry.php:29 | the key is the prefix followed by the id |
| CallbackRegistry.KeyInjective | src/BarcodeScannerCallbackRegistry.php:29 | distinct ids never share a key |
| CallbackRegistry.AfterRegister | src/BarcodeScannerCallbackRegistry.php:17-25 | the callback is stored under the id's key; other entries are kept |
| CallbackRegistry.Executed | src/BarcodeScannerCallbackRegistry.php:27-41 | a registered callback is applied and its entry removed; an unknown id answers the value and leaves the store unchanged |
| CallbackRegistry.Registry.Has | src/BarcodeScannerCallbackRegistry.php:43-46 | the store holds the id's key; stated by `RegisterThenHas` and `ExecuteIsOneShot` |
| CallbackRegistry.RegisterThenHas | src/BarcodeScannerCallbackRegistry.php:43-46 | after `register`, `has` holds for the id and is unchanged for other ids |
| CallbackRegistry.ExecuteRegisteredApplies | src/BarcodeScannerCallbackRegistry.php:27-41 | executing a freshly registered id applies its callback |
| CallbackRegistry.ExecuteIsOneShot | src/BarcodeScannerCallbackRegistry.php:30 | after `execute`, `has` is false and a second `execute` answers the value unchanged |
| CallbackRegistry.IndependentRegistrations | src/BarcodeScannerCallbackRegistry.php:17-41 | two registrations under different ids are executed independently |
| CallbackRegistry.Registry.constructor | src/BarcodeScannerCallbackRegistry.php:11-15 | the store starts empty |
| CallbackRegistry.Registry.Register | src/BarcodeScannerCallbackRegistry.php:17-25 | returns the generated id and stores the callback under its key |
| CallbackRegistry.Registry.Execute | src/BarcodeScannerCallbackRegistry.php:27-41 | answers and updates the store as `Executed` says |
| ServiceProvider.NormalizeHeaderActionResult | src/BarcodeScannerServiceProvider.php:126-163 | an array is returned unchanged; anything else becomes `success: true`, with `redirect` exactly when the result names a target |
| ServiceProvider.NullResultOnlyCloses | src/BarcodeScannerServiceProvider.php:161-162 | null gives `{success: true}` |
| ServiceProvider.RedirectFormsAgree | src/BarcodeScannerServiceProvider.php:129-154 | a redirect, a `Responsable` producing it and the bare URL give the same reply |
| ServiceProvider.NonRedirectResponsableOnlyCloses | src/BarcodeScannerServiceProvider.php:137-146 | a `Responsable` that does not redirect gives `{success: true}` |
| ServiceProvider.NormalizeIdempotent | src/BarcodeScannerServiceProvider.php:157-159 | normalising a normalised reply changes nothing |
| ServiceProvider.HeaderHook | src/BarcodeScannerServiceProvider.php:83-119 | declines exactly the calls to other methods |
| ServiceProvider.HeaderWithoutActionFails | src/BarcodeScannerServiceProvider.php:92-104 | without a mounted header action, `{success: false}` |
| ServiceProvider.HeaderWithoutCallbackEchoes | src/BarcodeScannerServiceProvider.php:106-112 | without a callback, `{success: true, value}` |
| ServiceProvider.HeaderWithCallbackNormalises | src/BarcodeScannerServiceProvider.php:114-117 | with a callback, its normalised result for the value and the decoded format |
| ServiceProvider.FindField | src/BarcodeScannerServiceProvider.php:51-53 | the first field of the form on the state path; none exactly when no field has that path |
| ServiceProvider.Stops | src/BarcodeScannerServiceProvider.php:51-63 | the loop stops at a form whose field on the path carries a scanner action; `continue` otherwise; stated by `FirstScannerAction` and `FirstMatchDecides` |
| ServiceProvider.FirstScannerAction | src/BarcodeScannerServiceProvider.php:50-77 | none exactly when no form has a scanner action on the state path |
| ServiceProvider.FirstMatchDecides | src/BarcodeScannerServiceProvider.php:50-77 | the first form with a scanner action on the path decides the answer |
| ServiceProvider.FormReply | src/BarcodeScannerServiceProvider.php:44-79 | the value unchanged, or the first scanner action's PHP modifier applied to the value and decoded format; stated by `FormReplyUnchanged`, `FirstMatchDecides` and the `FormHook` loop |
| ServiceProvider.FormReplyUnchanged | src/BarcodeScannerServiceProvider.php:44-79 | the value comes back unchanged without cached forms, without a scanner action, or without a PHP modifier |
| ServiceProvider.FormHook | src/BarcodeScannerServiceProvider.php:35-81 | declines other methods; otherwise the loop answers what `FormReply` says |
| LivewireScanner.SettledId | src/Livewire/BarcodeScanner.php:44-49 | an id that is neither empty nor "0" is kept; a falsy one (empty or "0") is replaced by `livewire-scanner-` plus the unique id; the result is never falsy |
| LivewireScanner.SettledIdStable | src/Livewire/BarcodeScanner.php:106-113 | settling again keeps the first id |
| LivewireScanner.FreshIdsDistinct | tests/LivewireBarcodeScannerTest.php:81-89 | two components mounted without an id get different ids exactly when their `uniqid()` values differ |
| LivewireScanner.ScanInvocations | src/Livewire/BarcodeScanner.php:86-90 | the scan callback is invoked once with the value and decoded format, or nothing happens without one |
| LivewireScanner.ErrorInvocations | src/Livewire/BarcodeScanner.php:101-103 | the error callback gets the error and type unchanged, or nothing happens |
| LivewireScanner.Component.constructor | src/Livewire/BarcodeScanner.php:15-25 | the field defaults |
| LivewireScanner.Component.Mount | src/Livewire/BarcodeScanner.php:44-49 | never overwrites an id that is neither empty nor "0"; an empty or "0" id becomes `SettledId` of it; nothing else changes |
| LivewireScanner.Component.OnScan | src/Livewire/BarcodeScanner.php:56-61 | stores the callback, possibly none, and returns the same instance |
| LivewireScanner.Component.OnError | src/Livewire/BarcodeScanner.php:68-73 | stores the callback, possibly none, and returns the same instance |
| LivewireScanner.Component.HandleScan | src/Livewire/BarcodeScanner.php:81-91 | records value and format id, then invokes the scan callback as `ScanInvocations` says |
| LivewireScanner.Component.HandleError | src/Livewire/BarcodeScanner.php:99-104 | forwards to the error callback and changes no field |
| LivewireScanner.Component.GetId | src/Livewire/BarcodeScanner.php:106-113 | generates and stores an id only when it is falsy, and returns the stored id |
| LivewireScanner.Listen | resources/views/livewire/barcode-scanner.blade.php:7-16 | an effect becomes a call exactly when it is a scanned or error event of this scanner id |
| LivewireScanner.ListenAll | resources/views/livewire/barcode-scanner.blade.php:7-16 | at most one call per effect |
| LivewireScanner.ListenAllConcat | resources/views/livewire/barcode-scanner.blade.php:7-16 | listening distributes over concatenation |
| LivewireScanner.ListenQuiet | resources/views/livewire/barcode-scanner.blade.php:7-16 | effects without scanned or error events produce no call |
| LivewireScanner.StopEffectsQuiet | resources/views/livewire/barcode-scanner.blade.php:7-16 | stopping produces no scanned or error event |
| LivewireScanner.WidgetScanReachesHandleScan | resources/views/livewire/barcode-scanner.blade.php:7-11 | a scan on the component's widget reaches `handleScan` exactly once with the sanitised text and format id |
| LivewireScanner.WidgetErrorReachesHandleError | resources/views/livewire/barcode-scanner.blade.php:12-16 | an error on the component's widget reaches `handleError` exactly once with the text and its type |
| LivewireScanner.OtherWidgetScanIgnored | resources/views/livewire/barcode-scanner.blade.php:8 | a scan from another scanner id never reaches the component |
| LivewireScanner.ViewUsesComponentId | resources/views/livewire/barcode-scanner.blade.php:3 | the widget is rendered under the component's id and tags its events with it |
| LivewireScanner.ConfigurationReachesEngine | resources/views/livewire/barcode-scanner.blade.php:4-5 | the configured fps and formats reach the engine; `qrbox` and `aspectRatio` exactly when set; the front camera exactly for `user` |
| LivewireScanner.ViewProfileFromConfiguration | resources/views/livewire/barcode-scanner.blade.php:2-6 | the rendered widget's engine configuration, preference and messages come from the configuration |
| LivewireScanner.ConfiguredMessagesShown | resources/views/livewire/barcode-scanner.blade.php:6 | the translated configured messages override the widget's defaults |

## Left out

- The decode engine, the DOM and Livewire's `$wire`. Their answers are parameters (`StartOracle`, `StopOracle`, `Outcome`, the server reply), and the calls made to them are recorded as effects. Loading the script, `$nextTick` and `$refs` are covered by those parameters.
- The 150 ms and 50 ms settle delays. They are timing only and are steps that change nothing.
- Async interleavings. Each async method runs start to finish. A stop that arrives during `startScanning` is not modelled.
- `console.warn`, and the `timestamp` of dispatched events, which comes from `Date.now()`.
- `stopScanningSync`: `stop()` and `clear()` are recorded as called. A synchronous throw from them only skips `clear()` and is ignored. The model does not distinguish that case.
- A camera enumeration that resolves to a non-array. It is modelled as a list, so only the empty case of `!this.cameras || length === 0` is represented.
- `toLowerCase` is modelled for ASCII letters only. Other Unicode case mappings are not modelled.
- `new Function(...)` in `applyStateModifier`. It is the parameter `run`, which returns a value or throws.
- The modifier's result is modelled as a string. Non-string JavaScript values are not represented.
- The registry's cache: Laravel's `Cache` facade, the 300-second TTL, expiry, and closure serialisation.
  - The store is a map without expiry.
  - `Str::uuid()` is the parameter `uuid`.
  - That separate registrations get distinct ids is assumed from the UUID generator. `IndependentRegistrations` requires it.
- `uniqid()` is the parameter `uniq` of `SettledId`, `Component.Mount`, `Component.GetId` and `ScannerWidget.RenderProps`. Nothing constrains it, so the ids generated by different components differ only when their `uniq` values do (`FreshIdsDistinct`). That is when the uniqueness expected by tests/LivewireBarcodeScannerTest.php:81-89 holds.
- The translator `__()`. It is the parameter `translate`.
- Filament's form internals. `getCachedForms` is a sequence of forms, and `getComponent` finds the first field on the state path of a form's top-level field list. Nested layouts are not modelled.
- The `(int)` and `(string)` casts of the hook parameters are not modelled. The value and the format id arrive already typed.
- `BarcodeScannerAction`, `BarcodeScannerHeaderAction` and `BarcodeScannerPlugin`. They only set options and render views.
- All markup, CSS and aria attributes.
- `getErrorBag` and `render` of the Livewire component.
- The `ui` configuration options (control button style, position, camera name) that appear in the tests. They are not part of the configuration concern.
- The side effects of the Livewire component's callbacks. They are represented by the recorded invocations.
- Livewire persists only public properties between requests, so a protected `scannerId` may be regenerated on a later request. The model covers a single component instance.
- JsText.Trim: its contract states only the length bound and that neither end is blank. That the result is exactly the slice between the leading and trailing whitespace is split between `TrimIsSlice` and the `TrimStart`/`TrimEnd` contracts.
- ServiceProvider.FindField: models `getComponent` as a search over a flat field list, as said above.
