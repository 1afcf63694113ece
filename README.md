# Barcode scanner: camera acquisition and lifecycle

A Dafny model of the `BarcodeScanner` class in `barcode-scanner.js`. The class drives the
`Html5Qrcode` decoder behind a modal:

- `startScan` shows the modal, creates the decoder lazily and picks a camera.
  - The camera is the first device whose lower-cased label mentions "back" or "rear",
    otherwise the first device.
  - It starts on that exact device.
  - If enumeration failed, no usable id came out, or that start failed, it tries exactly
    one `facingMode: "environment"` start.
  - If that fails too, it hides the modal.
- A decoded frame goes to the caller's sink, then `stop()` runs.
- `stop()` stops the decoder. When that succeeds it clears the decoder, and once `clear()`
  returns it hides the modal.

The decoding library is an oracle. One scan's outcomes are:

- the device list, or `None` when enumeration rejected;
- one success flag per start attempt;
- one flag for the stop outcome, and one for whether `clear()` returns or throws.

Every observable step is an `Effect` appended to the scanner's `trace`:

- showing or hiding the modal;
- creating the decoder;
- enumerating the cameras;
- a start attempt with its strategy, configuration and outcome;
- injecting the style block;
- a sink call;
- stopping or clearing the decoder.

The start attempts, the sink calls, the style injections, the decoders created, the modal's
visibility and the stream's running state are all functions of that log (module `Effects`).

The modules are:

- `Camera` — the pure device selection.
- `ScanConfig` — the device-class-dependent start configuration.
- `Lifecycle` — the effects of one `startScan`, `stop()` and decode callback as pure
  functions, and the properties proved about them.
- `Scanner` — the class itself. Its methods update `modalVisible`, `decoderCreated`,
  `running` and `trace` step by step. Each method is proved to append exactly the effects
  its specification function describes. Each public step (`StartScan`, `Stop`, `OnDecoded`,
  `OnFrameError`) also keeps the invariant `Valid()`: the fields agree with the log, and at
  most one decoder is ever created. The private helpers (`ShowModal`, `HideModal`,
  `InjectScannerStyles`, `StartDecoder`, `Open`, `Acquire`) only promise their own effect.

Behaviours of the code worth knowing:

- The code has exactly two strategies, `ExactDevice(id)` and `FacingEnvironment`. It always
  tries the exact device first when an id was chosen (`Lifecycle.AttemptOrder`).
- When the decoder fails to stop, or `clear()` throws, only a log line is written. The modal
  keeps its visibility (`Lifecycle.StopOutcomes`).
- `stop()` is not idempotent at the decoder. It calls the library's `clear()` but never
  resets `this.qrcodeScanner`. So every later `stop()` asks the library to stop again
  (`StopOutcomes`: `e[0] == StopDecoder(stopped)` whenever a decoder exists). "No decoder"
  only happens before the first scan.
- `if (!cameraId)` also rejects an empty-string id. A rear camera whose id is `""` therefore
  sends the scan to the fallback, even when other devices have ids (`Camera.CameraId`).

## Model

| member | source | states |
|---|---|---|
| Camera.ToLowerAscii | barcode-scanner.js:115-116 | upper-case ASCII letters map to their lower-case letter, 32 code points up; every other character is unchanged |
| Camera.Lower | barcode-scanner.js:115-116 | lower-casing keeps the length, maps each character independently, and leaves no upper-case ASCII letter |
| Camera.Contains | barcode-scanner.js:115-116 | `includes`: a contained pattern is no longer than the string, and the empty pattern is contained in every string |
| Camera.ContainsIff | barcode-scanner.js:115-116 | the recursive `includes` test holds exactly when the pattern occurs at some offset of the string (both directions) |
| Camera.RearLabelIff | barcode-scanner.js:114-117 | the `find` predicate `IsRearLabel` holds exactly when "back" or "rear" occurs at some offset of the lower-cased label |
| Camera.FindRear | barcode-scanner.js:114-117 | `find` returns the index of a device with a rear label, and every earlier device's label is not a rear label; it returns nothing exactly when no label is a rear label |
| Camera.SelectCamera | barcode-scanner.js:114-118 | no id exactly when the list is empty; otherwise the id of the first rear-labelled device; otherwise `devices[0].id` |
| Camera.CameraId | barcode-scanner.js:111-120 | a rejected enumeration and an empty list are errors; an id is returned exactly when the selection chose a non-empty id, and a chosen empty id is the "No camera found" error; a returned id belongs to a listed device |
| Camera.AbsentPair | barcode-scanner.js:115-116 | a string in which the pattern's first two characters never occur side by side does not contain the pattern |
| Camera.FrontLabelIsNotRear | barcode-scanner.js:114-117 | "Front Camera" is not a rear label |
| Camera.BackLabelIsRear | barcode-scanner.js:114-117 | "Back Camera" is a rear label |
| Camera.PrefersBackCamera | barcode-scanner.js:114-120 | with "Front Camera" (id 1) listed before "Back Camera" (id 2), id "2" is chosen |
| ScanConfig.ConfigFor | barcode-scanner.js:126-131 | 10 frames per second and the formats CODE_128, EAN_13, UPC_A; a viewport-wide box 150 high exactly on mobile or webview, a fixed 300 by 100 box otherwise |
| Effects.ViewsCons | barcode-scanner.js:24-53 | log lemma supporting the lifecycle proofs (the log records the show/hide steps cited): how a log's attempts, sink calls, style count, decoder count, visibility and running state follow from its first effect and the rest |
| Effects.ViewsAppend | barcode-scanner.js:102-187 | log lemma supporting the lifecycle proofs (the log records the steps of `startScan` and `stop` cited): attempts and sink calls of concatenated logs concatenate; style and decoder counts add |
| Effects.VisibleAppend | barcode-scanner.js:24-53 | log lemma supporting the lifecycle proofs (the log records the show/hide steps cited): the modal's visibility after two logs is that after the second, starting from the first's |
| Effects.RunningAppend | barcode-scanner.js:124-182 | log lemma supporting the lifecycle proofs (the log records the start/stop steps cited): the stream's running state after two logs is that after the second, starting from the first's |
| Lifecycle.Prologue | barcode-scanner.js:104-111 | the opening steps show the modal first and enumerate last; a decoder is created in between exactly when none existed |
| Lifecycle.FallbackEffects | barcode-scanner.js:148-171 | one facing-mode attempt, followed by the style block exactly when it started and by hiding the modal otherwise |
| Lifecycle.AcquireEffects | barcode-scanner.js:110-172 | the acquisition opens with a start attempt, the exact one exactly when an id was chosen; it ends with the style block when a start succeeded and with the modal hidden otherwise; it has three effects exactly when the fallback followed a failed exact start |
| Lifecycle.ScanEffects | barcode-scanner.js:102-173 | for a given selection, a scan opens by showing the modal and ends with the style block on success and with the modal hidden otherwise |
| Lifecycle.StartScanEffects | barcode-scanner.js:102-173 | a scan opens by showing the modal and ends with the style block when the scan started and with the modal hidden otherwise |
| Lifecycle.StopEffects | barcode-scanner.js:175-187 | no effect exactly when there is no decoder; otherwise it opens with the stop request and continues only when that succeeded; it ends by hiding the modal exactly when the decoder stopped and `clear()` returned |
| Lifecycle.DecodeEffects | barcode-scanner.js:133-137 | the decode callback hands the text to the sink first, and no later effect of the callback is a sink call |
| Lifecycle.PrologueViews | barcode-scanner.js:104-111 | the opening steps show the modal, create a decoder only when none exists, and make no attempt, sink call or style injection |
| Lifecycle.FallbackViews | barcode-scanner.js:148-171 | the fallback makes one facing-mode attempt; it injects styles and keeps the modal exactly when the attempt starts, otherwise hides the modal |
| Lifecycle.AcquireAttempts | barcode-scanner.js:124-150 | the attempts are the exact device, followed by the fallback only when that failed; or only the fallback when no id was chosen |
| Lifecycle.AcquireViews | barcode-scanner.js:124-171 | after acquisition the modal stays shown and one style block is injected exactly when a start succeeded; no sink call, no decoder created |
| Lifecycle.AttemptOrder | barcode-scanner.js:110-172 | one or two attempts, all with the same configuration; an exact attempt comes first exactly when an id was chosen; the fallback comes second exactly when that attempt failed; only the last attempt can succeed, and it succeeds exactly when the scan starts |
| Lifecycle.EnumerationFailureFallsBack | barcode-scanner.js:111-150 | after a rejected enumeration or an empty device list, the only attempt is the facing-mode one |
| Lifecycle.ScanResults | barcode-scanner.js:102-173 | after a scan the modal is visible exactly when a start succeeded, the stream runs if it ran or started, one style block per success, no sink call, and a decoder is created only when none existed |
| Lifecycle.TotalFailureHidesModal | barcode-scanner.js:168-171 | when both starts fail, the last effect hides the modal, the modal ends hidden, and no styles are injected and no sink call made |
| Lifecycle.ModalShownBeforeAcquisition | barcode-scanner.js:104-111 | the first effect shows the modal, and the modal is visible at the enumeration and at every start attempt |
| Lifecycle.NoHideBefore | barcode-scanner.js:104-150 | nothing hides the modal before the enumeration or any start attempt |
| Lifecycle.ShownUntilHidden | barcode-scanner.js:24-53 | a log that opens by showing the modal and never hides it leaves the modal shown |
| Lifecycle.ExactFailureThenFallback | barcode-scanner.js:114-167 | front and back cameras, exact start fails, fallback succeeds: attempts are exactly ExactDevice("2") then FacingEnvironment, and the scan runs |
| Lifecycle.StopOutcomes | barcode-scanner.js:175-187 | no decoder: no effect; otherwise the decoder is asked to stop; on success the stream ends and the decoder is cleared, then the modal is hidden if `clear()` returned and left as it was if it threw; on a failed stop the modal and stream are unchanged; never an attempt, sink call or style block |
| Lifecycle.DecodeDeliversText | barcode-scanner.js:133-137 | a decode calls the sink once with exactly the decoded text, first, then does what `stop()` does |
| Lifecycle.StartScanPreserves | barcode-scanner.js:102-173 | a scan keeps the fields consistent with the log and leaves exactly one decoder |
| Lifecycle.StopPreserves | barcode-scanner.js:175-187 | `stop()` keeps the fields consistent with the log, whatever the stop and clear outcomes |
| Lifecycle.SinkPreserves | barcode-scanner.js:133-135 | a sink call keeps the fields consistent and records exactly the given text |
| Scanner.BarcodeScanner.constructor | barcode-scanner.js:3-14 | no decoder (`qrcodeScanner = null`) and an empty log; the modal is taken to start hidden (see Left out) |
| Scanner.BarcodeScanner.ShowModal | barcode-scanner.js:24-47 | the modal becomes visible; nothing else changes |
| Scanner.BarcodeScanner.HideModal | barcode-scanner.js:49-53 | the modal becomes hidden; nothing else changes |
| Scanner.BarcodeScanner.InjectScannerStyles | barcode-scanner.js:55-99 | one style block is recorded; nothing else changes |
| Scanner.BarcodeScanner.StartDecoder | barcode-scanner.js:124-141 | one start attempt with the device-class configuration is recorded; the stream runs if it started |
| Scanner.BarcodeScanner.Open | barcode-scanner.js:104-111 | shows the modal, creates the decoder only if absent, enumerates |
| Scanner.BarcodeScanner.Acquire | barcode-scanner.js:110-172 | appends exactly the acquisition effects; the modal stays as it was exactly when a start succeeded and is hidden otherwise; the stream runs if it ran or a start succeeded |
| Scanner.BarcodeScanner.StartScan | barcode-scanner.js:102-173 | keeps `Valid()`, appends exactly the scan's effects, leaves a decoder, and leaves the modal visible exactly when the scan started |
| Scanner.BarcodeScanner.Stop | barcode-scanner.js:175-187 | keeps `Valid()`, appends exactly the stop's effects; the stream ends exactly when a decoder existed and stopped, and the modal is hidden exactly when in addition `clear()` returned |
| Scanner.BarcodeScanner.OnDecoded | barcode-scanner.js:133-137 | fires only while the stream runs; keeps `Valid()`, appends the text to the sink calls, then behaves as `Stop` |
| Scanner.BarcodeScanner.OnFrameError | barcode-scanner.js:138-140 | fires only while the stream runs; a frame error changes no state |
| Scanner.ScanTwice | barcode-scanner.js:106-108 | scan, stop, scan again, whatever the outcomes: exactly one decoder is created, and the modal is visible exactly when the second scan started |
| Scanner.TotalFailureDeliversNothing | barcode-scanner.js:102-173 | a fresh scanner whose scan fails on every path ends with the modal hidden, no running stream (so no decode callback can fire) and no sink call |
| Scanner.ExactFailsFallbackDecodes | barcode-scanner.js:114-171 | front and back cameras, exact start fails, fallback succeeds, "0123456789" decodes: the sink got exactly that text once, the two attempts are recorded in order, and the modal ends hidden |

## Left out

- The DOM is not modelled: `getElementById`, `querySelector`, button binding, the stop button, `targetInput.value` and `alert`. The modal element is assumed present, so the `if (this.modal)` guards are not modelled.
- The CSS text of `injectScannerStyles` and the inline styles `showModal` sets on mobile are presentation only. Style injections are counted.
- `isAndroid` and `isFlutterWebView` sniff the user agent. They are replaced by the input flag `mobileOrWebView`.
- The `Html5Qrcode` library (`getCameras`, `start`, `stop`, `clear`) is foreign code. Whether each call succeeds is an oracle input; what it does inside is not modelled.
- The modal's initial display is set by the page markup, not by the constructor (`barcode-scanner.js:3-14` never sets it). The model takes it to start hidden: the constructor sets `modalVisible` to false and `Valid()` folds the log from a hidden modal.
- Async interleavings are not modelled: several decode callbacks before `stop` resolves, a stop racing a pending start, overlapping scans. Each operation runs to completion in the model.
- Console logging, and the error values that are only logged, are not modelled.
- `bindScannerButtons`, `bindStopButton` and the global instance at the end of the file are not modelled. They are event wiring only.
- Camera.Lower: lower-cases ASCII letters only; `toLowerCase` also maps non-ASCII letters, and Unicode case mapping is not modelled.
- ScanConfig.ConfigFor: the viewport-wide box's width (`window.innerWidth * 0.8`) is floating-point viewport arithmetic and is left out; only its height is kept.
