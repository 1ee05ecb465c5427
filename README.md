# Barcode scan screen: a verified model

This project models the scanner screen of a small retail-inventory mobile
app (`ScanScreen` in `app/scan.tsx`). The screen keeps two pieces of local
state: whether scanning is enabled, and the last scanned value (`null` until
something is scanned). A decode event from the camera is accepted only while
scanning is enabled. Accepting it disables scanning, stores the trimmed
payload and raises an alert. The alert's "Scan Again" button and the
on-screen "Scan Again" button turn scanning back on. What the screen shows
depends on the camera permission and on that state.

Files:

- `js_string.dfy` (module `JsString`): JavaScript's `String.prototype.trim`.
  It has a declarative meaning (`IsTrimOf`: strip white space from both ends
  and nothing else), and that meaning is proved to have exactly one answer.
- `scan_screen.dfy` (module `ScanScreen`):
  - the session as a value (`Session`) and `handleScan` / `resetScanner` /
    the alert buttons as functions over it (`Scan`, `Reset`, `Press`);
  - runs of events (`Run`, `Accepted`) and the debounce lemmas;
  - the pure render selection (`View`) and the permission effect's
    condition (`ShouldRequestPermission`);
  - the class `ScanSession`, which holds the two state cells as fields
    updated in place. Each of its methods is proved against the functions
    above.

Camera permission is an input (`Permission`: unknown, or known and granted
or not). The barcode payload is an input too (`Option<string>`, where `None`
stands for an absent `result.data`).

## Model

| member | source | states |
|---|---|---|
| `JsString.Trim` | app/scan.tsx:40 | the result is the input with edge white space removed (`IsTrimOf`) and neither starts nor ends with white space |
| `JsString.TrimOfUnique` | app/scan.tsx:40 | at most one string is the trim of a given string, so `IsTrimOf` fully specifies `trim` |
| `JsString.TrimEmptyIff` | app/scan.tsx:40 | the trim is empty exactly when the payload is all white space |
| `JsString.TrimIdempotent` | app/scan.tsx:40 | trimming a trimmed value changes nothing |
| `JsString.TrimOfTrimmed` | app/scan.tsx:40 | a value with no edge white space is kept as it is |
| `ScanScreen.Normalize` | app/scan.tsx:40 | an absent payload becomes `""`; a present one becomes its trim; the stored value never has edge white space |
| `ScanScreen.AlertMessage` | app/scan.tsx:43 | the alert message is never empty: it is the value when the value is non-empty and exactly "(Empty value)" otherwise |
| `ScanScreen.ScanAlert` | app/scan.tsx:43-46 | the alert is titled "Barcode Scanned", carries the alert message for the value, and has exactly two buttons, labelled "Scan Again" and "OK" in that order |
| `ScanScreen.Scan` | app/scan.tsx:34-49 | afterwards scanning is always disabled; an alert is raised iff scanning was enabled; when disabled nothing changes; when enabled the last value becomes `Some(normalized payload)` and the alert is `ScanAlert` of that value |
| `ScanScreen.Reset` | app/scan.tsx:20-22 | scanning becomes enabled and the last value is kept |
| `ScanScreen.Press` | app/scan.tsx:43-46 | "OK" leaves the session unchanged; "Scan Again" is a reset |
| `ScanScreen.DisabledIgnoresAll` | app/scan.tsx:36 | from a disabled session, any event sequence without a reset leaves the session unchanged and accepts no scan |
| `ScanScreen.FirstScanSticks` | app/scan.tsx:34-49 | from an enabled session and without a reset, the final session is what the first decode event produced (or the start if there is none), and exactly that one scan is accepted |
| `ScanScreen.AtMostOneAcceptedBetweenResets` | app/scan.tsx:36-41 | from any session, at most one decode event is accepted in a sequence without a reset |
| `ScanScreen.InitialScansKeepFirst` | app/scan.tsx:12-13 | from a fresh screen, a reset-free run that starts with a scan ends disabled, holding the first scan's normalized value |
| `ScanScreen.LastSetIffAccepted` | app/scan.tsx:38-41 | the last value is never cleared back to `null`; it is set after a run iff it was set before or some scan was accepted |
| `ScanScreen.View` | app/scan.tsx:51-101 | unknown permission gives the loading view whatever the session; known but not granted gives the prompt; the camera only when granted; in the camera the callback is attached iff scanning is enabled, "Scan Again" is shown iff it is disabled, and "Last: v" is shown iff the last value is non-null and non-empty, with `v` that value |
| `ScanScreen.ShouldRequestPermission` | app/scan.tsx:24-32 | the permission effect's condition is that the permission is known and not granted |
| `ScanScreen.RequestIffPrompt` | app/scan.tsx:24-32 | the effect's condition holds on exactly the renders that show the permission prompt |
| `ScanScreen.CameraOverlayText` | app/scan.tsx:88-92 | in the camera view the overlay text is "Last: " followed by the last value when that value is non-null and non-empty, and "Align the barcode inside the box" otherwise |
| `ScanScreen.EmptyScanLooksUnscanned` | app/scan.tsx:88-92 | an accepted empty scan (`""`) renders the same as no scan (`null`) |
| `ScanScreen.DetachedCallbackMeansIgnored` | app/scan.tsx:36 | when the camera has no callback attached, the guard in `handleScan` would ignore a scan anyway |
| `ScanScreen.ScanShowsScanAgain` | app/scan.tsx:94-98 | after an accepted scan the camera shows "Scan Again" and no callback |
| `ScanScreen.ScanOfBarcodeNumber` | app/scan.tsx:43 | from a fresh screen the payload "012345678905" raises the scan alert for that value, whose message is exactly "012345678905" |
| `ScanScreen.ScanOfBlankPayload` | app/scan.tsx:40-43 | an absent, empty or all-white-space payload is accepted, storing `""` and showing "(Empty value)" |
| `ScanScreen.ScanSession.constructor` | app/scan.tsx:12-13 | a new screen has scanning enabled and no last value |
| `ScanScreen.ScanSession.HandleScan` | app/scan.tsx:34-49 | updates the fields in place, with the new state and the alert equal to `Scan` of the old state |
| `ScanScreen.ScanSession.ResetScanner` | app/scan.tsx:20-22 | only the enabled field may change; the new state is `Reset` of the old one |
| `ScanScreen.ScanSession.OnAlertButton` | app/scan.tsx:44-45 | the new state is `Press` of the old one ("Scan Again" calls `ResetScanner`, "OK" does nothing) |
| `ScanScreen.ScanSession.Handle` | app/scan.tsx:34-98 | one event applied to the fields gives `Step` of the old state |

## Left out

- The landing screen (`app/index.tsx`): static text and a navigation link, with no state.
- Styles, camera facing and layout (app/scan.tsx:104-152): presentation only.
- The camera and barcode decoding, and the symbology list `upc_a`, `upc_e`, `ean13`, `ean8` (app/scan.tsx:15-18, 81). These are platform code and configuration; the decoded payload is an input.
- `requestPermission` itself, and the "Allow Camera" button that calls it: the request and how it resolves are platform code. The model gives only the effect's condition and the prompt view that carries the button.
- When the permission effect runs. React runs it only after renders where `permission` or `requestPermission` changed (its dependency list, app/scan.tsx:32). On other renders that show the prompt, for example one caused by a state change in the session, no request is made. The model states the condition, not this schedule.
- React's re-render timing and batched state updates. In the app, `handleScan` reads the `isScanEnabled` of the render that created it, so two decode callbacks in the same tick could both pass the guard. The model treats each `handleScan` call as one atomic step on the current state.
- `Alert.alert` presentation. Only the title, the message and the effect of each button are modelled; the "cancel" style of "OK" is not.
- The visible text strings other than the overlay line and the alert's title, message and button labels are not part of the model.
- JsString.Trim: works on Unicode code points. JavaScript strings are UTF-16, but every character `trim` strips is in the Basic Multilingual Plane, so the result is the same for every JavaScript string that has a Dafny `string` counterpart. A JavaScript string with an unpaired surrogate has none, and the model does not cover it. Barcode payloads (UPC/EAN digits) never contain one.
