/**
 * The barcode scanning screen: a scan session (is scanning enabled, what was
 * scanned last) that decode events and the "Scan Again" controls drive, and
 * the choice of what the screen shows for a camera permission status and a
 * session.
 */
module ScanScreen {
  import opened JsString

  datatype Option<T> = None | Some(value: T)

  /** The camera permission as the platform reports it: not yet known, or known and granted or not. */
  datatype Permission = Unknown | Known(granted: bool)

  /** The two choices the scan alert offers. */
  datatype AlertButton = ScanAgain | Ok

  /** The modal alert shown after an accepted scan. */
  datatype Alert = Alert(title: string, message: string, buttons: seq<AlertButton>)

  /** The screen's local state: `isScanEnabled` and `lastScannedValue`. */
  datatype Session = Session(enabled: bool, last: Option<string>)

  /** A fresh screen scans, and has scanned nothing yet. */
  const Initial: Session := Session(true, None)

  const AlertTitle: string := "Barcode Scanned"
  const EmptyValueText: string := "(Empty value)"

  /** The text each alert button is labelled with. */
  function ButtonLabel(b: AlertButton): string {
    match b
    case ScanAgain => "Scan Again"
    case Ok => "OK"
  }

  // ---------------------------------------------------------------------------
  // Handling a decode event

  /** `result.data?.trim() ?? ""`: an absent payload becomes the empty string. */
  function Normalize(data: Option<string>): (v: string)
    ensures data.None? ==> v == ""
    ensures data.Some? ==> IsTrimOf(data.value, v)
    ensures NoEdgeWhitespace(v)
  {
    match data
    case None => ""
    case Some(d) => Trim(d)
  }

  /** `value || "(Empty value)"`: the empty string is the only falsy string. */
  function AlertMessage(value: string): (m: string)
    ensures m != ""
    ensures value != "" ==> m == value
    ensures value == "" ==> m == EmptyValueText
  {
    if value != "" then value else EmptyValueText
  }

  /** The alert `handleScan` raises: its title, its message, and "Scan Again" then "OK". */
  function ScanAlert(value: string): (a: Alert)
    ensures a.title == "Barcode Scanned"
    ensures a.message == AlertMessage(value)
    ensures |a.buttons| == 2
    ensures ButtonLabel(a.buttons[0]) == "Scan Again" && ButtonLabel(a.buttons[1]) == "OK"
  {
    Alert(AlertTitle, AlertMessage(value), [ScanAgain, Ok])
  }

  /**
   * `handleScan`: the new session and the alert it raises, if any. A scan
   * arriving while scanning is disabled changes nothing and raises nothing.
   */
  function Scan(s: Session, data: Option<string>): (r: (Session, Option<Alert>))
    ensures !r.0.enabled
    ensures r.1.Some? <==> s.enabled
    ensures !s.enabled ==> r.0 == s
    ensures s.enabled ==> r.0.last == Some(Normalize(data))
    ensures s.enabled ==> r.1 == Some(ScanAlert(Normalize(data)))
  {
    if !s.enabled then (s, None)
    else
      var value := Normalize(data);
      (Session(false, Some(value)), Some(ScanAlert(value)))
  }

  /** `resetScanner`: scanning is enabled again, and the last value is kept. */
  function Reset(s: Session): (r: Session)
    ensures r.enabled
    ensures r.last == s.last
  {
    s.(enabled := true)
  }

  /** The effect of an alert button: "Scan Again" resets, "OK" only dismisses. */
  function Press(s: Session, b: AlertButton): (r: Session)
    ensures b == Ok ==> r == s
    ensures b == ScanAgain ==> r == Reset(s)
  {
    match b
    case ScanAgain => Reset(s)
    case Ok => s
  }

  // ---------------------------------------------------------------------------
  // Sequences of events

  /** What can happen to a session: a decode event, the on-screen button, an alert button. */
  datatype Event = Decode(data: Option<string>) | ScanAgainButton | AlertChoice(button: AlertButton)

  function Step(s: Session, e: Event): Session {
    match e
    case Decode(data) => Scan(s, data).0
    case ScanAgainButton => Reset(s)
    case AlertChoice(b) => Press(s, b)
  }

  function Run(s: Session, es: seq<Event>): Session
    decreases |es|
  {
    if es == [] then s else Run(Step(s, es[0]), es[1..])
  }

  /** How many decode events of `es` are accepted, starting from `s`. */
  function Accepted(s: Session, es: seq<Event>): nat
    decreases |es|
  {
    if es == [] then 0
    else (if es[0].Decode? && s.enabled then 1 else 0) + Accepted(Step(s, es[0]), es[1..])
  }

  predicate IsReset(e: Event) {
    e == ScanAgainButton || e == AlertChoice(ScanAgain)
  }

  /** No event of `es` calls `resetScanner`. */
  predicate ResetFree(es: seq<Event>) {
    forall k :: 0 <= k < |es| ==> !IsReset(es[k])
  }

  /** The payload of the first decode event of `es`, if there is one. */
  function FirstDecode(es: seq<Event>): Option<Option<string>> {
    if es == [] then None
    else if es[0].Decode? then Some(es[0].data)
    else FirstDecode(es[1..])
  }

  /** While scanning is disabled, nothing but a reset changes the session. */
  lemma {:induction false} DisabledIgnoresAll(s: Session, es: seq<Event>)
    requires !s.enabled && ResetFree(es)
    ensures Run(s, es) == s
    ensures Accepted(s, es) == 0
    decreases |es|
  {
    if es != [] {
      assert !IsReset(es[0]);
      assert ResetFree(es[1..]) by {
        forall k | 0 <= k < |es| - 1 ensures !IsReset(es[1..][k]) {
          assert es[1..][k] == es[k + 1];
        }
      }
      DisabledIgnoresAll(s, es[1..]);
    }
  }

  /**
   * Between resets the first decode event decides the session: later ones are
   * ignored, whatever they carry.
   */
  lemma {:induction false} FirstScanSticks(s: Session, es: seq<Event>)
    requires s.enabled && ResetFree(es)
    ensures FirstDecode(es).None? ==> Run(s, es) == s
    ensures FirstDecode(es).Some? ==> Run(s, es) == Scan(s, FirstDecode(es).value).0
    ensures Accepted(s, es) == if FirstDecode(es).Some? then 1 else 0
    decreases |es|
  {
    if es != [] {
      assert !IsReset(es[0]);
      assert ResetFree(es[1..]) by {
        forall k | 0 <= k < |es| - 1 ensures !IsReset(es[1..][k]) {
          assert es[1..][k] == es[k + 1];
        }
      }
      if es[0].Decode? {
        DisabledIgnoresAll(Scan(s, es[0].data).0, es[1..]);
      } else {
        assert Step(s, es[0]) == s;
        FirstScanSticks(s, es[1..]);
      }
    }
  }

  /** At most one decode event is accepted between two resets, from any session. */
  lemma AtMostOneAcceptedBetweenResets(s: Session, es: seq<Event>)
    requires ResetFree(es)
    ensures Accepted(s, es) <= 1
  {
    if s.enabled {
      FirstScanSticks(s, es);
    } else {
      DisabledIgnoresAll(s, es);
    }
  }

  /**
   * From a fresh screen, any run of decode events without a reset leaves the
   * session exactly as the first one left it.
   */
  lemma InitialScansKeepFirst(es: seq<Event>)
    requires |es| > 0 && es[0].Decode? && ResetFree(es)
    ensures Run(Initial, es) == Session(false, Some(Normalize(es[0].data)))
  {
    FirstScanSticks(Initial, es);
  }

  /** The last value is never cleared, and it is set exactly when some scan was accepted. */
  lemma {:induction false} LastSetIffAccepted(s: Session, es: seq<Event>)
    ensures Run(s, es).last.Some? <==> s.last.Some? || Accepted(s, es) > 0
    decreases |es|
  {
    if es != [] {
      LastSetIffAccepted(Step(s, es[0]), es[1..]);
    }
  }

  // ---------------------------------------------------------------------------
  // What the screen shows

  /** The overlay line under the scan box. */
  datatype Overlay = LastValue(value: string) | Hint

  /**
   * The rendered screen: a loading placeholder, the permission prompt with its
   * "Allow Camera" control, or the camera with its overlay.
   */
  datatype Screen =
    | Loading
    | PermissionPrompt
    | Camera(callbackAttached: bool, overlay: Overlay, scanAgainShown: bool)

  function OverlayText(o: Overlay): string {
    match o
    case LastValue(v) => "Last: " + v
    case Hint => "Align the barcode inside the box"
  }

  /** JavaScript truthiness of a `string | null`: neither `null` nor `""`. */
  predicate Truthy(last: Option<string>) {
    last.Some? && last.value != ""
  }

  /** The screen for a permission status and a session. */
  function View(p: Permission, enabled: bool, last: Option<string>): (v: Screen)
    ensures p == Unknown <==> v == Loading
    ensures p == Known(false) <==> v == PermissionPrompt
    ensures v.Camera? <==> p == Known(true)
    ensures v.Camera? ==> (v.callbackAttached <==> enabled)
    ensures v.Camera? ==> (v.scanAgainShown <==> !enabled)
    ensures v.Camera? ==> (v.overlay.LastValue? <==> last.Some? && last.value != "")
    ensures v.Camera? && v.overlay.LastValue? ==> last == Some(v.overlay.value)
  {
    match p
    case Unknown => Loading
    case Known(granted) =>
      if !granted then PermissionPrompt
      else Camera(enabled, if Truthy(last) then LastValue(last.value) else Hint, !enabled)
  }

  /** The condition under which the permission effect asks the platform for camera access. */
  function ShouldRequestPermission(p: Permission): (b: bool)
    ensures b <==> p.Known? && !p.granted
  {
    match p
    case Unknown => false
    case Known(granted) => !granted
  }

  /** The permission effect's condition holds on exactly the renders that show the permission prompt. */
  lemma RequestIffPrompt(p: Permission, s: Session)
    ensures ShouldRequestPermission(p) <==> View(p, s.enabled, s.last) == PermissionPrompt
  {
  }

  /** In the camera view the overlay reads "Last: v" for a non-empty last value `v`, and the hint otherwise. */
  lemma CameraOverlayText(enabled: bool, last: Option<string>)
    ensures OverlayText(View(Known(true), enabled, last).overlay)
      == if last.Some? && last.value != "" then "Last: " + last.value else "Align the barcode inside the box"
  {
  }

  /** An accepted empty scan renders like no scan at all, though the sessions differ. */
  lemma EmptyScanLooksUnscanned(p: Permission, enabled: bool)
    ensures View(p, enabled, Some("")) == View(p, enabled, None)
  {
  }

  /**
   * Detaching the callback and the guard inside `handleScan` agree: when the
   * camera shows no callback, a scan that arrives anyway is ignored.
   */
  lemma DetachedCallbackMeansIgnored(s: Session, data: Option<string>)
    requires !View(Known(true), s.enabled, s.last).callbackAttached
    ensures Scan(s, data) == (s, None)
  {
  }

  /** After any accepted scan the camera shows the "Scan Again" button and no callback. */
  lemma ScanShowsScanAgain(s: Session, data: Option<string>)
    requires s.enabled
    ensures var v := View(Known(true), Scan(s, data).0.enabled, Scan(s, data).0.last);
      v.scanAgainShown && !v.callbackAttached
  {
  }

  /** A payload that is a plain barcode number is shown as it is. */
  lemma ScanOfBarcodeNumber()
    ensures Scan(Initial, Some("012345678905")).1 == Some(ScanAlert("012345678905"))
    ensures Scan(Initial, Some("012345678905")).1.value.message == "012345678905"
  {
    TrimOfTrimmed("012345678905");
  }

  /** An empty, blank or absent payload is accepted and shown as "(Empty value)". */
  lemma ScanOfBlankPayload(data: Option<string>)
    requires data.None? || AllWhitespace(data.value)
    ensures Scan(Initial, data).0 == Session(false, Some(""))
    ensures Scan(Initial, data).1.value.message == "(Empty value)"
  {
    if data.Some? {
      TrimEmptyIff(data.value);
    }
  }

  // ---------------------------------------------------------------------------
  // The screen's state cells

  /** The two `useState` cells of the screen, updated in place. */
  class ScanSession {
    var enabled: bool
    var last: Option<string>

    function State(): Session
      reads this
    {
      Session(enabled, last)
    }

    constructor ()
      ensures State() == Initial
    {
      enabled := true;
      last := None;
    }

    /** `handleScan(result)`, with `data` the payload `result.data`. */
    method HandleScan(data: Option<string>) returns (alert: Option<Alert>)
      modifies this
      ensures (State(), alert) == Scan(old(State()), data)
    {
      if !enabled {
        return None;
      }
      enabled := false;
      var value := Normalize(data);
      last := Some(value);
      alert := Some(ScanAlert(value));
    }

    /** `resetScanner()`, reached from the on-screen button and the alert's "Scan Again". */
    method ResetScanner()
      modifies this`enabled
      ensures State() == Reset(old(State()))
    {
      enabled := true;
    }

    /** The user picks a button of the scan alert. */
    method OnAlertButton(b: AlertButton)
      modifies this`enabled
      ensures State() == Press(old(State()), b)
    {
      if b == ScanAgain {
        ResetScanner();
      }
    }

    /** One event delivered to the screen. */
    method Handle(e: Event)
      modifies this
      ensures State() == Step(old(State()), e)
    {
      match e
      case Decode(data) =>
        var _ := HandleScan(data);
      case ScanAgainButton =>
        ResetScanner();
      case AlertChoice(b) =>
        OnAlertButton(b);
    }
  }
}
