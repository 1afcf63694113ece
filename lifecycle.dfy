/**
 * What one call of `startScan`, `stop` or the decode callback does, as the
 * list of effects it produces, given the outcomes the decoding library
 * reports. The properties of the scanner's lifecycle are lemmas about these
 * lists.
 */
module Lifecycle {
  import opened Wrappers
  import opened Camera
  import opened ScanConfig
  import opened Effects

  /** What the library reports during one `startScan`. */
  datatype Outcomes = Outcomes(
    cameras: Option<seq<Device>>,  // `getCameras()`: the device list, or None when it rejected
    exactStarts: bool,             // whether the exact-device `start` resolves
    fallbackStarts: bool)          // whether the facing-mode `start` resolves

  /**
   * The start of `startScan`: show the modal, create the decoder if there is
   * none, enumerate the cameras. The modal is shown first, the enumeration
   * comes last, and a decoder is created only when none exists.
   */
  function Prologue(hadDecoder: bool): (r: seq<Effect>)
    ensures |r| == (if hadDecoder then 2 else 3) && r[0] == ShowModal && r[|r| - 1] == GetCameras
    ensures !hadDecoder ==> r[1] == NewDecoder
  {
    [ShowModal] + (if hadDecoder then [] else [NewDecoder]) + [GetCameras]
  }

  /**
   * The facing-mode fallback: one attempt, then styles on success or the
   * modal hidden on failure, never both.
   */
  function FallbackEffects(config: Config, started: bool): (r: seq<Effect>)
    ensures |r| == 2 && r[0] == Start(Attempt(FacingEnvironment, config, started))
    ensures r[1] == InjectStyles || r[1] == HideModal
    ensures r[1] == InjectStyles <==> started
  {
    [Start(Attempt(FacingEnvironment, config, started))] + (if started then [InjectStyles] else [HideModal])
  }

  /** Whether the acquisition ends with a running camera stream. */
  predicate AcquireStarts(selection: Result<string, SelectError>, exactStarts: bool, fallbackStarts: bool) {
    if selection.Ok? && exactStarts then true else fallbackStarts
  }

  /**
   * The `try`/`catch` around the start attempts, once the camera selection
   * is known: the exact device when an id was chosen, the fallback when
   * there was none or the exact start failed. It opens with a start attempt,
   * the exact one exactly when an id was chosen; it ends with the style
   * block when a start succeeded and with the modal hidden otherwise; and
   * the fallback adds its effects only after a failed exact start.
   */
  function AcquireEffects(config: Config, selection: Result<string, SelectError>,
                          exactStarts: bool, fallbackStarts: bool): (r: seq<Effect>)
    ensures r != [] && r[0].Start? && (r[0].attempt.strategy.ExactDevice? <==> selection.Ok?)
    ensures r[|r| - 1] == if AcquireStarts(selection, exactStarts, fallbackStarts) then InjectStyles else HideModal
    ensures |r| == if selection.Ok? && !exactStarts then 3 else 2
  {
    match selection
    case Ok(id) =>
      [Start(Attempt(ExactDevice(id), config, exactStarts))] +
      (if exactStarts then [InjectStyles] else FallbackEffects(config, fallbackStarts))
    case Err(_) => FallbackEffects(config, fallbackStarts)
  }

  /**
   * Everything one `startScan` does, for a given camera selection: it
   * opens by showing the modal and closes with the style block when a start
   * succeeded and with the modal hidden otherwise.
   */
  function ScanEffects(config: Config, hadDecoder: bool, selection: Result<string, SelectError>,
                       exactStarts: bool, fallbackStarts: bool): (r: seq<Effect>)
    ensures r != [] && r[0] == ShowModal
    ensures r[|r| - 1] == if AcquireStarts(selection, exactStarts, fallbackStarts) then InjectStyles else HideModal
  {
    Prologue(hadDecoder) + AcquireEffects(config, selection, exactStarts, fallbackStarts)
  }

  /** Whether the scan ends with a running camera stream. */
  predicate ScanStarts(o: Outcomes) {
    AcquireStarts(CameraId(o.cameras), o.exactStarts, o.fallbackStarts)
  }

  /**
   * Everything one `startScan` does, in order; `hadDecoder` tells whether a
   * decoder already exists. It opens by showing the modal and closes with
   * the style block or, when no start succeeded, with the modal hidden.
   */
  function StartScanEffects(mobileOrWebView: bool, hadDecoder: bool, o: Outcomes): (r: seq<Effect>)
    ensures r != [] && r[0] == ShowModal
    ensures r[|r| - 1] == if ScanStarts(o) then InjectStyles else HideModal
  {
    ScanEffects(ConfigFor(mobileOrWebView), hadDecoder, CameraId(o.cameras), o.exactStarts, o.fallbackStarts)
  }

  /**
   * `stop()`: nothing without a decoder; otherwise stop, and on success
   * clear and, when `clear()` returns, hide. The modal is hidden exactly when
   * a decoder existed, stopped and was cleared.
   */
  function StopEffects(hasDecoder: bool, stopped: bool, cleared: bool): (r: seq<Effect>)
    ensures r == [] <==> !hasDecoder
    ensures r != [] ==> r[0] == StopDecoder(stopped) && (|r| > 1 <==> stopped)
    ensures (r != [] && r[|r| - 1] == HideModal) <==> hasDecoder && stopped && cleared
  {
    if !hasDecoder then []
    else
      [StopDecoder(stopped)] +
      (if stopped then [ClearDecoder(cleared)] + (if cleared then [HideModal] else []) else [])
  }

  /**
   * The decode callback: hand the text to the sink, then `stop()`. The text
   * is handed over first and no later effect of the callback is a sink call.
   */
  function DecodeEffects(text: string, hasDecoder: bool, stopped: bool, cleared: bool): (r: seq<Effect>)
    ensures r != [] && r[0] == Sink(text)
    ensures forall i :: 1 <= i < |r| ==> !r[i].Sink?
  {
    [Sink(text)] + StopEffects(hasDecoder, stopped, cleared)
  }

  /** The prologue of `startScan` shows the modal, makes no attempt and no sink call, and creates at most the one decoder. */
  lemma {:induction false} PrologueViews(hadDecoder: bool)
    ensures var pre := Prologue(hadDecoder);
      && Attempts(pre) == [] && SinkCalls(pre) == [] && StylesInjected(pre) == 0
      && DecodersCreated(pre) == (if hadDecoder then 0 else 1)
      && (forall v :: VisibleAfter(v, pre))
      && (forall r :: RunningAfter(r, pre) == r)
  {
    var pre := Prologue(hadDecoder);
    ViewsCons(GetCameras, []);
    if hadDecoder {
      ViewsCons(ShowModal, [GetCameras]);
      assert pre == [ShowModal] + [GetCameras];
    } else {
      ViewsCons(NewDecoder, [GetCameras]);
      ViewsCons(ShowModal, [NewDecoder, GetCameras]);
      assert pre == [ShowModal] + [NewDecoder, GetCameras];
    }
  }

  /** The facing-mode fallback, viewed: one attempt, and styles or a hidden modal depending on its outcome. */
  lemma {:induction false} FallbackViews(config: Config, started: bool)
    ensures var fb := FallbackEffects(config, started);
      && Attempts(fb) == [Attempt(FacingEnvironment, config, started)]
      && (forall v :: VisibleAfter(v, fb) == (v && started))
      && (forall r :: RunningAfter(r, fb) == (r || started))
      && StylesInjected(fb) == (if started then 1 else 0)
      && SinkCalls(fb) == []
      && DecodersCreated(fb) == 0
  {
    var fb := FallbackEffects(config, started);
    var last := if started then InjectStyles else HideModal;
    ViewsCons(last, []);
    ViewsCons(fb[0], [last]);
    assert fb == [fb[0]] + [last];
  }

  /** The start attempts of the acquisition, written out for each selection and outcome. */
  lemma {:induction false} AcquireAttempts(config: Config, selection: Result<string, SelectError>,
                                           exactStarts: bool, fallbackStarts: bool)
    ensures Attempts(AcquireEffects(config, selection, exactStarts, fallbackStarts)) ==
      if selection.Ok? then
        [Attempt(ExactDevice(selection.value), config, exactStarts)] +
        (if exactStarts then [] else [Attempt(FacingEnvironment, config, fallbackStarts)])
      else [Attempt(FacingEnvironment, config, fallbackStarts)]
  {
    FallbackViews(config, fallbackStarts);
    match selection
    case Ok(id) =>
      ViewsCons(InjectStyles, []);
      ViewsCons(Start(Attempt(ExactDevice(id), config, exactStarts)),
                if exactStarts then [InjectStyles] else FallbackEffects(config, fallbackStarts));
    case Err(_) =>
  }

  /**
   * The acquisition, viewed: the modal stays as it was and one style block is
   * injected exactly when a start succeeds, otherwise the modal is hidden;
   * nothing reaches the sink and no decoder is created.
   */
  lemma {:induction false} AcquireViews(config: Config, selection: Result<string, SelectError>,
                                        exactStarts: bool, fallbackStarts: bool, v: bool, r: bool)
    ensures var acq := AcquireEffects(config, selection, exactStarts, fallbackStarts);
      var started := AcquireStarts(selection, exactStarts, fallbackStarts);
      && VisibleAfter(v, acq) == (v && started)
      && RunningAfter(r, acq) == (r || started)
      && StylesInjected(acq) == (if started then 1 else 0)
      && SinkCalls(acq) == []
      && DecodersCreated(acq) == 0
  {
    FallbackViews(config, fallbackStarts);
    match selection
    case Ok(id) =>
      var first := Start(Attempt(ExactDevice(id), config, exactStarts));
      ViewsCons(InjectStyles, []);
      ViewsCons(first, if exactStarts then [InjectStyles] else FallbackEffects(config, fallbackStarts));
    case Err(_) =>
  }

  /**
   * Start attempts happen strictly in order: the exact device first when a
   * camera id was chosen, the facing-mode fallback only after the first path
   * failed, never more than two, none after a success, and all with the same
   * configuration.
   */
  lemma {:induction false} AttemptOrder(config: Config, hadDecoder: bool, selection: Result<string, SelectError>,
                                        exactStarts: bool, fallbackStarts: bool)
    ensures var a := Attempts(ScanEffects(config, hadDecoder, selection, exactStarts, fallbackStarts));
      && 1 <= |a| <= 2
      && (forall i :: 0 <= i < |a| ==> a[i].config == config)
      && (forall i :: 0 <= i < |a| - 1 ==> !a[i].started)
      && (a[|a| - 1].started <==> AcquireStarts(selection, exactStarts, fallbackStarts))
      && (a[0].strategy.ExactDevice? <==> selection.Ok?)
      && (selection.Ok? ==> a[0] == Attempt(ExactDevice(selection.value), config, exactStarts))
      && (forall i :: 0 < i < |a| ==> a[i].strategy == FacingEnvironment)
      && (|a| == 2 <==> selection.Ok? && !exactStarts)
  {
    var acq := AcquireEffects(config, selection, exactStarts, fallbackStarts);
    PrologueViews(hadDecoder);
    AcquireAttempts(config, selection, exactStarts, fallbackStarts);
    AttemptsAppend(Prologue(hadDecoder), acq);
  }

  /**
   * A rejected enumeration or an empty device list never aborts the scan:
   * the facing-mode attempt is made, and it is the only one.
   */
  lemma {:induction false} EnumerationFailureFallsBack(mobileOrWebView: bool, hadDecoder: bool, o: Outcomes)
    requires o.cameras.None? || o.cameras == Some([])
    ensures Attempts(StartScanEffects(mobileOrWebView, hadDecoder, o))
         == [Attempt(FacingEnvironment, ConfigFor(mobileOrWebView), o.fallbackStarts)]
  {
    var selection := CameraId(o.cameras);
    assert selection.Err?;
    PrologueViews(hadDecoder);
    AcquireAttempts(ConfigFor(mobileOrWebView), selection, o.exactStarts, o.fallbackStarts);
    AttemptsAppend(Prologue(hadDecoder), AcquireEffects(ConfigFor(mobileOrWebView), selection, o.exactStarts, o.fallbackStarts));
  }

  /**
   * The results of one `startScan`: the modal stays shown exactly when a
   * start succeeded, one style block per successful start, nothing reaches
   * the sink, and a decoder is created only when none existed.
   */
  lemma {:induction false} ScanResults(config: Config, hadDecoder: bool, selection: Result<string, SelectError>,
                                       exactStarts: bool, fallbackStarts: bool, v: bool, r: bool)
    ensures var e := ScanEffects(config, hadDecoder, selection, exactStarts, fallbackStarts);
      var started := AcquireStarts(selection, exactStarts, fallbackStarts);
      && VisibleAfter(v, e) == started
      && RunningAfter(r, e) == (r || started)
      && StylesInjected(e) == (if started then 1 else 0)
      && SinkCalls(e) == []
      && DecodersCreated(e) == (if hadDecoder then 0 else 1)
  {
    var pre := Prologue(hadDecoder);
    var acq := AcquireEffects(config, selection, exactStarts, fallbackStarts);
    PrologueViews(hadDecoder);
    AcquireViews(config, selection, exactStarts, fallbackStarts, true, r);
    ViewsAppend(pre, acq);
    VisibleAppend(v, pre, acq);
    RunningAppend(r, pre, acq);
  }

  /**
   * When both starts fail the modal ends hidden (the last effect hides it),
   * no style block is injected, nothing reaches the sink and the decoder's
   * running state is unchanged.
   */
  lemma {:induction false} TotalFailureHidesModal(config: Config, hadDecoder: bool, selection: Result<string, SelectError>,
                                                  exactStarts: bool, fallbackStarts: bool, v: bool, r: bool)
    requires !AcquireStarts(selection, exactStarts, fallbackStarts)
    ensures var e := ScanEffects(config, hadDecoder, selection, exactStarts, fallbackStarts);
      && !VisibleAfter(v, e)
      && e[|e| - 1] == HideModal
      && StylesInjected(e) == 0
      && SinkCalls(e) == []
      && RunningAfter(r, e) == r
  {
    ScanResults(config, hadDecoder, selection, exactStarts, fallbackStarts, v, r);
  }

  /**
   * The modal is shown first, before the enumeration and before every start
   * attempt: at each of those effects the modal is already visible.
   */
  lemma {:induction false} ModalShownBeforeAcquisition(config: Config, hadDecoder: bool, selection: Result<string, SelectError>,
                                                       exactStarts: bool, fallbackStarts: bool, v: bool)
    ensures var e := ScanEffects(config, hadDecoder, selection, exactStarts, fallbackStarts);
      && e[0] == ShowModal
      && forall i :: 0 <= i < |e| && (e[i] == GetCameras || e[i].Start?) ==> VisibleAfter(v, e[..i])
  {
    var e := ScanEffects(config, hadDecoder, selection, exactStarts, fallbackStarts);
    forall i | 0 <= i < |e| && (e[i] == GetCameras || e[i].Start?)
      ensures VisibleAfter(v, e[..i])
    {
      NoHideBefore(config, hadDecoder, selection, exactStarts, fallbackStarts, i);
      ShownUntilHidden(v, e[..i]);
    }
  }

  /** In a `startScan`, the modal is shown first and nothing before an enumeration or a start attempt hides it. */
  lemma {:induction false} NoHideBefore(config: Config, hadDecoder: bool, selection: Result<string, SelectError>,
                                        exactStarts: bool, fallbackStarts: bool, i: int)
    requires var e := ScanEffects(config, hadDecoder, selection, exactStarts, fallbackStarts);
      0 <= i < |e| && (e[i] == GetCameras || e[i].Start?)
    ensures var e := ScanEffects(config, hadDecoder, selection, exactStarts, fallbackStarts);
      e[0] == ShowModal && i > 0 && forall j :: 0 <= j < i ==> e[j] != HideModal
  {
  }

  /** A log that opens by showing the modal and never hides it leaves the modal shown. */
  lemma {:induction false} ShownUntilHidden(v: bool, t: seq<Effect>)
    requires t != [] && t[0] == ShowModal
    requires forall j :: 0 <= j < |t| ==> t[j] != HideModal
    ensures VisibleAfter(v, t)
    decreases |t|
  {
    if |t| > 1 {
      var u := [ShowModal] + t[2..];
      assert VisibleAfter(v, t) == VisibleAfter(true, t[1..]);
      assert VisibleAfter(v, u) == VisibleAfter(true, u[1..]);
      if t[1] == ShowModal {
        assert t[1..] == u;
      } else {
        assert t[1..][1..] == u[1..];
      }
      ShownUntilHidden(v, u);
    }
  }

  /**
   * Front camera then back camera, the exact start on the back camera fails
   * and the facing-mode start succeeds: exactly those two attempts, in that
   * order, and the scan is running.
   */
  lemma {:induction false} ExactFailureThenFallback(front: string, back: string)
    requires front == "Front Camera" && back == "Back Camera"
    ensures var o := Outcomes(Some([Device("1", front), Device("2", back)]), false, true);
      && StartScanEffects(false, false, o) == ScanEffects(ConfigFor(false), false, Ok("2"), false, true)
      && Attempts(StartScanEffects(false, false, o))
         == [Attempt(ExactDevice("2"), ConfigFor(false), false), Attempt(FacingEnvironment, ConfigFor(false), true)]
      && ScanStarts(o)
  {
    var o := Outcomes(Some([Device("1", front), Device("2", back)]), false, true);
    PrefersBackCamera(front, back);
    AttemptOrder(ConfigFor(false), false, Ok("2"), false, true);
  }

  /**
   * The outcomes of `stop()`: without a decoder nothing happens. Otherwise
   * the decoder is asked to stop. When it fails to stop only that is
   * recorded, and the modal and the stream stay as they were. When it stops
   * the stream ends and the decoder is cleared; the modal is hidden after the
   * clear exactly when `clear()` returned, and stays as it was when it threw.
   */
  lemma {:induction false} StopOutcomes(hasDecoder: bool, stopped: bool, cleared: bool, v: bool, r: bool)
    ensures var e := StopEffects(hasDecoder, stopped, cleared);
      && (!hasDecoder ==> e == [])
      && (hasDecoder ==> e[0] == StopDecoder(stopped))
      && (hasDecoder && stopped ==> !RunningAfter(r, e) && e[1] == ClearDecoder(cleared))
      && (hasDecoder && stopped && cleared ==> !VisibleAfter(v, e) && e[2] == HideModal)
      && (hasDecoder && stopped && !cleared ==> VisibleAfter(v, e) == v)
      && (hasDecoder && !stopped ==> VisibleAfter(v, e) == v && RunningAfter(r, e) == r)
      && Attempts(e) == [] && SinkCalls(e) == [] && StylesInjected(e) == 0 && DecodersCreated(e) == 0
  {
    if hasDecoder {
      var tail := if cleared then [HideModal] else [];
      ViewsCons(HideModal, []);
      ViewsCons(ClearDecoder(cleared), tail);
      ViewsCons(StopDecoder(stopped), if stopped then [ClearDecoder(cleared)] + tail else []);
    }
  }

  /**
   * A decoded frame hands exactly its text to the sink, once, before the
   * stop, and then behaves as `stop()`; no start attempt or style block
   * follows.
   */
  lemma {:induction false} DecodeDeliversText(text: string, hasDecoder: bool, stopped: bool, cleared: bool, v: bool, r: bool)
    ensures var e := DecodeEffects(text, hasDecoder, stopped, cleared);
      && SinkCalls(e) == [text]
      && e[1..] == StopEffects(hasDecoder, stopped, cleared)
      && VisibleAfter(v, e) == VisibleAfter(v, StopEffects(hasDecoder, stopped, cleared))
      && RunningAfter(r, e) == RunningAfter(r, StopEffects(hasDecoder, stopped, cleared))
      && Attempts(e) == [] && StylesInjected(e) == 0 && DecodersCreated(e) == 0
  {
    var s := StopEffects(hasDecoder, stopped, cleared);
    StopOutcomes(hasDecoder, stopped, cleared, v, r);
    ViewsAppend([Sink(text)], s);
    VisibleAppend(v, [Sink(text)], s);
    RunningAppend(r, [Sink(text)], s);
  }

  /**
   * The scanner's fields agree with its effect log: the modal and the stream
   * are as the log left them, and a decoder exists exactly when the log
   * created one, never more than one.
   */
  ghost predicate Consistent(visible: bool, running: bool, hasDecoder: bool, t: seq<Effect>) {
    && visible == VisibleAfter(false, t)
    && running == RunningAfter(false, t)
    && DecodersCreated(t) == (if hasDecoder then 1 else 0)
    && (running ==> hasDecoder)
  }

  /** `startScan` keeps the fields consistent with the log; afterwards a decoder exists. */
  lemma {:induction false} StartScanPreserves(config: Config, selection: Result<string, SelectError>,
                                              exactStarts: bool, fallbackStarts: bool,
                                              visible: bool, running: bool, hasDecoder: bool, t: seq<Effect>)
    requires Consistent(visible, running, hasDecoder, t)
    ensures var started := AcquireStarts(selection, exactStarts, fallbackStarts);
      Consistent(started, running || started, true,
                 t + ScanEffects(config, hasDecoder, selection, exactStarts, fallbackStarts))
  {
    var e := ScanEffects(config, hasDecoder, selection, exactStarts, fallbackStarts);
    ScanResults(config, hasDecoder, selection, exactStarts, fallbackStarts, visible, running);
    ViewsAppend(t, e);
    VisibleAppend(false, t, e);
    RunningAppend(false, t, e);
  }

  /** `stop()` keeps the fields consistent with the log. */
  lemma {:induction false} StopPreserves(stopped: bool, cleared: bool, visible: bool, running: bool, hasDecoder: bool, t: seq<Effect>)
    requires Consistent(visible, running, hasDecoder, t)
    ensures Consistent(visible && !(hasDecoder && stopped && cleared), running && !(hasDecoder && stopped), hasDecoder,
                       t + StopEffects(hasDecoder, stopped, cleared))
  {
    var e := StopEffects(hasDecoder, stopped, cleared);
    StopOutcomes(hasDecoder, stopped, cleared, visible, running);
    ViewsAppend(t, e);
    VisibleAppend(false, t, e);
    RunningAppend(false, t, e);
  }

  /** Handing a text to the sink keeps the fields consistent with the log and records exactly that text. */
  lemma {:induction false} SinkPreserves(text: string, visible: bool, running: bool, hasDecoder: bool, t: seq<Effect>)
    requires Consistent(visible, running, hasDecoder, t)
    ensures Consistent(visible, running, hasDecoder, t + [Sink(text)])
    ensures SinkCalls(t + [Sink(text)]) == SinkCalls(t) + [text]
  {
    ViewsCons(Sink(text), []);
    ViewsAppend(t, [Sink(text)]);
    VisibleAppend(false, t, [Sink(text)]);
    RunningAppend(false, t, [Sink(text)]);
  }
}
