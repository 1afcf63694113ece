/**
 * The `BarcodeScanner` object: one modal, one lazily created decoder, and
 * the `startScan` / `stop` / decode-callback steps that drive them. The
 * decoding library is an oracle: each call takes the outcomes the library
 * would report. `trace` records every observable effect in order; the
 * object invariant ties the fields to it.
 */
module Scanner {
  import opened Wrappers
  import opened Camera
  import opened ScanConfig
  import opened Effects
  import opened Lifecycle

  class BarcodeScanner {
    /** Whether the platform is Android or an embedded webview (the user-agent tests). */
    const mobileOrWebView: bool
    /** Whether the modal's display is "block". */
    var modalVisible: bool
    /** Whether `this.qrcodeScanner` is set; `stop()` never unsets it. */
    var decoderCreated: bool
    /** Whether the decoder is streaming from a camera. */
    var running: bool
    /** Every observable effect so far, oldest first. */
    var trace: seq<Effect>

    /**
     * The fields are what the log says: the modal and the stream are as the
     * last effects left them, and a decoder exists exactly when one (and only
     * one) was ever created.
     */
    ghost predicate Valid()
      reads this
    {
      Consistent(modalVisible, running, decoderCreated, trace)
    }

    /** The page loads with the modal hidden and no decoder. */
    constructor (mobileOrWebView: bool)
      ensures Valid()
      ensures this.mobileOrWebView == mobileOrWebView
      ensures !modalVisible && !decoderCreated && !running && trace == []
    {
      this.mobileOrWebView := mobileOrWebView;
      modalVisible := false;
      decoderCreated := false;
      running := false;
      trace := [];
    }

    method ShowModal()
      modifies this
      ensures modalVisible && trace == old(trace) + [Effect.ShowModal]
      ensures decoderCreated == old(decoderCreated) && running == old(running)
    {
      modalVisible := true;
      trace := trace + [Effect.ShowModal];
    }

    method HideModal()
      modifies this
      ensures !modalVisible && trace == old(trace) + [Effect.HideModal]
      ensures decoderCreated == old(decoderCreated) && running == old(running)
    {
      modalVisible := false;
      trace := trace + [Effect.HideModal];
    }

    method InjectScannerStyles()
      modifies this
      ensures trace == old(trace) + [InjectStyles]
      ensures modalVisible == old(modalVisible) && decoderCreated == old(decoderCreated) && running == old(running)
    {
      trace := trace + [InjectStyles];
    }

    /** One `await this.qrcodeScanner.start(strategy, config, ...)`; `outcome` is what the library reports. */
    method StartDecoder(strategy: Strategy, outcome: bool) returns (started: bool)
      modifies this
      ensures started == outcome
      ensures trace == old(trace) + [Start(Attempt(strategy, ConfigFor(mobileOrWebView), outcome))]
      ensures running == (old(running) || outcome)
      ensures modalVisible == old(modalVisible) && decoderCreated == old(decoderCreated)
    {
      trace := trace + [Start(Attempt(strategy, ConfigFor(mobileOrWebView), outcome))];
      running := running || outcome;
      started := outcome;
    }

    /** The two start attempts of `startScan`, once the camera selection is known. */
    method Acquire(selection: Result<string, SelectError>, exactStarts: bool, fallbackStarts: bool)
      modifies this
      ensures trace == old(trace) + AcquireEffects(ConfigFor(mobileOrWebView), selection, exactStarts, fallbackStarts)
      ensures decoderCreated == old(decoderCreated)
      ensures modalVisible == (old(modalVisible) && AcquireStarts(selection, exactStarts, fallbackStarts))
      ensures running == (old(running) || AcquireStarts(selection, exactStarts, fallbackStarts))
    {
      var exactStarted := false;
      match selection {
        case Ok(id) =>
          exactStarted := StartDecoder(ExactDevice(id), exactStarts);
          if exactStarted {
            InjectScannerStyles();
          }
        case Err(_) =>
      }
      if !exactStarted {
        var fallbackStarted := StartDecoder(FacingEnvironment, fallbackStarts);
        if fallbackStarted {
          InjectScannerStyles();
        } else {
          HideModal();
        }
      }
    }

    /** The first steps of `startScan`: show the modal, create the decoder if there is none, enumerate the cameras. */
    method Open()
      modifies this
      ensures trace == old(trace) + Prologue(old(decoderCreated))
      ensures modalVisible && decoderCreated && running == old(running)
    {
      ShowModal();
      if !decoderCreated {
        decoderCreated := true;
        trace := trace + [NewDecoder];
      }
      trace := trace + [GetCameras];
    }

    /**
     * `startScan`: show the modal, create the decoder if there is none, pick
     * a camera, try it, and on any failure try the facing-mode fallback once;
     * if that fails too, hide the modal.
     */
    method StartScan(o: Outcomes)
      requires Valid()
      modifies this
      ensures Valid()
      ensures trace == old(trace) + StartScanEffects(mobileOrWebView, old(decoderCreated), o)
      ensures decoderCreated
      ensures modalVisible == ScanStarts(o)
      ensures running == (old(running) || ScanStarts(o))
    {
      Open();
      var selection := CameraId(o.cameras);
      Acquire(selection, o.exactStarts, o.fallbackStarts);
      ghost var pre := Prologue(old(decoderCreated));
      ghost var acq := AcquireEffects(ConfigFor(mobileOrWebView), selection, o.exactStarts, o.fallbackStarts);
      assert trace == old(trace) + (pre + acq);
      assert StartScanEffects(mobileOrWebView, old(decoderCreated), o) == pre + acq;
      StartScanPreserves(ConfigFor(mobileOrWebView), selection, o.exactStarts, o.fallbackStarts,
                         old(modalVisible), old(running), old(decoderCreated), old(trace));
    }

    /**
     * `stop()`: without a decoder nothing happens. Otherwise the decoder is
     * stopped; if that succeeds the stream ends and the decoder is cleared,
     * and once `clear()` returns the modal is hidden. A failed stop or a
     * throwing `clear()` is only logged.
     */
    method Stop(stopped: bool, cleared: bool)
      requires Valid()
      modifies this
      ensures Valid()
      ensures trace == old(trace) + StopEffects(old(decoderCreated), stopped, cleared)
      ensures decoderCreated == old(decoderCreated)
      ensures modalVisible == (old(modalVisible) && !(old(decoderCreated) && stopped && cleared))
      ensures running == (old(running) && !(old(decoderCreated) && stopped))
    {
      if decoderCreated {
        trace := trace + [StopDecoder(stopped)];
        if stopped {
          running := false;
          trace := trace + [ClearDecoder(cleared)];
          if cleared {
            HideModal();
          }
        }
      }
      StopPreserves(stopped, cleared, old(modalVisible), old(running), old(decoderCreated), old(trace));
      assert trace == old(trace) + StopEffects(old(decoderCreated), stopped, cleared);
    }

    /**
     * The decode callback: the text goes to the sink, then `stop()` runs. The
     * callback is only handed to a `start` that resolved, so it fires only
     * while the stream runs.
     */
    method OnDecoded(text: string, stopped: bool, cleared: bool)
      requires Valid()
      requires running
      modifies this
      ensures Valid()
      ensures trace == old(trace) + DecodeEffects(text, old(decoderCreated), stopped, cleared)
      ensures SinkCalls(trace) == SinkCalls(old(trace)) + [text]
      ensures decoderCreated == old(decoderCreated)
      ensures modalVisible == (old(modalVisible) && !(old(decoderCreated) && stopped && cleared))
      ensures running == (old(running) && !(old(decoderCreated) && stopped))
    {
      SinkPreserves(text, modalVisible, running, decoderCreated, trace);
      trace := trace + [Sink(text)];
      Stop(stopped, cleared);
      assert trace == old(trace) + DecodeEffects(text, old(decoderCreated), stopped, cleared);
      ViewsAppend(old(trace) + [Sink(text)], StopEffects(old(decoderCreated), stopped, cleared));
      StopOutcomes(old(decoderCreated), stopped, cleared, old(modalVisible), old(running));
    }

    /** The frame-error callback, which fires only while the stream runs, only logs. */
    method OnFrameError(message: string)
      requires Valid()
      requires running
      ensures Valid() && unchanged(this)
    {
    }
  }

  /**
   * Scan, stop, scan again: the second scan reuses the first one's decoder,
   * so exactly one is created. (That at most one decoder is ever created,
   * whatever the order of the steps, is part of `Valid()`, which every public
   * step keeps.)
   */
  method ScanTwice(mobileOrWebView: bool, first: Outcomes, second: Outcomes, stopped: bool, cleared: bool)
    returns (created: nat, visible: bool)
    ensures created == 1
    ensures visible == ScanStarts(second)
  {
    var scanner := new BarcodeScanner(mobileOrWebView);
    scanner.StartScan(first);
    scanner.Stop(stopped, cleared);
    scanner.StartScan(second);
    assert scanner.Valid();
    created := DecodersCreated(scanner.trace);
    visible := scanner.modalVisible;
  }

  /**
   * Front then back camera; the exact start on the back camera fails, the
   * facing-mode start succeeds, and a frame decodes "0123456789": the sink
   * receives that text once, two attempts were made, and the modal is hidden
   * once the decoder stops.
   */
  method ExactFailsFallbackDecodes()
    returns (sunk: seq<string>, tried: seq<Attempt>, visible: bool)
    ensures sunk == ["0123456789"]
    ensures tried == [Attempt(ExactDevice("2"), ConfigFor(false), false),
                      Attempt(FacingEnvironment, ConfigFor(false), true)]
    ensures !visible
  {
    var scanner := new BarcodeScanner(false);
    var o := Outcomes(Some([Device("1", "Front Camera"), Device("2", "Back Camera")]), false, true);
    ExactFailureThenFallback("Front Camera", "Back Camera");
    scanner.StartScan(o);
    ghost var afterStart := ScanEffects(ConfigFor(false), false, Ok("2"), false, true);
    assert scanner.trace == afterStart;
    ScanResults(ConfigFor(false), false, Ok("2"), false, true, false, false);
    scanner.OnDecoded("0123456789", true, true);
    DecodeDeliversText("0123456789", true, true, true, true, true);
    ViewsAppend(afterStart, DecodeEffects("0123456789", true, true, true));
    sunk := SinkCalls(scanner.trace);
    tried := Attempts(scanner.trace);
    visible := scanner.modalVisible;
  }

  /**
   * A fresh scanner whose scan fails on every path: the modal ends hidden,
   * the stream is not running, so no decode callback can fire, and the sink
   * has never been called.
   */
  method TotalFailureDeliversNothing(mobileOrWebView: bool, o: Outcomes)
    returns (visible: bool, streaming: bool, sunk: seq<string>)
    requires !ScanStarts(o)
    ensures !visible && !streaming && sunk == []
  {
    var scanner := new BarcodeScanner(mobileOrWebView);
    scanner.StartScan(o);
    assert scanner.trace == StartScanEffects(mobileOrWebView, false, o);
    ScanResults(ConfigFor(mobileOrWebView), false, CameraId(o.cameras), o.exactStarts, o.fallbackStarts, false, false);
    visible := scanner.modalVisible;
    streaming := scanner.running;
    sunk := SinkCalls(scanner.trace);
  }
}
