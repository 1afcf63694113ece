/**
 * The observable effects of the scanner, in the order they happen, and the
 * views of an effect log the properties talk about: the start attempts, the
 * texts delivered to the result sink, the style blocks injected, the decoder
 * instances created, whether the modal is shown and whether the decoder runs.
 */
module Effects {
  import opened ScanConfig

  /** How a start attempt asks for a camera stream. */
  datatype Strategy =
    | ExactDevice(id: string)   // `{ deviceId: { exact: cameraId } }`
    | FacingEnvironment         // `{ facingMode: "environment" }`

  /** One call of the decoder's `start`, with the outcome the library reported. */
  datatype Attempt = Attempt(strategy: Strategy, config: Config, started: bool)

  datatype Effect =
    | ShowModal                   // modal display set to "block"
    | HideModal                   // modal display set to "none"
    | NewDecoder                  // `new Html5Qrcode(containerId)`
    | GetCameras                  // `Html5Qrcode.getCameras()`
    | Start(attempt: Attempt)     // `qrcodeScanner.start(...)`
    | InjectStyles                // one `<style>` block appended to the document head
    | Sink(text: string)          // the caller's `onScan(decodedText)`
    | StopDecoder(stopped: bool)  // `qrcodeScanner.stop()`, resolved or rejected
    | ClearDecoder(cleared: bool) // `qrcodeScanner.clear()`, returned or threw

  /** The start attempts in a log, in order. */
  function Attempts(t: seq<Effect>): seq<Attempt> {
    if t == [] then []
    else (if t[0].Start? then [t[0].attempt] else []) + Attempts(t[1..])
  }

  /** The texts handed to the result sink, in order. */
  function SinkCalls(t: seq<Effect>): seq<string> {
    if t == [] then []
    else (if t[0].Sink? then [t[0].text] else []) + SinkCalls(t[1..])
  }

  /** The number of style blocks injected. */
  function StylesInjected(t: seq<Effect>): nat {
    if t == [] then 0
    else (if t[0] == InjectStyles then 1 else 0) + StylesInjected(t[1..])
  }

  /** The number of decoder instances created. */
  function DecodersCreated(t: seq<Effect>): nat {
    if t == [] then 0
    else (if t[0] == NewDecoder then 1 else 0) + DecodersCreated(t[1..])
  }

  /** The modal's visibility after one effect. */
  function VisibleStep(visible: bool, e: Effect): bool {
    if e == ShowModal then true else if e == HideModal then false else visible
  }

  /** Whether the modal is shown after the log, starting from `visible`. */
  function VisibleAfter(visible: bool, t: seq<Effect>): bool
    decreases |t|
  {
    if t == [] then visible else VisibleAfter(VisibleStep(visible, t[0]), t[1..])
  }

  /**
   * Whether the decoder streams after one effect: a start that succeeds sets
   * it, a stop that succeeds clears it, a failed start or stop leaves it.
   */
  function RunningStep(running: bool, e: Effect): bool {
    match e
    case Start(a) => running || a.started
    case StopDecoder(stopped) => running && !stopped
    case _ => running
  }

  /** Whether the decoder streams after the log, starting from `running`. */
  function RunningAfter(running: bool, t: seq<Effect>): bool
    decreases |t|
  {
    if t == [] then running else RunningAfter(RunningStep(running, t[0]), t[1..])
  }

  /** The views of a log that starts with `e`, in terms of the rest of the log. */
  lemma ViewsCons(e: Effect, t: seq<Effect>)
    ensures Attempts([e] + t) == (if e.Start? then [e.attempt] else []) + Attempts(t)
    ensures SinkCalls([e] + t) == (if e.Sink? then [e.text] else []) + SinkCalls(t)
    ensures StylesInjected([e] + t) == (if e == InjectStyles then 1 else 0) + StylesInjected(t)
    ensures DecodersCreated([e] + t) == (if e == NewDecoder then 1 else 0) + DecodersCreated(t)
    ensures forall v :: VisibleAfter(v, [e] + t) == VisibleAfter(VisibleStep(v, e), t)
    ensures forall r :: RunningAfter(r, [e] + t) == RunningAfter(RunningStep(r, e), t)
  {
  }

  /** The start attempts and the sink calls of a log compose over concatenation. */
  lemma {:induction false} ViewsAppend(t: seq<Effect>, u: seq<Effect>)
    ensures Attempts(t + u) == Attempts(t) + Attempts(u)
    ensures SinkCalls(t + u) == SinkCalls(t) + SinkCalls(u)
    ensures StylesInjected(t + u) == StylesInjected(t) + StylesInjected(u)
    ensures DecodersCreated(t + u) == DecodersCreated(t) + DecodersCreated(u)
  {
    ListViewsAppend(t, u);
    CountViewsAppend(t, u);
  }

  lemma {:induction false} ListViewsAppend(t: seq<Effect>, u: seq<Effect>)
    ensures Attempts(t + u) == Attempts(t) + Attempts(u)
    ensures SinkCalls(t + u) == SinkCalls(t) + SinkCalls(u)
  {
    AttemptsAppend(t, u);
    SinkCallsAppend(t, u);
  }

  lemma {:induction false} AttemptsAppend(t: seq<Effect>, u: seq<Effect>)
    ensures Attempts(t + u) == Attempts(t) + Attempts(u)
  {
    if t == [] {
      assert t + u == u;
    } else {
      AttemptsAppend(t[1..], u);
      assert (t + u)[0] == t[0];
      assert (t + u)[1..] == t[1..] + u;
      var head := if t[0].Start? then [t[0].attempt] else [];
      calc {
        Attempts(t + u);
        head + Attempts(t[1..] + u);
        head + (Attempts(t[1..]) + Attempts(u));
        { assert head + (Attempts(t[1..]) + Attempts(u)) == (head + Attempts(t[1..])) + Attempts(u); }
        Attempts(t) + Attempts(u);
      }
    }
  }

  lemma {:induction false} SinkCallsAppend(t: seq<Effect>, u: seq<Effect>)
    ensures SinkCalls(t + u) == SinkCalls(t) + SinkCalls(u)
  {
    if t == [] {
      assert t + u == u;
    } else {
      SinkCallsAppend(t[1..], u);
      assert (t + u)[0] == t[0];
      assert (t + u)[1..] == t[1..] + u;
      var head := if t[0].Sink? then [t[0].text] else [];
      calc {
        SinkCalls(t + u);
        head + SinkCalls(t[1..] + u);
        head + (SinkCalls(t[1..]) + SinkCalls(u));
        { assert head + (SinkCalls(t[1..]) + SinkCalls(u)) == (head + SinkCalls(t[1..])) + SinkCalls(u); }
        SinkCalls(t) + SinkCalls(u);
      }
    }
  }

  lemma {:induction false} CountViewsAppend(t: seq<Effect>, u: seq<Effect>)
    ensures StylesInjected(t + u) == StylesInjected(t) + StylesInjected(u)
    ensures DecodersCreated(t + u) == DecodersCreated(t) + DecodersCreated(u)
  {
    if t == [] {
      assert t + u == u;
    } else {
      CountViewsAppend(t[1..], u);
      assert (t + u)[0] == t[0];
      assert (t + u)[1..] == t[1..] + u;
    }
  }

  /** The modal state after two logs is the state after the second, started from the first. */
  lemma {:induction false} VisibleAppend(v: bool, t: seq<Effect>, u: seq<Effect>)
    ensures VisibleAfter(v, t + u) == VisibleAfter(VisibleAfter(v, t), u)
    decreases |t|
  {
    if t == [] {
      assert t + u == u;
    } else {
      VisibleAppend(VisibleStep(v, t[0]), t[1..], u);
      assert (t + u)[1..] == t[1..] + u;
    }
  }

  /** The decoder state after two logs is the state after the second, started from the first. */
  lemma {:induction false} RunningAppend(r: bool, t: seq<Effect>, u: seq<Effect>)
    ensures RunningAfter(r, t + u) == RunningAfter(RunningAfter(r, t), u)
    decreases |t|
  {
    if t == [] {
      assert t + u == u;
    } else {
      RunningAppend(RunningStep(r, t[0]), t[1..], u);
      assert (t + u)[1..] == t[1..] + u;
    }
  }
}
