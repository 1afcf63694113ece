/**
 * The decoder configuration passed with every start attempt: frame rate,
 * decode box and the symbologies to recognise. Only the device class
 * (Android or embedded webview versus everything else) changes it.
 */
module ScanConfig {

  /** The symbologies the scanner asks the decoder to recognise. */
  datatype Format = Code128 | Ean13 | UpcA

  /**
   * The decode box. On mobile or webview it is 150 pixels high and spans
   * 80% of the viewport width (the width itself is not modelled); elsewhere
   * it is a fixed 300 by 100 box.
   */
  datatype QrBox = ViewportWide(height: nat) | Fixed(width: nat, height: nat)

  datatype Config = Config(fps: nat, qrbox: QrBox, formats: seq<Format>)

  /** The configuration object built for a start attempt. */
  function ConfigFor(mobileOrWebView: bool): (c: Config)
    ensures c.fps == 10
    ensures c.formats == [Code128, Ean13, UpcA]
    ensures mobileOrWebView <==> c.qrbox.ViewportWide?
    ensures mobileOrWebView ==> c.qrbox.height == 150
    ensures !mobileOrWebView ==> c.qrbox == Fixed(300, 100)
  {
    Config(
      10,
      if mobileOrWebView then ViewportWide(150) else Fixed(300, 100),
      [Code128, Ean13, UpcA])
  }
}
