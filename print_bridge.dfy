/** `PrintBridge` in script.js: host detection and the single dispatch
    `callDirectPrint(content, title, printers)`. */
module PrintBridge {
  import opened Host
  import opened Wire
  import opened Printers

  /** `callDirectPrint`: when the host is embedded, post `{content, title, printers}`
      on `NativePrinter`; the `TypeError` of a missing channel is caught and only
      logged. Otherwise print in the browser. Exactly one of the three happens. */
  function CallDirectPrint(w: Window, content: string, title: string, printers: seq<PrinterTarget>): (r: Outcome)
    ensures r.ChannelMsg? <==> HasChannel(w)
    ensures r.ChannelMsg? ==> r.payload == PrintRequest(content, title, printers)
    ensures r.BrowserPrint? <==> !IsFlutterWebView(w)
    ensures r.BrowserPrint? ==> r.content == content
    ensures r.Rejected? <==> IsFlutterWebView(w) && !HasChannel(w)
    ensures r.Rejected? ==> r.reason == PostFailed
  {
    if IsFlutterWebView(w) then
      if HasChannel(w) then ChannelMsg(PrintRequest(content, title, printers)) else Rejected(PostFailed)
    else
      BrowserPrint(content)
  }

  /** Once `setFlutterWebView` has run, `callDirectPrint` never falls back to
      the browser: it posts, or fails silently when there is no channel. */
  lemma MarkedHostNeverBrowserPrints(w: Window, content: string, title: string, printers: seq<PrinterTarget>)
    ensures !CallDirectPrint(SetFlutterWebView(w), content, title, printers).BrowserPrint?
    ensures CallDirectPrint(SetFlutterWebView(w), content, title, printers).ChannelMsg? == HasChannel(w)
  {
  }
}
