/** flutter-print-bridge.js: the invoice holder, the printer configuration
    read through a `forEach`, and the per-printer dispatch to the native side. */
module FlutterBridge {
  import opened Wrappers
  import Js
  import opened Host
  import opened Printers
  import opened Wire

  /** The argument of `setInvoiceContent`: a string, or any other JavaScript value. */
  datatype JsValue = JsString(s: string) | NonString

  /** `getPrintersConfig` of the bridge: a `forEach` over the rows that pushes
      `{ip, copies}` for each row with a non-blank IP. Same result as the
      `map`/`filter` version of script.js. */
  method GetPrintersConfig(rows: seq<Row>) returns (printers: seq<PrinterTarget>)
    ensures printers == PrintersConfig(rows)
  {
    ghost var mapped := MapRows(rows);
    printers := [];
    var i := 0;
    while i < |rows|
      invariant 0 <= i <= |rows|
      invariant printers == Present(mapped[..i])
    {
      var ip := Js.Trim(rows[i].ipText);
      var copies := Copies(rows[i].copiesText);
      if ip != [] {
        printers := printers + [PrinterTarget(ip, copies)];
      }
      PresentSnoc(mapped, i);
      i := i + 1;
    }
    assert mapped[..|rows|] == mapped;
  }

  /** `sendToFlutter(content, printerIp, copies)`: in a plain browser, print
      there; embedded with a channel, post one `callDirectPrint` message;
      embedded without one, report the missing channel. */
  function SendToFlutter(w: Window, content: string, printerIp: string, copies: int): (r: Outcome)
    ensures r.BrowserPrint? <==> !IsFlutterWebView(w)
    ensures r.BrowserPrint? ==> r.content == content
    ensures r.ChannelMsg? <==> HasChannel(w)
    ensures r.ChannelMsg? ==> r.payload == DirectPrintData(content, printerIp, copies)
    ensures r.Rejected? <==> IsFlutterWebView(w) && !HasChannel(w)
    ensures r.Rejected? ==> r.reason == ChannelMissing
  {
    if !IsFlutterWebView(w) then BrowserPrint(content)
    else if HasChannel(w) then ChannelMsg(DirectPrintData(content, printerIp, copies))
    else Rejected(ChannelMissing)
  }

  /** The bridge's module state: `let invoiceContent = null`. */
  class FlutterPrintBridge {
    var invoiceContent: Option<string>

    constructor ()
      ensures invoiceContent == None
    {
      invoiceContent := None;
    }

    /** `setInvoiceContent`: a non-string is refused and leaves the content
        as it was; a string replaces it. */
    method SetInvoiceContent(content: JsValue)
      modifies this
      ensures content.JsString? ==> invoiceContent == Some(content.s)
      ensures content.NonString? ==> invoiceContent == old(invoiceContent)
    {
      if !content.JsString? {
        return;
      }
      invoiceContent := Some(content.s);
    }

    /** `getInvoiceContent`: the stored content, or null. */
    method GetInvoiceContent() returns (content: Option<string>)
      ensures content == invoiceContent
    {
      content := invoiceContent;
    }

    /** `printInvoice`: null or empty content, or no configured printer, is
        reported and nothing is sent; otherwise `sendToFlutter` runs once per
        configured printer, in configuration order. */
    method PrintInvoice(w: Window, rows: seq<Row>) returns (out: seq<Outcome>)
      ensures invoiceContent.None? || invoiceContent == Some([]) ==> out == [Rejected(NoInvoiceContent)]
      ensures invoiceContent.Some? && invoiceContent.value != [] && PrintersConfig(rows) == [] ==>
        out == [Rejected(NoPrinters)]
      ensures invoiceContent.Some? && invoiceContent.value != [] && PrintersConfig(rows) != [] ==>
        |out| == |PrintersConfig(rows)|
        && forall k :: 0 <= k < |out| ==>
             out[k] == SendToFlutter(w, invoiceContent.value, PrintersConfig(rows)[k].ip, PrintersConfig(rows)[k].copies)
    {
      var content := GetInvoiceContent();
      if content.None? || content.value == [] {
        out := [Rejected(NoInvoiceContent)];
        return;
      }
      var printers := GetPrintersConfig(rows);
      if |printers| == 0 {
        out := [Rejected(NoPrinters)];
        return;
      }
      out := [];
      var i := 0;
      while i < |printers|
        invariant 0 <= i <= |printers|
        invariant |out| == i
        invariant forall k :: 0 <= k < i ==>
          out[k] == SendToFlutter(w, content.value, printers[k].ip, printers[k].copies)
      {
        out := out + [SendToFlutter(w, content.value, printers[i].ip, printers[i].copies)];
        i := i + 1;
      }
    }
  }

  /** The holder starts as null, so `printInvoice` before any
      `setInvoiceContent` reports the missing content and sends nothing. */
  method PrintBeforeSet(w: Window, rows: seq<Row>) returns (out: seq<Outcome>)
    ensures out == [Rejected(NoInvoiceContent)]
  {
    var bridge := new FlutterPrintBridge();
    out := bridge.PrintInvoice(w, rows);
  }
}
