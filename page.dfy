/** The page logic of script.js: the `PrintUI` module with its history list,
    the two print handlers, and the automatic invoice load on page start. */
module Page {
  import Js
  import opened Host
  import opened Printers
  import opened Wire
  import opened History
  import opened PrintBridge

  const ImageTag: string := "<imagen_grande>"
  const ManualImageTitle: string := "Impresión Manual con Imagen"
  const ManualTitle: string := "Impresión desde textarea"
  const InvoiceImageTitle: string := "Factura Electrónica con Imagen"
  const InvoiceTitle: string := "Factura Electrónica"
  const StatusSuccess: string := "success"
  const StatusWebView: string := "webview"

  /** `content.replace(/\n/g, '\\n')`: every line feed becomes a backslash
      followed by `n`; the result holds no line feed and is longer by one
      character per line feed. */
  function EscapeNewlines(s: string): (r: string)
    ensures '\n' !in r
    ensures |r| == |s| + multiset(s)['\n']
  {
    if s == [] then []
    else
      assert s == [s[0]] + s[1..];
      (if s[0] == '\n' then "\\n" else [s[0]]) + EscapeNewlines(s[1..])
  }

  /** The inverse a receiver would apply: backslash-`n` back to a line feed. */
  function UnescapeNewlines(r: string): string {
    if |r| >= 2 && r[0] == '\\' && r[1] == 'n' then "\n" + UnescapeNewlines(r[2..])
    else if r == [] then []
    else [r[0]] + UnescapeNewlines(r[1..])
  }

  /** Escaping loses nothing for text without backslashes: unescaping gives the
      original back. (Text that already holds a backslash-`n` is ambiguous.) */
  lemma {:induction false} UnescapeEscape(s: string)
    requires '\\' !in s
    ensures UnescapeNewlines(EscapeNewlines(s)) == s
  {
    if s != [] {
      var rest := EscapeNewlines(s[1..]);
      assert '\\' !in s[1..];
      UnescapeEscape(s[1..]);
      if s[0] == '\n' {
        var e := "\\n" + rest;
        assert EscapeNewlines(s) == e;
        assert e[0] == '\\' && e[1] == 'n' && e[2..] == rest;
        assert UnescapeNewlines(e) == "\n" + UnescapeNewlines(rest);
      } else {
        var e := [s[0]] + rest;
        assert EscapeNewlines(s) == e;
        assert e[0] == s[0] && s[0] != '\\' && e[1..] == rest;
        assert UnescapeNewlines(e) == [s[0]] + UnescapeNewlines(rest);
      }
      assert s == [s[0]] + s[1..];
    }
  }

  /** The dispatch shared by `handlePrint` and `loadAndPrintInvoice`: content
      with an `<imagen_grande>` tag on an embedded host goes to the native side
      as `processInvoiceWithImage` (or nowhere, silently, without a channel);
      everything else goes through `callDirectPrint`. */
  function RouteInvoice(w: Window, content: string, imageTitle: string, title: string,
                        printers: seq<PrinterTarget>): (r: seq<Outcome>)
    ensures |r| <= 1
    ensures r == [] <==> Js.Contains(content, ImageTag) && IsFlutterWebView(w) && !HasChannel(w)
    ensures r == [ChannelMsg(ProcessInvoiceWithImage(content, imageTitle, printers))]
        <==> Js.Contains(content, ImageTag) && HasChannel(w)
    ensures r == [CallDirectPrint(w, content, title, printers)]
        <==> !(Js.Contains(content, ImageTag) && IsFlutterWebView(w))
    ensures forall o :: o in r && o.BrowserPrint? ==> !IsFlutterWebView(w) && o.content == content
  {
    if Js.Contains(content, ImageTag) && IsFlutterWebView(w) then
      if HasChannel(w) then [ChannelMsg(ProcessInvoiceWithImage(content, imageTitle, printers))] else []
    else
      [CallDirectPrint(w, content, title, printers)]
  }

  /** `loadAndPrintInvoice` once the fetch has settled: a failed fetch is
      logged, a non-ok response does nothing, and fetched text is routed with
      no printers. `showMessage` is not in scope in this function (both
      definitions are local to other closures), so each call to it throws a
      `ReferenceError`. After the image post that error reaches the `catch`,
      which logs a load failure; on the `callDirectPrint` path it is thrown
      inside the timer, after the dispatch, where no `catch` sees it. */
  function LoadAndPrintInvoice(w: Window, fetched: Fetch): (r: seq<Outcome>)
    ensures fetched.NetworkError? ==> r == [Rejected(LoadFailed)]
    ensures fetched.NotOk? ==> r == []
    ensures fetched.Fetched? ==>
      var routed := RouteInvoice(w, fetched.text, InvoiceImageTitle, InvoiceTitle, []);
      (|r| == |routed| || |r| == |routed| + 1)
      && r[..|routed|] == routed
      && (|r| == |routed| + 1 <==> Js.Contains(fetched.text, ImageTag) && HasChannel(w))
      && (|r| > |routed| ==> r[|routed|] == Rejected(LoadFailed))
  {
    match fetched
    case NetworkError => [Rejected(LoadFailed)]
    case NotOk => []
    case Fetched(text) =>
      var routed := RouteInvoice(w, text, InvoiceImageTitle, InvoiceTitle, []);
      if Js.Contains(text, ImageTag) && HasChannel(w) then routed + [Rejected(LoadFailed)] else routed
  }

  /** On an embedded host with a channel, an invoice with an image is posted
      for processing and then reported as a load failure. */
  lemma LoadedImageThenFails(w: Window, text: string)
    requires Js.Contains(text, ImageTag) && HasChannel(w)
    ensures LoadAndPrintInvoice(w, Fetched(text))
         == [ChannelMsg(ProcessInvoiceWithImage(text, InvoiceImageTitle, [])), Rejected(LoadFailed)]
  {
    var routed := RouteInvoice(w, text, InvoiceImageTitle, InvoiceTitle, []);
    assert routed == [ChannelMsg(ProcessInvoiceWithImage(text, InvoiceImageTitle, []))];
  }

  /** The `PrintUI` module instance: the history list it keeps and the copy
      persisted in `localStorage`. */
  class PrintUI {
    var historyList: seq<HistoryItem>
    var storage: StoredHistory

    /** At most `Capacity` entries. */
    ghost predicate Bounded()
      reads this
    {
      |historyList| <= Capacity
    }

    /** Loading the persisted copy would give the list in memory. */
    ghost predicate Synced()
      reads this
    {
      Reloaded(storage) == historyList
    }

    /** `let historyList = []`, with whatever an earlier visit left in storage. */
    constructor (persisted: StoredHistory)
      ensures historyList == [] && storage == persisted
      ensures Bounded()
    {
      historyList := [];
      storage := persisted;
    }

    /** `addToHistory`: unshift the new entry, pop once when over capacity,
        persist the list. */
    method AddToHistory(text: string, status: string, printers: seq<PrinterTarget>, id: int, timestamp: int)
      modifies this
      ensures historyList == Pushed(old(historyList), HistoryItem(id, text, status, printers, timestamp))
      ensures storage == Saved(historyList)
      ensures Synced()
      ensures old(Bounded()) ==> Bounded()
    {
      var item := HistoryItem(id, text, status, printers, timestamp);
      historyList := [item] + historyList;
      if |historyList| > Capacity {
        historyList := historyList[..|historyList| - 1];
      }
      storage := Saved(historyList);
    }

    /** `loadHistory`: read the persisted list back; nothing stored or a
        failed parse gives `[]`. The list is taken as it is, without
        truncation, so it is bounded only if what was stored was. */
    method LoadHistory()
      modifies this
      ensures historyList == Reloaded(storage) && storage == old(storage)
      ensures Synced()
      ensures (storage.Saved? ==> |storage.items| <= Capacity) ==> Bounded()
    {
      match storage {
        case Saved(items) => historyList := items;
        case _ => historyList := [];
      }
    }

    /** `clearHistory`: empty the list and remove the persisted copy. */
    method ClearHistory()
      modifies this
      ensures historyList == [] && storage == Absent
      ensures Synced() && Bounded()
    {
      historyList := [];
      storage := Absent;
    }

    /** `handlePrint`: blank text is refused with nothing recorded; otherwise
        one `'success'` entry with the trimmed text is recorded, then the text
        is dispatched once through `RouteInvoice`. */
    method HandlePrint(w: Window, text: string, rows: seq<Row>, id: int, timestamp: int) returns (out: seq<Outcome>)
      modifies this
      ensures Js.Trim(text) == [] ==>
        out == [Rejected(EmptyContent)] && historyList == old(historyList) && storage == old(storage)
      ensures Js.Trim(text) != [] ==>
        historyList == Pushed(old(historyList),
          HistoryItem(id, Js.Trim(text), StatusSuccess, PrintersConfig(rows), timestamp))
        && storage == Saved(historyList)
        && out == RouteInvoice(w, Js.Trim(text), ManualImageTitle, ManualTitle, PrintersConfig(rows))
      ensures old(Synced()) ==> Synced()
      ensures old(Bounded()) ==> Bounded()
    {
      var content := Js.Trim(text);
      if content == [] {
        out := [Rejected(EmptyContent)];
        return;
      }
      var printers := PrintersConfig(rows);
      AddToHistory(content, StatusSuccess, printers, id, timestamp);
      out := RouteInvoice(w, content, ManualImageTitle, ManualTitle, printers);
    }

    /** `handleWebViewPrint` once the fetch has settled: a failed fetch or no
        configured printer records nothing and sends nothing; otherwise the
        unescaped text is recorded as `'webview'` and only the first printer
        receives the escaped text in a `printToPrinter` message. */
    method HandleWebViewPrint(w: Window, fetched: Fetch, rows: seq<Row>, id: int, timestamp: int)
      returns (out: seq<Outcome>)
      modifies this
      ensures !fetched.Fetched? ==>
        out == [Rejected(LoadFailed)] && historyList == old(historyList) && storage == old(storage)
      ensures fetched.Fetched? && PrintersConfig(rows) == [] ==>
        out == [Rejected(NoPrinters)] && historyList == old(historyList) && storage == old(storage)
      ensures fetched.Fetched? && PrintersConfig(rows) != [] ==>
        var printer := PrintersConfig(rows)[0];
        historyList == Pushed(old(historyList),
          HistoryItem(id, fetched.text, StatusWebView, PrintersConfig(rows), timestamp))
        && storage == Saved(historyList)
        && out == (if HasChannel(w)
                   then [ChannelMsg(PrintToPrinter(printer.ip, EscapeNewlines(fetched.text), printer.copies))]
                   else [Rejected(ChannelMissing)])
      ensures old(Synced()) ==> Synced()
      ensures old(Bounded()) ==> Bounded()
    {
      if !fetched.Fetched? {
        out := [Rejected(LoadFailed)];
        return;
      }
      var content := fetched.text;
      var formatted := EscapeNewlines(content);
      var printers := PrintersConfig(rows);
      if |printers| == 0 {
        out := [Rejected(NoPrinters)];
        return;
      }
      var printer := printers[0];
      AddToHistory(content, StatusWebView, printers, id, timestamp);
      if HasChannel(w) {
        out := [ChannelMsg(PrintToPrinter(printer.ip, formatted, printer.copies))];
      } else {
        out := [Rejected(ChannelMissing)];
      }
    }

    /** The `DOMContentLoaded` handler: `PrintUI.init()` loads the history,
        then `window.setFlutterWebView()` marks the host as embedded and the
        invoice is loaded and dispatched. That function is defined by the
        bridge script; without it the call throws and the invoice is never
        loaded. */
    method OnPageLoad(w: Window, bridgeLoaded: bool, fetched: Fetch) returns (w': Window, out: seq<Outcome>)
      modifies this
      ensures historyList == Reloaded(storage) && storage == old(storage) && Synced()
      ensures w' == if bridgeLoaded then SetFlutterWebView(w) else w
      ensures out == if bridgeLoaded then LoadAndPrintInvoice(w', fetched) else []
      ensures bridgeLoaded ==> IsFlutterWebView(w') && forall o :: o in out ==> !o.BrowserPrint?
    {
      LoadHistory();
      if bridgeLoaded {
        w' := SetFlutterWebView(w);
        out := LoadAndPrintInvoice(w', fetched);
      } else {
        w' := w;
        out := [];
      }
    }
  }
}
