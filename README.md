# print-web: the print bridge, modelled in Dafny

print-web is a page that runs either in a plain browser or inside the WebView
of a Flutter app, and sends invoice text to a printer. In the WebView it posts
JSON messages on the `NativePrinter` channel. In a browser it renders the text
into the page and calls `window.print()`. It also keeps a newest-first history
of at most 20 print attempts in `localStorage`.

This project models the sequential logic under the DOM wiring of `script.js`
(its live part, lines 220-574) and `flutter-print-bridge.js`:

- **Host detection** (`Host`). `isFlutterWebView` is a five-way disjunction
  over the window signals: a "Flutter" user agent, `NativePrinter`,
  `flutter_inappwebview`, `flutter_cuenti` and the manual flag
  `_isFlutterWebView`. `setFlutterWebView` forces that flag. The window is an
  input value (`Window`), read at the moment of each call.
- **Printer rows** (`Printers`). `getPrintersConfig` trims each IP, computes
  `parseInt(copies, 10) || 1`, and drops rows whose IP is blank.
  `PrintersConfig` is the `map`/`filter` form of script.js.
  `FlutterBridge.GetPrintersConfig` is the `forEach`/`push` loop of the
  bridge, proved equal to it.
- **Dispatch** (`Wire`, `PrintBridge`, `Page`, `FlutterBridge`). Each entry
  point returns the outcomes it produces, in order. An outcome is a posted
  message (`ChannelMsg` with one of the four payload shapes), a browser print
  (`BrowserPrint`), or an error reported or logged instead of a dispatch
  (`Rejected`).
- **History** (`History`, `Page.PrintUI`). The `PrintUI` class holds
  `historyList` and the persisted copy. `addToHistory` updates the list in
  place by unshift-then-pop. `loadHistory` and `clearHistory` reassign it.
  The preview and status label come from `renderHistory`.
- **Invoice holder** (`FlutterBridge.FlutterPrintBridge`). A nullable string
  cell whose setter refuses non-strings. It guards `printInvoice`, which calls
  `sendToFlutter` once per configured printer.

JavaScript built-ins the logic depends on are modelled in `Js`: `trim` with
ECMAScript's white-space set, `includes`, and `parseInt` with radix 10.

Some consequences that the proofs make explicit:

- Copies are not always a positive count. Blank text, unparsable text and 0
  become 1. A negative number is kept as it is (`CopiesOfDecimal`).
- A present `NativePrinter` is itself one of the detection signals. So
  `callDirectPrint` posts exactly when the channel exists. When the host is
  embedded for another reason and there is no channel, the call fails
  silently: the `TypeError` is caught and only logged.
- script.js:522 calls `window.setFlutterWebView()`. That function is defined
  only in flutter-print-bridge.js:40-43. With the bridge loaded, the host
  counts as embedded after page load, so `callDirectPrint` never falls back
  to the browser (`MarkedHostNeverBrowserPrints`). Without the bridge, the
  call throws and the invoice is never loaded (`PrintUI.OnPageLoad`).
- `loadAndPrintInvoice` (script.js:529-573) calls `showMessage`, but the
  only definitions are local to the `PrintUI` closure (script.js:489) and to
  the bridge's own wrapper (flutter-print-bridge.js:205). Each of those calls
  throws a `ReferenceError`. After an image invoice is posted, the `catch`
  logs a load failure (`LoadedImageThenFails`). On the `callDirectPrint` path
  the throw comes inside the timer, after the dispatch, and nothing sees it.
  A failed fetch is only logged: the error toast at line 571 throws too.
- The 20-entry bound holds only if the list already had at most 20 entries.
  `loadHistory` keeps a longer stored list as it is, and `addToHistory` then
  never shortens it.
- `handleWebViewPrint` records the history entry before it checks the
  channel. So an attempt without a channel is still recorded as `'webview'`.

## Model

| member | source | states |
|---|---|---|
| `Js.TrimStart` | script.js:304 | the result is a suffix of the input that does not start with white space, and everything removed was white space |
| `Js.TrimEnd` | script.js:304 | the result is a prefix of the input that does not end with white space, and everything removed was white space |
| `Js.Trim` | script.js:304 | `trim()` yields a slice of the input that neither starts nor ends with white space, with only white space outside it |
| `Js.TrimEmptyIff` | script.js:306 | the trimmed IP is empty exactly when every character of the input is white space |
| `Js.ContainsIff` | script.js:408 | `includes(sub)` holds exactly when `sub` occurs at some index |
| `Js.DigitPrefix` | script.js:305 | `parseInt` reads the longest run of leading decimal digits, and stops at the first non-digit |
| `Js.ParseIntDecimal` | script.js:305 | `parseInt(text, 10)` reads back every integer written in decimal, negatives included |
| `Host.IsFlutterWebViewIff` | script.js:225-232 | the host is detected as embedded exactly when at least one of the five signals holds |
| `Host.ChannelImpliesEmbedded` | flutter-print-bridge.js:27-34 | a usable `NativePrinter.postMessage` implies the host is detected as embedded |
| `Host.SetFlutterWebView` | flutter-print-bridge.js:40-43 | `setFlutterWebView` sets the `_isFlutterWebView` flag, so the host is detected as embedded whatever the other signals say; the user agent, the channel and the other globals are untouched |
| `Host.FlagAloneDetects` | flutter-print-bridge.js:40-43 | once the flag is set, the host stays detected as embedded whatever the user agent and the injected globals later become |
| `Host.SetFlutterWebViewIdempotent` | flutter-print-bridge.js:40-43 | calling `setFlutterWebView` a second time changes nothing |
| `Printers.Copies` | script.js:305 | `parseInt(...) \|\| 1` is never 0 |
| `Printers.CopiesOfDecimal` | script.js:305 | a typed number gives itself as the copy count, 0 gives 1, and negatives pass through |
| `Printers.CopiesDefault` | flutter-print-bridge.js:86 | text that `parseInt` reads as `NaN` gives one copy |
| `Printers.RowTargetSpec` | script.js:303-307 | a row yields `{ip, copies}` exactly when its trimmed IP is not empty, and then carries the trimmed IP and the parsed copies |
| `Printers.Present` | script.js:308 | `.filter(p => p)` keeps only values that were present, and is never longer than its input |
| `Printers.PrintersConfigWellFormed` | script.js:301-309 | every configured printer has a non-empty trimmed IP and a non-zero copy count |
| `Printers.PrintersConfigSelects` | script.js:301-309 | `getPrintersConfig` keeps row order: the k-th printer is what the k-th kept row maps to, kept indices increase, and a row is kept exactly when it maps to a printer (by `Printers.RowTargetSpec`, exactly when its trimmed IP is not empty) |
| `Printers.PresentAppend` | script.js:302-308 | filtering two runs of rows one after the other gives the two results concatenated |
| `History.Pushed` | script.js:431-432 | the new entry is first and older entries shift by one; the length grows by one below 20 and stays unchanged from 20 up; a list of at most 20 stays at most 20; only the oldest entry can be dropped |
| `History.AddAllKeepsNewest` | script.js:429-432 | from at most 20 entries, any sequence of additions leaves the 20 newest entries of all, newest first |
| `History.TwentyOneAdditions` | script.js:431-432 | 21 additions to an empty history leave exactly the last 20 items, newest first |
| `History.Reloaded` | script.js:437-443 | `loadHistory` yields the stored list, or `[]` when nothing is stored or parsing fails |
| `History.Preview` | script.js:460 | the preview is the text itself up to 100 characters; longer text gives its first 100 characters followed by `...`, 103 in all |
| `History.StatusOf` | script.js:463-472 | the label is WebView exactly for `'webview'`, Error exactly for `'error'`, and Exitoso for every other status; the class follows the label |
| `PrintBridge.CallDirectPrint` | script.js:233-247 | exactly one outcome: with a channel, one `{content, title, printers}` message; in a browser, one browser print; embedded without a channel, the caught error and nothing else |
| `PrintBridge.MarkedHostNeverBrowserPrints` | script.js:522 | after `setFlutterWebView`, `callDirectPrint` never prints in the browser, and it posts exactly when the channel exists |
| `Page.EscapeNewlines` | script.js:360 | the escaped content holds no line feed, and its length is the original length plus the number of line feeds |
| `Page.UnescapeEscape` | script.js:360 | for content without backslashes, turning backslash-`n` back into line feeds restores the original |
| `Page.RouteInvoice` | script.js:407-426 | at most one dispatch: `processInvoiceWithImage` exactly when the content has `<imagen_grande>` and a channel exists; nothing exactly when it has the tag and the host is embedded without a channel; `callDirectPrint` exactly when it lacks the tag or the host is not embedded; a browser print only outside the WebView |
| `Page.LoadAndPrintInvoice` | script.js:529-573 | a network failure is logged, a non-ok response does nothing, and fetched text is routed as an electronic invoice with no printers; exactly when the text has `<imagen_grande>` and a channel exists, the out-of-scope `showMessage` at line 559 throws and the `catch` logs a load failure after the post |
| `Page.LoadedImageThenFails` | script.js:549-571 | on an embedded host with a channel, an invoice with an image is posted for processing and then logged as a load failure |
| `Page.PrintUI.constructor` | script.js:271 | the history list starts empty, and storage holds what an earlier visit left |
| `Page.PrintUI.AddToHistory` | script.js:429-435 | the list becomes the unshift-then-pop of the old list with the new entry; it is persisted; the 20-entry bound is preserved |
| `Page.PrintUI.LoadHistory` | script.js:437-445 | the list becomes the stored list, or `[]`; it is bounded when the stored list was |
| `Page.PrintUI.ClearHistory` | script.js:482-487 | the list is empty and the persisted copy removed |
| `Page.PrintUI.HandlePrint` | script.js:397-427 | blank text is refused with no history entry and no dispatch; otherwise exactly one `'success'` entry with the trimmed text is added, then exactly one routing takes place |
| `Page.PrintUI.HandleWebViewPrint` | script.js:349-395 | a failed fetch or no printer records nothing and sends nothing; otherwise one `'webview'` entry with the unescaped text is added, and only `printers[0]` gets a `printToPrinter` message with the escaped text, or the missing channel is reported |
| `Page.PrintUI.OnPageLoad` | script.js:520-526 | the history is loaded; with the bridge script, the host is marked embedded and the invoice is loaded and routed without any browser print; without it, nothing is dispatched |
| `FlutterBridge.GetPrintersConfig` | flutter-print-bridge.js:80-94 | the `forEach`/`push` loop returns exactly what the `map`/`filter` version returns |
| `FlutterBridge.SendToFlutter` | flutter-print-bridge.js:129-154 | exactly one outcome: in a browser, a browser print; embedded with a channel, one `callDirectPrint` message carrying content, `printer_ip` and `nro_copies`; embedded without, the missing-channel error |
| `FlutterBridge.FlutterPrintBridge.constructor` | flutter-print-bridge.js:51 | the invoice content starts as null |
| `FlutterBridge.FlutterPrintBridge.SetInvoiceContent` | flutter-print-bridge.js:57-64 | a string replaces the content; a non-string leaves it unchanged |
| `FlutterBridge.FlutterPrintBridge.GetInvoiceContent` | flutter-print-bridge.js:70-72 | returns exactly the stored content |
| `FlutterBridge.FlutterPrintBridge.PrintInvoice` | flutter-print-bridge.js:159-176 | null or empty content, or no configured printer, gives one error and no send; otherwise one `sendToFlutter` per configured printer, in configuration order, with that printer's IP and copies |
| `FlutterBridge.PrintBeforeSet` | flutter-print-bridge.js:159-164 | `printInvoice` before any `setInvoiceContent` reports missing content and sends nothing |

## Left out

- DOM rendering and templating: the `renderHistory` markup, the printers
  summary, `addPrinterRow` and `setupPrinterInputs`, and the bridge's `init`.
  Only the preview and the status label are kept.
- `showMessage` and `alert`. Their styling and timers are presentation.
  Success toasts are not modelled. Error toasts, alerts and caught-and-logged
  errors all become `Rejected(reason)`.
- `printInBrowser` / `BrowserPrinter.print`. They swap `innerHTML`, call
  `window.print()` and reload after 100 ms. They are kept only as a
  `BrowserPrint(content)` outcome.
- `fetch('content.txt')` and the promise chains. The settled result is an
  input (`Fetch`); a failing `response.text()` counts as a network failure.
- The 1000 ms timer before `loadAndPrintInvoice` calls `callDirectPrint`. The
  window is taken as it was when the load finished.
- `localStorage` and JSON. The history key is an abstract `StoredHistory`
  value. Timestamps are kept as numbers, so the Date round trip is exact.
  `setItem` quota errors are not modelled.
- The draft-text key: `loadText`, and the `savedText` writes at
  script.js:328 and 544. These are editor glue.
- `Date.now()` and `new Date()`. They are parameters.
- Event binding, textarea resizing, WebView button visibility and `console`
  logging. These are UI glue.
- `Js.ParseInt` uses exact integers. JavaScript loses precision for numbers
  beyond 2^53, and the model does not follow that rounding. (`-0` is falsy in
  JavaScript and 0 here; both give 1 copy.)
- String lengths count characters. JavaScript counts UTF-16 code units, so a
  100-unit preview can differ on text outside the Basic Multilingual Plane.
- Globals other than `NativePrinter` are reduced to their truthiness.
  A `postMessage` that is present but not callable is not distinguished from
  a missing one.
- The unused `CONFIG` keys of flutter-print-bridge.js are not modelled.
- Rows missing an IP or copies input are not modelled. `addPrinterRow`
  always creates both inputs.
- The lines script.js:1-218 are commented out and are not modelled.
