/** What leaves the page: the messages posted on the native channel, the
    browser-print fallback, and the errors reported instead of a dispatch. */
module Wire {
  import opened Printers

  /** The payloads posted through `NativePrinter.postMessage`, before JSON encoding. */
  datatype Payload =
    /** `{content, title, printers}` from `PrintBridge.callDirectPrint` */
    | PrintRequest(content: string, title: string, printers: seq<PrinterTarget>)
    /** `{type: 'processInvoiceWithImage', content, title, printers}` */
    | ProcessInvoiceWithImage(content: string, title: string, printers: seq<PrinterTarget>)
    /** `{type: 'printToPrinter', ip, content, copies}` */
    | PrintToPrinter(ip: string, content: string, copies: int)
    /** `{type: 'callDirectPrint', data: {content, printer_ip, nro_copies}}` */
    | DirectPrintData(content: string, printerIp: string, nroCopies: int)

  /** Why nothing was dispatched. */
  datatype Reason =
    | EmptyContent      // nothing to print in the text area
    | NoPrinters        // no row with a non-blank IP
    | NoInvoiceContent  // the invoice holder is null or empty
    | ChannelMissing    // embedded, but no `NativePrinter.postMessage`; reported to the user
    | PostFailed        // `NativePrinter.postMessage` threw and the error was caught and logged
    | LoadFailed        // fetching the invoice text failed

  datatype Outcome =
    | ChannelMsg(payload: Payload)   // one message posted to the native side
    | BrowserPrint(content: string)  // content rendered into the page and `window.print()` called
    | Rejected(reason: Reason)       // no dispatch; an error reported or logged

  /** The result of `fetch('content.txt')` followed by `response.text()`. */
  datatype Fetch =
    | NetworkError        // the promise rejected
    | NotOk               // a response with `!response.ok`
    | Fetched(text: string)
}
