/** Host detection: the window globals that tell an embedded Flutter WebView
    from a plain browser, and the manual override `setFlutterWebView`. */
module Host {
  import Js

  /** `window.NativePrinter`: absent, or an object that may or may not carry a
      callable `postMessage`. */
  datatype Binding = Unbound | Bound(hasPostMessage: bool)

  /** The ambient signals of the page, read at the moment of each call. */
  datatype Window = Window(
    userAgent: string,           // `navigator.userAgent || ''`
    nativePrinter: Binding,      // `window.NativePrinter`
    flutterInAppWebView: bool,   // truthiness of `window.flutter_inappwebview`
    flutterCuenti: bool,         // truthiness of `window.flutter_cuenti`
    isFlutterWebViewFlag: bool)  // truthiness of `window._isFlutterWebView`

  const FlutterMarker: string := "Flutter"

  /** The five independent signals of an embedded host. */
  datatype Signal = UserAgentMarker | NativePrinterBinding | InAppWebView | Cuenti | ManualFlag

  ghost predicate Shows(w: Window, s: Signal) {
    match s
    case UserAgentMarker => exists i :: Js.OccursAt(w.userAgent, FlutterMarker, i)
    case NativePrinterBinding => w.nativePrinter.Bound?
    case InAppWebView => w.flutterInAppWebView
    case Cuenti => w.flutterCuenti
    case ManualFlag => w.isFlutterWebViewFlag
  }

  /** `isFlutterWebView()`: the five-way disjunction, left to right. */
  predicate IsFlutterWebView(w: Window) {
    Js.Contains(w.userAgent, FlutterMarker)
    || w.nativePrinter.Bound?
    || w.flutterInAppWebView
    || w.flutterCuenti
    || w.isFlutterWebViewFlag
  }

  /** `window.NativePrinter && window.NativePrinter.postMessage`: a message can be posted. */
  predicate HasChannel(w: Window) {
    w.nativePrinter.Bound? && w.nativePrinter.hasPostMessage
  }

  /** The host is detected as embedded exactly when at least one signal holds. */
  lemma IsFlutterWebViewIff(w: Window)
    ensures IsFlutterWebView(w) <==> exists s :: Shows(w, s)
  {
    Js.ContainsIff(w.userAgent, FlutterMarker);
    if Js.Contains(w.userAgent, FlutterMarker) {
      assert Shows(w, UserAgentMarker);
    } else if w.nativePrinter.Bound? {
      assert Shows(w, NativePrinterBinding);
    } else if w.flutterInAppWebView {
      assert Shows(w, InAppWebView);
    } else if w.flutterCuenti {
      assert Shows(w, Cuenti);
    } else if w.isFlutterWebViewFlag {
      assert Shows(w, ManualFlag);
    }
  }

  /** A usable channel implies the host is detected as embedded, since the
      `NativePrinter` binding is itself one of the signals. */
  lemma ChannelImpliesEmbedded(w: Window)
    ensures HasChannel(w) ==> IsFlutterWebView(w)
  {
  }

  /** `window.setFlutterWebView()`: sets `window._isFlutterWebView = true`.
      Afterwards the host is detected as embedded whatever the other signals
      say, and the channel is untouched. */
  function SetFlutterWebView(w: Window): (w': Window)
    ensures w'.isFlutterWebViewFlag
    ensures IsFlutterWebView(w')
    ensures HasChannel(w') == HasChannel(w)
    ensures w'.userAgent == w.userAgent && w'.nativePrinter == w.nativePrinter
    ensures w'.flutterInAppWebView == w.flutterInAppWebView && w'.flutterCuenti == w.flutterCuenti
  {
    w.(isFlutterWebViewFlag := true)
  }

  /** The flag set by `setFlutterWebView` is enough on its own: whatever the
      user agent and the injected globals later become, a window carrying the
      flag is detected as embedded. */
  lemma FlagAloneDetects(w: Window, userAgent: string, nativePrinter: Binding,
                         flutterInAppWebView: bool, flutterCuenti: bool)
    ensures IsFlutterWebView(SetFlutterWebView(w).(userAgent := userAgent, nativePrinter := nativePrinter,
                                                   flutterInAppWebView := flutterInAppWebView,
                                                   flutterCuenti := flutterCuenti))
  {
  }

  /** Calling `setFlutterWebView` again changes nothing. */
  lemma SetFlutterWebViewIdempotent(w: Window)
    ensures SetFlutterWebView(SetFlutterWebView(w)) == SetFlutterWebView(w)
  {
  }
}
