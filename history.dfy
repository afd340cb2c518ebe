/** The print history kept by the page: a newest-first list of at most
    `Capacity` entries, its persisted copy, and how an entry is shown. */
module History {
  import opened Printers

  /** `historyList.length > 20` triggers the eviction of the oldest entry. */
  const Capacity: nat := 20

  /** `{ id, text, status, printers, timestamp }`; `id` and `timestamp` are the
      clock readings `Date.now()` and `new Date()`, taken as given. */
  datatype HistoryItem = HistoryItem(
    id: int, text: string, status: string, printers: seq<PrinterTarget>, timestamp: int)

  /** `historyList.unshift(item)` followed by one `pop()` when the list then
      holds more than `Capacity` entries. */
  function Pushed(h: seq<HistoryItem>, item: HistoryItem): (r: seq<HistoryItem>)
    ensures |r| > 0 && r[0] == item
    ensures |r| == if |h| >= Capacity then |h| else |h| + 1
    ensures r[1..] == h[..|r| - 1]
    ensures |h| <= Capacity ==> |r| <= Capacity
    ensures h == r[1..] || (|h| > 0 && h == r[1..] + [h[|h| - 1]])
  {
    var u := [item] + h;
    if |u| > Capacity then u[..|u| - 1] else u
  }

  /** The first `n` entries, or all of them when there are fewer. */
  function Take<T>(s: seq<T>, n: nat): (r: seq<T>)
    ensures |r| == if |s| <= n then |s| else n
    ensures r == s[..|r|]
  {
    if |s| <= n then s else s[..n]
  }

  function Reverse<T>(s: seq<T>): (r: seq<T>)
    ensures |r| == |s|
  {
    if s == [] then [] else Reverse(s[1..]) + [s[0]]
  }

  /** `addToHistory` called once for each item of `items`, first to last. */
  function AddAll(h: seq<HistoryItem>, items: seq<HistoryItem>): seq<HistoryItem>
    decreases |items|
  {
    if items == [] then h else AddAll(Pushed(h, items[0]), items[1..])
  }

  lemma TakeOfTake<T>(a: seq<T>, b: seq<T>, n: nat)
    ensures Take(a + Take(b, n), n) == Take(a + b, n)
  {
    if |b| > n {
      if |a| >= n {
        assert (a + Take(b, n))[..n] == a[..n] == (a + b)[..n];
      } else {
        assert (a + Take(b, n))[..n] == a + b[..n - |a|] == (a + b)[..n];
      }
    }
  }

  /** One addition keeps the newest `Capacity` entries. */
  lemma PushedIsTake(h: seq<HistoryItem>, x: HistoryItem)
    requires |h| <= Capacity
    ensures Pushed(h, x) == Take([x] + h, Capacity)
  {
    var r := Pushed(h, x);
    assert r == ([x] + h)[..|r|];
  }

  /** Starting from at most `Capacity` entries, any number of additions leaves
      the newest `Capacity` entries of all, newest first: the added items in
      reverse order, then the earlier entries. */
  lemma {:induction false} AddAllKeepsNewest(h: seq<HistoryItem>, items: seq<HistoryItem>)
    requires |h| <= Capacity
    ensures AddAll(h, items) == Take(Reverse(items) + h, Capacity)
    ensures |AddAll(h, items)| <= Capacity
    decreases |items|
  {
    if items != [] {
      var x, rest := items[0], items[1..];
      var p := Pushed(h, x);
      PushedIsTake(h, x);
      assert AddAll(h, items) == AddAll(p, rest);
      AddAllKeepsNewest(p, rest);
      TakeOfTake(Reverse(rest), [x] + h, Capacity);
      assert Reverse(items) == Reverse(rest) + [x];
      assert Reverse(items) + h == Reverse(rest) + ([x] + h);
    } else {
      assert Reverse(items) + h == h;
    }
  }

  /** The 21-addition scenario: from an empty history, 21 additions leave the
      last 20 items, newest first; the first item has been evicted. */
  lemma TwentyOneAdditions(items: seq<HistoryItem>)
    requires |items| == Capacity + 1
    ensures AddAll([], items) == Reverse(items[1..])
  {
    AddAllKeepsNewest([], items);
    assert Reverse(items) == Reverse(items[1..]) + [items[0]];
    assert Reverse(items) + [] == Reverse(items);
  }

  /** What `localStorage` holds under the history key, as far as
      `loadHistory` can tell: nothing (or a falsy JSON value), a list written
      by `addToHistory`, or text that does not parse as a list. */
  datatype StoredHistory = Absent | Saved(items: seq<HistoryItem>) | Unreadable

  /** `loadHistory`: the parsed list, or `[]` when nothing is stored or parsing fails. */
  function Reloaded(s: StoredHistory): (h: seq<HistoryItem>)
    ensures s.Saved? ==> h == s.items
    ensures !s.Saved? ==> h == []
  {
    match s
    case Saved(items) => items
    case _ => []
  }

  const PreviewLength: nat := 100
  const Ellipsis: string := "..."

  /** `text.length > 100 ? text.substr(0, 100) + '...' : text`. */
  function Preview(text: string): (p: string)
    ensures |p| <= PreviewLength + |Ellipsis|
    ensures |text| <= PreviewLength ==> p == text
    ensures |text| > PreviewLength ==> |p| == PreviewLength + |Ellipsis|
    ensures |text| > PreviewLength ==> p[PreviewLength..] == Ellipsis
    ensures p[..if |text| <= PreviewLength then |text| else PreviewLength]
         == text[..if |text| <= PreviewLength then |text| else PreviewLength]
  {
    if |text| > PreviewLength then text[..PreviewLength] + Ellipsis else text
  }

  /** The label and CSS class shown next to an entry. */
  datatype StatusView = StatusView(caption: string, cssClass: string)

  /** `'webview'` is shown as WebView, `'error'` as Error, anything else as Exitoso. */
  function StatusOf(status: string): (v: StatusView)
    ensures v.caption == "WebView" <==> status == "webview"
    ensures v.caption == "Error" <==> status == "error"
    ensures v.caption == "Exitoso" <==> status != "webview" && status != "error"
    ensures v.cssClass == if v.caption == "Exitoso" then "success" else status
  {
    if status == "webview" then StatusView("WebView", "webview")
    else if status == "error" then StatusView("Error", "error")
    else StatusView("Exitoso", "success")
  }
}
