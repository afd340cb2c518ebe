/** `getPrintersConfig`: turning the printer rows of the page into the list of
    configured printers. Both source files implement the same rule. */
module Printers {
  import opened Wrappers
  import Js

  /** One `.printer-row`: the raw text of its IP input and of its copies input. */
  datatype Row = Row(ipText: string, copiesText: string)

  /** `{ ip, copies }` as sent to the native side. */
  datatype PrinterTarget = PrinterTarget(ip: string, copies: int)

  /** `parseInt(copiesText, 10) || 1`: `NaN` and 0 become 1, every other
      parsed integer is kept, negative ones included. */
  function Copies(copiesText: string): (n: int)
    ensures n != 0
  {
    match Js.ParseInt(copiesText)
    case None => 1
    case Some(v) => if v == 0 then 1 else v
  }

  /** The copies of a number typed in decimal: itself, except that 0 becomes 1. */
  lemma CopiesOfDecimal(n: int)
    ensures Copies(Js.Decimal(n)) == if n == 0 then 1 else n
  {
    Js.ParseIntDecimal(n);
  }

  /** An empty or unreadable copies field defaults to one copy. */
  lemma CopiesDefault(copiesText: string)
    requires Js.ParseInt(copiesText).None?
    ensures Copies(copiesText) == 1
  {
  }

  /** The `map` step of `getPrintersConfig` for one row: `{ip, copies}` with
      the trimmed IP, or null when the trimmed IP is empty. */
  function RowTarget(row: Row): Option<PrinterTarget> {
    var ip := Js.Trim(row.ipText);
    if ip != [] then Some(PrinterTarget(ip, Copies(row.copiesText))) else None
  }

  /** A row yields a printer exactly when its trimmed IP is not empty; that
      printer carries the trimmed IP, which is then non-empty and trimmed. */
  lemma RowTargetSpec(row: Row)
    ensures RowTarget(row).Some? <==> Js.Trim(row.ipText) != []
    ensures RowTarget(row).Some? ==>
      IsTrimmedIp(RowTarget(row).value.ip)
      && RowTarget(row).value == PrinterTarget(Js.Trim(row.ipText), Copies(row.copiesText))
  {
  }

  /** An IP as it leaves `getPrintersConfig`: non-empty and trimmed. */
  predicate IsTrimmedIp(ip: string) {
    ip != [] && !Js.IsSpace(ip[0]) && !Js.IsSpace(ip[|ip| - 1])
  }

  /** `Array.from(rows).map(...)`: one optional printer per row, in row order. */
  function MapRows(rows: seq<Row>): (ts: seq<Option<PrinterTarget>>)
    ensures |ts| == |rows| && forall i :: 0 <= i < |rows| ==> ts[i] == RowTarget(rows[i])
  {
    seq(|rows|, i requires 0 <= i < |rows| => RowTarget(rows[i]))
  }

  /** `.filter(p => p)`: the present values, in order. */
  function Present<T>(xs: seq<Option<T>>): (r: seq<T>)
    ensures |r| <= |xs|
    ensures forall y :: y in r ==> Some(y) in xs
  {
    if xs == [] then []
    else (if xs[0].Some? then [xs[0].value] else []) + Present(xs[1..])
  }

  /** Adding one to every index. */
  function Shift(ix: seq<nat>): (r: seq<nat>)
    ensures |r| == |ix| && forall k :: 0 <= k < |ix| ==> r[k] == ix[k] + 1
  {
    seq(|ix|, k requires 0 <= k < |ix| => ix[k] + 1)
  }

  /** The indices of the present values, in increasing order. */
  function PresentIndices<T>(xs: seq<Option<T>>): seq<nat> {
    if xs == [] then []
    else (if xs[0].Some? then [0] else []) + Shift(PresentIndices(xs[1..]))
  }

  /** `r` lists the values of `xs` found at the indices `ix`. */
  ghost predicate ValuesAt<T>(xs: seq<Option<T>>, r: seq<T>, ix: seq<nat>) {
    |r| == |ix| && forall k :: 0 <= k < |ix| ==> ix[k] < |xs| && xs[ix[k]] == Some(r[k])
  }

  /** `ix` is strictly increasing and holds exactly the indices of present values. */
  ghost predicate ExactlyPresent<T>(xs: seq<Option<T>>, ix: seq<nat>) {
    (forall k, l :: 0 <= k < l < |ix| ==> ix[k] < ix[l])
    && (forall j :: 0 <= j < |xs| ==> (j in ix <==> xs[j].Some?))
  }

  lemma {:induction false} PresentValuesAt<T>(xs: seq<Option<T>>)
    ensures ValuesAt(xs, Present(xs), PresentIndices(xs))
  {
    if xs != [] {
      var tail := xs[1..];
      PresentValuesAt(tail);
      var r, ix := Present(tail), PresentIndices(tail);
      var sx := Shift(ix);
      forall k | 0 <= k < |sx|
        ensures sx[k] < |xs| && xs[sx[k]] == Some(r[k])
      {
        assert xs[sx[k]] == tail[ix[k]];
      }
      if xs[0].Some? {
        var r2, i2 := [xs[0].value] + r, [0] + sx;
        assert Present(xs) == r2 && PresentIndices(xs) == i2;
        forall k | 0 <= k < |i2|
          ensures i2[k] < |xs| && xs[i2[k]] == Some(r2[k])
        {
          if k > 0 {
            assert i2[k] == sx[k - 1] && r2[k] == r[k - 1];
          }
        }
      } else {
        assert Present(xs) == r && PresentIndices(xs) == sx;
      }
    }
  }

  lemma {:induction false} PresentIndicesIncrease<T>(xs: seq<Option<T>>)
    ensures forall k, l :: 0 <= k < l < |PresentIndices(xs)| ==> PresentIndices(xs)[k] < PresentIndices(xs)[l]
  {
    if xs != [] {
      PresentIndicesIncrease(xs[1..]);
      var sx := Shift(PresentIndices(xs[1..]));
      var hx: seq<nat> := if xs[0].Some? then [0] else [];
      assert PresentIndices(xs) == hx + sx;
      forall k, l | 0 <= k < l < |hx + sx|
        ensures (hx + sx)[k] < (hx + sx)[l]
      {
        if k >= |hx| {
          assert (hx + sx)[k] == sx[k - |hx|] && (hx + sx)[l] == sx[l - |hx|];
        } else {
          assert (hx + sx)[l] == sx[l - 1];
        }
      }
    }
  }

  lemma {:induction false} PresentIndicesMembers<T>(xs: seq<Option<T>>)
    ensures forall j :: 0 <= j < |xs| ==> (j in PresentIndices(xs) <==> xs[j].Some?)
  {
    if xs != [] {
      var tail := xs[1..];
      PresentIndicesMembers(tail);
      var ix := PresentIndices(tail);
      var sx := Shift(ix);
      var hx: seq<nat> := if xs[0].Some? then [0] else [];
      assert PresentIndices(xs) == hx + sx;
      assert forall k :: 0 <= k < |sx| ==> sx[k] > 0;
      forall j | 0 < j < |xs|
        ensures j in sx <==> xs[j].Some?
      {
        assert tail[j - 1] == xs[j];
        if j - 1 in ix {
          var k :| 0 <= k < |ix| && ix[k] == j - 1;
          assert sx[k] == j;
        }
        if j in sx {
          var k :| 0 <= k < |sx| && sx[k] == j;
          assert ix[k] == j - 1;
        }
      }
    }
  }

  lemma PresentIndicesExact<T>(xs: seq<Option<T>>)
    ensures ExactlyPresent(xs, PresentIndices(xs))
  {
    PresentIndicesIncrease(xs);
    PresentIndicesMembers(xs);
  }

  lemma {:induction false} PresentAppend<T>(a: seq<Option<T>>, b: seq<Option<T>>)
    ensures Present(a + b) == Present(a) + Present(b)
  {
    if a != [] {
      assert (a + b)[1..] == a[1..] + b;
      PresentAppend(a[1..], b);
    } else {
      assert a + b == b;
    }
  }

  /** Filtering one more element appends its value when it is present. */
  lemma PresentSnoc<T>(xs: seq<Option<T>>, i: nat)
    requires i < |xs|
    ensures Present(xs[..i + 1]) == Present(xs[..i]) + (if xs[i].Some? then [xs[i].value] else [])
  {
    assert xs[..i + 1] == xs[..i] + [xs[i]];
    PresentAppend(xs[..i], [xs[i]]);
  }

  /** `getPrintersConfig()` in script.js: map each row to `{ip, copies}` or
      null, then drop the nulls. */
  function PrintersConfig(rows: seq<Row>): seq<PrinterTarget> {
    Present(MapRows(rows))
  }

  /** Every configured printer has a non-empty trimmed IP and a non-zero copy count. */
  lemma PrintersConfigWellFormed(rows: seq<Row>)
    ensures forall p :: p in PrintersConfig(rows) ==> IsTrimmedIp(p.ip) && p.copies != 0
  {
    forall p | p in PrintersConfig(rows)
      ensures IsTrimmedIp(p.ip) && p.copies != 0
    {
      var ts := MapRows(rows);
      var i :| 0 <= i < |ts| && ts[i] == Some(p);
      RowTargetSpec(rows[i]);
    }
  }

  /** `getPrintersConfig` is an order-preserving filter: the k-th printer is
      what the row at the k-th kept index maps to, the kept indices increase,
      and a row is kept exactly when it maps to a printer, which by
      `RowTargetSpec` is exactly when its trimmed IP is not empty. */
  lemma PrintersConfigSelects(rows: seq<Row>)
    ensures var ps, ix := PrintersConfig(rows), PresentIndices(MapRows(rows));
      |ps| == |ix|
      && (forall k :: 0 <= k < |ix| ==> ix[k] < |rows| && RowTarget(rows[ix[k]]) == Some(ps[k]))
      && (forall k, l :: 0 <= k < l < |ix| ==> ix[k] < ix[l])
      && (forall j :: 0 <= j < |rows| ==> (j in ix <==> RowTarget(rows[j]).Some?))
  {
    var ts := MapRows(rows);
    PresentValuesAt(ts);
    PresentIndicesExact(ts);
  }
}
