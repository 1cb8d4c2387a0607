/** The records of the admin extension: metaobject fields and nodes as the
    Admin API returns them, the stock items the extension edits, the bin
    locations it searches, and the JavaScript numbers its quantities are. */
module WarehouseTypes {
  import opened Common
  import Text

  /** A quantity as `parseInt` produces it: an integer, or `NaN` when the
      text holds no number. */
  datatype Qty = NaN | Num(n: int)

  /** `parseInt(s, 10)` */
  function QtyOfText(s: string): Qty {
    match Text.ParseInt(s)
    case Some(n) => Num(n)
    case None => NaN
  }

  /** `String(q)` */
  function QtyText(q: Qty): string {
    match q
    case NaN => "NaN"
    case Num(n) => Text.IntToString(n)
  }

  /** The largest integer a JavaScript number holds with all its neighbours,
      2^53. Beyond it sums round, and from 10^21 on `String` writes an
      exponent, which `parseInt` stops at. */
  const MaxExact := 0x20_0000_0000_0000

  /** A quantity JavaScript holds exactly: `NaN`, or an integer of at most
      2^53 in magnitude. */
  predicate Exact(q: Qty) {
    q.NaN? || -MaxExact <= q.n <= MaxExact
  }

  /** What `String(q)` writes, `parseInt` reads back: a quantity saved as a
      metaobject field comes back unchanged when the field is parsed. */
  lemma QtyTextRoundTrip(q: Qty)
    requires Exact(q)
    ensures QtyOfText(QtyText(q)) == q
  {
    match q
    case NaN => Text.ParseIntNeedsDigit("NaN");
    case Num(n) => Text.ParseIntOfIntToString(n);
  }

  /** `a !== b` on numbers: `NaN` differs from everything, itself included. */
  predicate Differs(a: Qty, b: Qty) {
    a.NaN? || b.NaN? || a.n != b.n
  }

  /** `a + b` */
  function Add(a: Qty, b: Qty): Qty {
    if a.NaN? || b.NaN? then NaN else Num(a.n + b.n)
  }

  /** `qs.reduce((sum, q) => sum + q, 0)` */
  function QtySum(qs: seq<Qty>): (r: Qty)
    ensures r.NaN? <==> exists i :: 0 <= i < |qs| && qs[i].NaN?
  {
    if qs == [] then Num(0)
    else
      var r := Add(QtySum(qs[..|qs| - 1]), qs[|qs| - 1]);
      assert forall i :: 0 <= i < |qs| - 1 ==> qs[..|qs| - 1][i] == qs[i];
      r
  }

  /** The integers of a list of quantities none of which is `NaN`. */
  function Numbers(qs: seq<Qty>): (ns: seq<int>)
    requires forall i :: 0 <= i < |qs| ==> qs[i].Num?
    ensures |ns| == |qs| && forall i :: 0 <= i < |qs| ==> ns[i] == qs[i].n
  {
    seq(|qs|, i requires 0 <= i < |qs| => qs[i].n)
  }

  /** Without `NaN`, the running sum is the sum of the integers. */
  lemma {:induction false} QtySumOfNumbers(qs: seq<Qty>)
    requires forall i :: 0 <= i < |qs| ==> qs[i].Num?
    ensures QtySum(qs) == Num(Sum(Numbers(qs)))
  {
    if qs != [] {
      var init := qs[..|qs| - 1];
      QtySumOfNumbers(init);
      assert Numbers(qs) == Numbers(init) + [qs[|qs| - 1].n];
      SumAppend(Numbers(init), [qs[|qs| - 1].n]);
    }
  }

  /** `{ key, value, reference }` of a metaobject field; `value` may be
      `null`, and only reference-typed fields carry a `reference`. */
  datatype Field = Field(key: string, value: Option<string>, reference: Option<Reference>)

  /** The metaobject a reference field points to (a `bin_location`). */
  datatype Reference = Reference(id: string, handle: string, fields: seq<Field>)

  /** A metaobject: a `bin_qty` record, or a `bin_location` search hit. */
  datatype MetaobjectNode = MetaobjectNode(id: string, handle: string, fields: seq<Field>)

  /** One bin's stock of the variant: the `bin_qty` metaobject id, the bin's
      display name, its quantity and the id of the `bin_location` metaobject. */
  datatype StockItem = StockItem(id: string, bin: string, qty: Qty, binLocationId: Option<string>)

  /** A `bin_location` metaobject as the search hook returns it. */
  datatype BinLocation = BinLocation(id: string, handle: Option<string>, title: Option<string>)

  function Quantities(items: seq<StockItem>): (qs: seq<Qty>)
    ensures |qs| == |items| && forall i :: 0 <= i < |items| ==> qs[i] == items[i].qty
  {
    seq(|items|, i requires 0 <= i < |items| => items[i].qty)
  }

  /** `a || b` on an optional string: an absent or empty `a` falls through. */
  function OrElse(a: Option<string>, b: string): (r: string)
    ensures a.Some? && a.value != "" ==> r == a.value
    ensures a.None? || a.value == "" ==> r == b
  {
    if a.Some? && a.value != "" then a.value else b
  }
}
