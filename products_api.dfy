/** The post-processing of `ProductsApi.findBinQtyByBarcode`: the query asks
    for at most two variants with the barcode, and the `warehouse_stock`
    references of the first one become `{ binLocation, qty }` entries. The
    query itself is an input. */
module ProductsApi {
  import opened Common
  import Text

  /** A `{ key, value }` field of a referenced metaobject. */
  datatype KeyValue = KeyValue(key: string, value: string)

  /** A variant edge: the field lists of its metafield's references, absent
      when the metafield or its references are. */
  datatype VariantNode = VariantNode(references: Option<seq<seq<KeyValue>>>)

  datatype BinQty = BinQty(binLocation: string, qty: int)

  datatype BinQtyResult = BinQtyResult(entries: seq<BinQty>, variantCount: nat)

  /** `fields.find(field => field.key === key)?.value` */
  function FindValue(fields: seq<KeyValue>, key: string): (r: Option<string>)
    ensures (forall i :: 0 <= i < |fields| ==> fields[i].key != key) <==> r.None?
    ensures forall i ::
              (0 <= i < |fields| && fields[i].key == key && forall j :: 0 <= j < i ==> fields[j].key != key)
              ==> r == Some(fields[i].value)
  {
    if fields == [] then None
    else if fields[0].key == key then Some(fields[0].value)
    else FindValue(fields[1..], key)
  }

  /** `a ?? b ?? fallback`: only a missing field falls through; a present
      empty value does not. */
  function Coalesce(a: Option<string>, b: Option<string>, fallback: string): (r: string)
    ensures a.Some? ==> r == a.value
    ensures a.None? && b.Some? ==> r == b.value
    ensures a.None? && b.None? ==> r == fallback
  {
    a.GetOr(b.GetOr(fallback))
  }

  function BinLocationOf(fields: seq<KeyValue>): string {
    Coalesce(FindValue(fields, "bin_location"), FindValue(fields, "binLocation"), "")
  }

  /** `Number.parseFloat(qtyRaw)` kept only when finite, else `0`: text with
      no number is `NaN`, and digits worth `Text.DoubleOverflow` or more, of
      either sign, are infinite. */
  function QtyOf(fields: seq<KeyValue>): (q: int)
    ensures var raw := Coalesce(FindValue(fields, "qty"), FindValue(fields, "Qty"), "0");
      && (Text.ParseInt(raw).Some? && -Text.DoubleOverflow < Text.ParseInt(raw).value < Text.DoubleOverflow ==>
            q == Text.ParseInt(raw).value)
      && ((Text.ParseInt(raw).None? || Text.ParseInt(raw).value <= -Text.DoubleOverflow
           || Text.ParseInt(raw).value >= Text.DoubleOverflow) ==> q == 0)
  {
    var raw := Coalesce(FindValue(fields, "qty"), FindValue(fields, "Qty"), "0");
    match Text.ParseInt(raw)
    case None => 0
    case Some(n) => if -Text.DoubleOverflow < n < Text.DoubleOverflow then n else 0
  }

  /** One reference's entry, or `null` when its bin name is empty. */
  function ParseEntry(fields: seq<KeyValue>): (e: Option<BinQty>)
    ensures e.None? <==> BinLocationOf(fields) == ""
    ensures e.Some? ==> e.value == BinQty(BinLocationOf(fields), QtyOf(fields))
  {
    var binLocation := BinLocationOf(fields);
    if binLocation == "" then None else Some(BinQty(binLocation, QtyOf(fields)))
  }

  /** A reference with no qty field reads as 0. */
  lemma MissingQtyIsZero(fields: seq<KeyValue>)
    requires forall i :: 0 <= i < |fields| ==> fields[i].key != "qty" && fields[i].key != "Qty"
    ensures QtyOf(fields) == 0
  {
    assert FindValue(fields, "qty").None? && FindValue(fields, "Qty").None?;
    Text.ParseIntOfNatToString(0);
    assert Text.NatToString(0) == "0";
  }

  /** An empty `bin_location` value hides any `binLocation` field: the
      reference is dropped whatever else it holds. */
  lemma EmptyBinLocationShadows(fields: seq<KeyValue>)
    requires FindValue(fields, "bin_location") == Some("")
    ensures ParseEntry(fields).None?
  {
  }

  /** The `map` over the references. */
  function Parsed(refs: seq<seq<KeyValue>>): (ps: seq<Option<BinQty>>)
    ensures |ps| == |refs| && forall i :: 0 <= i < |refs| ==> ps[i] == ParseEntry(refs[i])
  {
    seq(|refs|, i requires 0 <= i < |refs| => ParseEntry(refs[i]))
  }

  /** The `filter` of the non-null entries, in order. */
  function Present<T>(opts: seq<Option<T>>): (xs: seq<T>)
    ensures |xs| <= |opts|
  {
    if opts == [] then []
    else Present(opts[..|opts| - 1]) + if opts[|opts| - 1].Some? then [opts[|opts| - 1].value] else []
  }

  /** The filter keeps exactly the present values. */
  lemma {:induction false} PresentMembership<T>(opts: seq<Option<T>>, x: T)
    ensures x in Present(opts) <==> exists i :: 0 <= i < |opts| && opts[i] == Some(x)
  {
    if opts != [] {
      var prefix := opts[..|opts| - 1];
      PresentMembership(prefix, x);
      if x in Present(prefix) {
        var i :| 0 <= i < |prefix| && prefix[i] == Some(x);
        assert opts[i] == Some(x);
      } else if exists i :: 0 <= i < |opts| && opts[i] == Some(x) {
        var i :| 0 <= i < |opts| && opts[i] == Some(x);
        if i < |prefix| {
          assert prefix[i] == Some(x);
        }
      }
    }
  }

  /** The filter keeps the order: filtering a concatenation concatenates
      the filtered parts. */
  lemma {:induction false} PresentAppend<T>(a: seq<Option<T>>, b: seq<Option<T>>)
    ensures Present(a + b) == Present(a) + Present(b)
  {
    if b == [] {
      assert a + b == a;
    } else {
      var b' := b[..|b| - 1];
      assert (a + b)[..|a + b| - 1] == a + b';
      assert (a + b)[|a + b| - 1] == b[|b| - 1];
      PresentAppend(a, b');
    }
  }

  /** `metaEdges.map(...).filter(entry => entry !== null)` */
  function Entries(refs: seq<seq<KeyValue>>): (es: seq<BinQty>)
    ensures |es| <= |refs|
  {
    Present(Parsed(refs))
  }

  /** An entry is exactly what some reference with a bin name parses to, so
      no entry has an empty bin name. */
  lemma EntriesMembership(refs: seq<seq<KeyValue>>, e: BinQty)
    ensures e in Entries(refs) <==> exists i :: 0 <= i < |refs| && ParseEntry(refs[i]) == Some(e)
    ensures e in Entries(refs) ==> e.binLocation != ""
  {
    PresentMembership(Parsed(refs), e);
  }

  /** The entries keep the references' order. */
  lemma EntriesAppend(a: seq<seq<KeyValue>>, b: seq<seq<KeyValue>>)
    ensures Entries(a + b) == Entries(a) + Entries(b)
  {
    var whole, parts := Parsed(a + b), Parsed(a) + Parsed(b);
    forall i | 0 <= i < |a + b|
      ensures whole[i] == parts[i]
    {
      if i < |a| {
        assert (a + b)[i] == a[i];
      } else {
        assert (a + b)[i] == b[i - |a|];
      }
    }
    assert whole == parts;
    PresentAppend(Parsed(a), Parsed(b));
  }

  /** `findBinQtyByBarcode` once the query has answered with `edges`. */
  function FindBinQty(edges: seq<VariantNode>): (r: BinQtyResult)
    ensures r.variantCount == |edges|
    ensures edges == [] ==> r.entries == []
    ensures edges != [] ==> r.entries == Entries(edges[0].references.GetOr([]))
  {
    var refs := if edges == [] then [] else edges[0].references.GetOr([]);
    BinQtyResult(Entries(refs), |edges|)
  }

  /** Only the first variant counts: the references of a second one never
      reach the entries. */
  lemma FirstVariantOnly(first: VariantNode, second: VariantNode, other: VariantNode)
    ensures FindBinQty([first, second]).entries == FindBinQty([first, other]).entries
  {
  }
}
