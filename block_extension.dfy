/** The variant admin block: it lists the variant's bins and lets the
    merchant type a quantity per bin; each edit replaces the block's
    `warehouse_stock` metafield value with the full list of ids and
    quantities. */
module BlockExtension {
  import opened Common
  import opened WarehouseTypes
  import opened Helpers
  import WarehouseStock
  import Text

  /** The block's own node parse. The bin's name falls back from the
      referenced location's `bin_location` field, to the node's own `bin`
      field, to the reference's handle, to the node's handle; the block keeps
      no `binLocationId`. */
  function ParseItem(node: MetaobjectNode): (item: StockItem)
    ensures item.id == node.id && item.binLocationId == None
    ensures item.qty == WarehouseStock.ParseItem(node).qty
    ensures var ref := WarehouseStock.BinRef(node);
            var refName := if ref.Some? then GetFieldValue(ref.value.fields, "bin_location") else None;
      && (Filled(refName) ==> item.bin == refName.value)
      && (!Filled(refName) && Filled(GetFieldValue(node.fields, "bin")) ==> item.bin == GetFieldValue(node.fields, "bin").value)
      && (!Filled(refName) && !Filled(GetFieldValue(node.fields, "bin")) ==>
            item.bin == if ref.Some? && ref.value.handle != "" then ref.value.handle else node.handle)
  {
    var ref := WarehouseStock.BinRef(node);
    var refFields := if ref.Some? then ref.value.fields else [];
    var refHandle := if ref.Some? then Some(ref.value.handle) else None;
    var binName := OrElse(GetFieldValue(refFields, "bin_location"),
                     OrElse(GetFieldValue(node.fields, "bin"), OrElse(refHandle, node.handle)));
    var qty := OrElse(GetFieldValue(node.fields, "qty"), "0");
    StockItem(node.id, binName, QtyOfText(qty), None)
  }

  /** The block and the stock hook agree on a node's bin name whenever the
      node has no `bin` field of its own. */
  lemma SameNameWithoutBinField(node: MetaobjectNode)
    requires !Filled(GetFieldValue(node.fields, "bin"))
    ensures ParseItem(node).bin == WarehouseStock.ParseItem(node).bin
  {
  }

  function ParseItems(nodes: seq<MetaobjectNode>): (items: seq<StockItem>)
    ensures |items| == |nodes| && forall i :: 0 <= i < |nodes| ==> items[i] == ParseItem(nodes[i])
  {
    seq(|nodes|, i requires 0 <= i < |nodes| => ParseItem(nodes[i]))
  }

  /** `parseInt(newValue, 10) || 0`: `NaN` gives 0. The `|| 0` also turns
      `-0` (typed as "-0") into 0, which on integers is no change. */
  function QtyOfInput(text: string): (q: int)
    ensures Text.ParseInt(text).Some? ==> q == Text.ParseInt(text).value
    ensures Text.ParseInt(text).None? ==> q == 0
  {
    Text.ParseInt(text).GetOr(0)
  }

  /** The number field shows `String(item.qty)`; typing that text back gives
      the same quantity. */
  lemma QtyOfInputRoundTrip(n: int)
    requires Exact(Num(n))
    ensures QtyOfInput(Text.IntToString(n)) == n
  {
    Text.ParseIntOfIntToString(n);
  }

  /** `prev.map(item => item.id === id ? { ...item, qty } : item)` */
  function WithQty(items: seq<StockItem>, id: string, qty: int): (r: seq<StockItem>)
    ensures |r| == |items|
    ensures forall i :: 0 <= i < |items| ==>
              r[i] == if items[i].id == id then items[i].(qty := Num(qty)) else items[i]
  {
    seq(|items|, i requires 0 <= i < |items| => if items[i].id == id then items[i].(qty := Num(qty)) else items[i])
  }

  /** A later edit of the same bin overrides an earlier one. */
  lemma {:induction false} LaterEditWins(items: seq<StockItem>, id: string, a: int, b: int)
    ensures WithQty(WithQty(items, id, a), id, b) == WithQty(items, id, b)
  {
    var l := WithQty(WithQty(items, id, a), id, b);
    var r := WithQty(items, id, b);
    assert forall i :: 0 <= i < |items| ==> l[i] == r[i];
  }

  /** Edits of two different bins commute. */
  lemma {:induction false} EditsCommute(items: seq<StockItem>, id1: string, a: int, id2: string, b: int)
    requires id1 != id2
    ensures WithQty(WithQty(items, id1, a), id2, b) == WithQty(WithQty(items, id2, b), id1, a)
  {
    var l := WithQty(WithQty(items, id1, a), id2, b);
    var r := WithQty(WithQty(items, id2, b), id1, a);
    assert forall i :: 0 <= i < |items| ==> l[i] == r[i];
  }

  /** The block's state, and the metafield values it has applied so far. */
  class Block {
    var loading: bool
    var items: seq<StockItem>
    var error: string
    var applied: seq<seq<(string, Qty)>>
    /** Whether the host offers `applyMetafieldChange`. */
    const canApply: bool

    constructor (canApply: bool)
      ensures loading && items == [] && error == "" && applied == [] && this.canApply == canApply
    {
      loading, items, error, applied := true, [], "", [];
      this.canApply := canApply;
    }

    /** `load()` for the selected variant, given what the query does. */
    method Load(variantId: Option<string>, reply: WarehouseStock.QueryReply)
      modifies this
      ensures !loading && applied == old(applied)
      ensures !Filled(variantId) ==> items == [] && error == old(error)
      ensures Filled(variantId) && reply.QueryThrew? ==>
                items == old(items) && error == WarehouseStock.LoadFailedMessage
      ensures Filled(variantId) && reply.Returned? ==>
                && error == ""
                && items == if reply.productVariant.Some?
                            then ParseItems(WarehouseStock.StockNodes(reply.productVariant.value.metafields))
                            else []
    {
      if !Filled(variantId) {
        items := [];
        loading := false;
        return;
      }
      loading := true;
      error := "";
      match reply {
        case QueryThrew =>
          error := WarehouseStock.LoadFailedMessage;
        case Returned(None) =>
          items := [];
        case Returned(Some(v)) =>
          items := ParseItems(WarehouseStock.StockNodes(v.metafields));
      }
      loading := false;
    }

    /** `handleQtyChange(id, newValue)` */
    method HandleQtyChange(id: string, newValue: string)
      modifies this
      ensures items == WithQty(old(items), id, QtyOfInput(newValue))
      ensures applied == old(applied) + if canApply then [WarehouseStock.IdQtyPairs(items)] else []
      ensures loading == old(loading) && error == old(error)
    {
      var newItems := WithQty(items, id, QtyOfInput(newValue));
      if canApply {
        applied := applied + [WarehouseStock.IdQtyPairs(newItems)];
      }
      items := newItems;
    }
  }
}
