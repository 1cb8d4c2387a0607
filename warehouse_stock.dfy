/** `useWarehouseStock`: load a variant's `warehouse_stock` metaobjects
    into stock items, remember each item's quantity as loaded, and pick up the
    inventory item and location ids the save needs. */
module WarehouseStock {
  import opened Common
  import opened WarehouseTypes
  import opened Helpers
  import Text

  /** A metafield of the variant with the nodes of its `references`
      (`None` when `references` is null). */
  datatype Metafield = Metafield(key: string, nodes: Option<seq<MetaobjectNode>>)

  /** The variant's inventory item and the locations of its inventory levels. */
  datatype InventoryItem = InventoryItem(id: string, locationIds: seq<string>)

  datatype VariantData = VariantData(
    title: Option<string>, barcode: Option<string>,
    inventoryItem: Option<InventoryItem>, metafields: seq<Metafield>)

  /** What the variant query does: throw, or answer with a variant or null. */
  datatype QueryReply = QueryThrew | Returned(productVariant: Option<VariantData>)

  const StockKey := "warehouse_stock"
  const LoadFailedMessage := "Failed to load bin locations."

  /** The nodes of the first metafield keyed `warehouse_stock`, or none. */
  function StockNodes(metafields: seq<Metafield>): (nodes: seq<MetaobjectNode>)
    ensures (forall i :: 0 <= i < |metafields| ==> metafields[i].key != StockKey) ==> nodes == []
    ensures forall i ::
              (0 <= i < |metafields| && metafields[i].key == StockKey && forall j :: 0 <= j < i ==> metafields[j].key != StockKey)
              ==> nodes == metafields[i].nodes.GetOr([])
  {
    if metafields == [] then []
    else if metafields[0].key == StockKey then metafields[0].nodes.GetOr([])
    else
      var rest := metafields[1..];
      assert forall i :: 0 <= i < |rest| ==> rest[i] == metafields[i + 1];
      StockNodes(rest)
  }

  /** The `bin_location` a `bin_qty` node points to. */
  function BinRef(node: MetaobjectNode): Option<Reference> {
    FirstReference(node.fields, "bin_location")
  }

  /** A `bin_qty` node as a stock item. The bin's name is the referenced
      location's `bin_location` field, else the reference's handle, else the
      node's own handle; the quantity is the `qty` field read by `parseInt`,
      `"0"` when the field is absent or empty. */
  function ParseItem(node: MetaobjectNode): (item: StockItem)
    ensures item.id == node.id
    ensures item.binLocationId == if BinRef(node).Some? then Some(BinRef(node).value.id) else None
    ensures var ref := BinRef(node);
      && (ref.Some? && Filled(GetFieldValue(ref.value.fields, "bin_location")) ==>
            item.bin == GetFieldValue(ref.value.fields, "bin_location").value)
      && (ref.Some? && !Filled(GetFieldValue(ref.value.fields, "bin_location")) && ref.value.handle != "" ==>
            item.bin == ref.value.handle)
      && (ref.None? || (!Filled(GetFieldValue(ref.value.fields, "bin_location")) && ref.value.handle == "") ==>
            item.bin == node.handle)
  {
    var ref := BinRef(node);
    var refFields := if ref.Some? then ref.value.fields else [];
    var refHandle := if ref.Some? then Some(ref.value.handle) else None;
    var binName := OrElse(GetFieldValue(refFields, "bin_location"), OrElse(refHandle, node.handle));
    var qty := OrElse(GetFieldValue(node.fields, "qty"), "0");
    StockItem(node.id, binName, QtyOfText(qty), if ref.Some? then Some(ref.value.id) else None)
  }

  /** A quantity the service wrote as `String(qty)` reads back unchanged. */
  lemma ParsedQtyReadsBack(node: MetaobjectNode, q: Qty)
    requires GetFieldValue(node.fields, "qty") == Some(QtyText(q))
    requires Exact(q)
    ensures ParseItem(node).qty == q
  {
    QtyTextRoundTrip(q);
  }

  /** A node with no `qty` value, or an empty one, has quantity zero. */
  lemma MissingQtyIsZero(node: MetaobjectNode)
    requires !Filled(GetFieldValue(node.fields, "qty"))
    ensures ParseItem(node).qty == Num(0)
  {
    Text.ParseIntOfNatToString(0);
  }

  /** `nodes.map(...)`: one item per node, in node order. */
  function ParseItems(nodes: seq<MetaobjectNode>): (items: seq<StockItem>)
    ensures |items| == |nodes| && forall i :: 0 <= i < |nodes| ==> items[i] == ParseItem(nodes[i])
  {
    seq(|nodes|, i requires 0 <= i < |nodes| => ParseItem(nodes[i]))
  }

  /** `{ id, qty }` per item, in item order: the entries of the quantity
      map, and the metafield value the block extension applies (its JSON text
      is not modelled). */
  function IdQtyPairs(items: seq<StockItem>): (pairs: seq<(string, Qty)>)
    ensures |pairs| == |items| && forall i :: 0 <= i < |items| ==> pairs[i] == (items[i].id, items[i].qty)
  {
    seq(|items|, i requires 0 <= i < |items| => (items[i].id, items[i].qty))
  }

  /** `Object.fromEntries(items.map(i => [i.id, i.qty]))` */
  function InitialQtyById(items: seq<StockItem>): map<string, Qty> {
    LastWins(IdQtyPairs(items))
  }

  /** The map has an entry for exactly the loaded items' ids. */
  lemma InitialQtyByIdKeys(items: seq<StockItem>, id: string)
    ensures id in InitialQtyById(items) <==> exists i :: 0 <= i < |items| && items[i].id == id
  {
    var pairs := IdQtyPairs(items);
    if id in InitialQtyById(items) {
      assert id in Keys(pairs);
      var i :| 0 <= i < |pairs| && pairs[i].0 == id;
      assert items[i].id == id;
    }
    if exists i :: 0 <= i < |items| && items[i].id == id {
      var i :| 0 <= i < |items| && items[i].id == id;
      assert pairs[i].0 == id;
      assert id in Keys(pairs);
    }
  }

  /** With distinct ids, the map gives every loaded item its own quantity. */
  lemma InitialQtyByIdLookup(items: seq<StockItem>, i: nat)
    requires forall j, k :: 0 <= j < k < |items| ==> items[j].id != items[k].id
    requires i < |items|
    ensures items[i].id in InitialQtyById(items) && InitialQtyById(items)[items[i].id] == items[i].qty
  {
    LastWinsLookup(IdQtyPairs(items), i);
  }

  /** The hook's state. */
  class WarehouseStock {
    var loading: bool
    var items: seq<StockItem>
    var error: string
    var initialQtyById: map<string, Qty>
    var inventoryItemId: Option<string>
    var locationId: Option<string>
    var variantBarcode: Option<string>
    var variantTitle: Option<string>

    constructor ()
      ensures loading && items == [] && error == "" && initialQtyById == map[]
      ensures inventoryItemId == None && locationId == None && variantBarcode == None && variantTitle == None
    {
      loading, items, error, initialQtyById := true, [], "", map[];
      inventoryItemId, locationId, variantBarcode, variantTitle := None, None, None, None;
    }

    /** `load()` for the selected variant, given what the query does. A
        variant without an inventory item, or whose item has no inventory
        level, throws after the items and ids were stored, and leaves
        `locationId` as it was. */
    method Load(variantId: Option<string>, reply: QueryReply)
      modifies this
      ensures !loading
      ensures !Filled(variantId) ==>
        && items == [] && error == old(error) && initialQtyById == old(initialQtyById)
        && inventoryItemId == old(inventoryItemId) && locationId == old(locationId)
        && variantBarcode == old(variantBarcode) && variantTitle == old(variantTitle)
      ensures Filled(variantId) && reply.QueryThrew? ==>
        && error == LoadFailedMessage && items == old(items) && initialQtyById == old(initialQtyById)
        && inventoryItemId == old(inventoryItemId) && locationId == old(locationId)
        && variantBarcode == old(variantBarcode) && variantTitle == old(variantTitle)
      ensures Filled(variantId) && reply == Returned(None) ==>
        && error == "" && items == [] && initialQtyById == old(initialQtyById)
        && inventoryItemId == old(inventoryItemId) && locationId == old(locationId)
        && variantBarcode == old(variantBarcode) && variantTitle == old(variantTitle)
      ensures Filled(variantId) && reply.Returned? && reply.productVariant.Some? ==>
        var v := reply.productVariant.value;
        var inv := v.inventoryItem;
        var located := inv.Some? && inv.value.locationIds != [];
        && items == ParseItems(StockNodes(v.metafields))
        && initialQtyById == InitialQtyById(items)
        && inventoryItemId == (if inv.Some? then Some(inv.value.id) else None)
        && variantBarcode == v.barcode && variantTitle == v.title
        && locationId == (if located then Some(inv.value.locationIds[0]) else old(locationId))
        && error == (if located then "" else LoadFailedMessage)
    {
      if !Filled(variantId) {
        items := [];
        loading := false;
        return;
      }
      loading := true;
      error := "";
      match reply {
        case QueryThrew =>
          error := LoadFailedMessage;
        case Returned(None) =>
          items := [];
        case Returned(Some(v)) =>
          var parsed := ParseItems(StockNodes(v.metafields));
          StoreVariant(v, parsed, InitialQtyById(parsed));
      }
      loading := false;
    }

    /** What `load()` stores of a variant the query found, given its items
        and their quantities as loaded. */
    method StoreVariant(v: VariantData, parsed: seq<StockItem>, initial: map<string, Qty>)
      requires error == ""
      modifies this
      ensures var inv := v.inventoryItem;
              var located := inv.Some? && inv.value.locationIds != [];
        && items == parsed && initialQtyById == initial
        && inventoryItemId == (if inv.Some? then Some(inv.value.id) else None)
        && variantBarcode == v.barcode && variantTitle == v.title
        && locationId == (if located then Some(inv.value.locationIds[0]) else old(locationId))
        && error == (if located then "" else LoadFailedMessage)
    {
      items, initialQtyById := parsed, initial;
      variantBarcode, variantTitle := v.barcode, v.title;
      match v.inventoryItem {
        case None =>
          inventoryItemId, error := None, LoadFailedMessage;
        case Some(inv) =>
          inventoryItemId := Some(inv.id);
          if inv.locationIds != [] {
            locationId := Some(inv.locationIds[0]);
          } else {
            error := LoadFailedMessage;
          }
      }
    }
  }
}
