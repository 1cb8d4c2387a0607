/** The remote services the scanning app's server actions call, seen as one
    store with a failure oracle: Shopify's `bin_qty` metaobjects, its on-hand
    inventory, and the stock-movement log in the database. Each remote call
    is recorded in `calls`, so that contracts can speak of the order in which
    calls are issued. Which calls fail is fixed when the store is created
    (`binRejections`, `syncError`); the outcome rules are those of the
    wrappers `UpdateBinQtyByID` and `syncShopifyInventory`. */
module ServerApi {
  import opened Common

  /** A row of the stock-movement log written for a move between bins. */
  datatype MoveLog = MoveLog(
    barcode: Option<string>, variantTitle: Option<string>,
    srcLocation: string, srcQty: int,
    destinationLocation: string, destinationQty: int,
    user: Option<string>)

  /** A remote call, as issued. */
  datatype Call =
    | UpdateBinQty(id: string, qty: int)
    | SetOnHand(inventoryItemId: string, locationId: string, qty: int)
    | LogMove(entry: MoveLog)

  const BinUpdateFallback := "Failed to update bin quantity"

  class Shop {
    /** Quantity of each `bin_qty` metaobject, by id. */
    var bins: map<string, int>
    /** Shopify's on-hand quantity per (inventory item, location). */
    var onHand: map<(string, string), int>
    /** The stock-movement log. */
    var log: seq<MoveLog>
    /** Every remote call issued so far, in order. */
    var calls: seq<Call>

    /** Metaobject ids whose update comes back without a metaobject or with a
        user error, mapped to the first user error's message (`""` when
        there is none). */
    const binRejections: map<string, string>
    /** The first user error `inventorySetQuantities` answers with, if any. */
    const syncError: Option<string>

    constructor (bins: map<string, int>, onHand: map<(string, string), int>,
                 binRejections: map<string, string>, syncError: Option<string>)
      ensures this.bins == bins && this.onHand == onHand && log == [] && calls == []
      ensures this.binRejections == binRejections && this.syncError == syncError
    {
      this.bins, this.onHand, this.log, this.calls := bins, onHand, [], [];
      this.binRejections, this.syncError := binRejections, syncError;
    }

    /** The outcome `UpdateBinQtyByID(id, qty)` reports: a failure carries
        the user error, or a fixed message when the metaobject is missing. */
    function BinUpdateResult(id: string): (o: Outcome)
      ensures o.Fail? <==> id in binRejections
      ensures o.Fail? ==> o.message != ""
    {
      if id !in binRejections then Pass
      else if binRejections[id] == "" then Fail(BinUpdateFallback)
      else Fail(binRejections[id])
    }

    /** The outcome `syncShopifyInventory` reports: only a non-empty user
        error counts as a failure. */
    function SyncResult(): (o: Outcome)
      ensures o.Fail? <==> syncError.Some? && syncError.value != ""
    {
      if syncError.Some? && syncError.value != "" then Fail(syncError.value) else Pass
    }

    /** `UpdateBinQtyByID(id, qty)` */
    method UpdateBinQtyById(id: string, qty: int) returns (o: Outcome)
      modifies this
      ensures o == BinUpdateResult(id)
      ensures calls == old(calls) + [UpdateBinQty(id, qty)]
      ensures bins == if o.Pass? then old(bins)[id := qty] else old(bins)
      ensures onHand == old(onHand) && log == old(log)
    {
      o := BinUpdateResult(id);
      calls := calls + [UpdateBinQty(id, qty)];
      if o.Pass? {
        bins := bins[id := qty];
      }
    }

    /** `syncShopifyInventory(inventoryItemId, locationId, onHandQty)` */
    method SyncShopifyInventory(inventoryItemId: string, locationId: string, qty: int) returns (o: Outcome)
      modifies this
      ensures o == SyncResult()
      ensures calls == old(calls) + [SetOnHand(inventoryItemId, locationId, qty)]
      ensures onHand == if o.Pass? then old(onHand)[(inventoryItemId, locationId) := qty] else old(onHand)
      ensures bins == old(bins) && log == old(log)
    {
      o := SyncResult();
      calls := calls + [SetOnHand(inventoryItemId, locationId, qty)];
      if o.Pass? {
        onHand := onHand[(inventoryItemId, locationId) := qty];
      }
    }

    /** `logMoveMovement(entry)` */
    method LogMoveMovement(entry: MoveLog)
      modifies this
      ensures calls == old(calls) + [LogMove(entry)]
      ensures log == old(log) + [entry]
      ensures bins == old(bins) && onHand == old(onHand)
    {
      calls := calls + [LogMove(entry)];
      log := log + [entry];
    }
  }
}
