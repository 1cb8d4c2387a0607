/** The Admin API as the extension's stock service sees it: the `qty` field
    of each `bin_qty` metaobject, Shopify's on-hand quantities, and the
    correction log the extension posts to. Every call is recorded in `calls`.
    The GraphQL replies are fixed when the store is created; a reply is
    accepted when `validateResponse` lets it through. */
module AdminApi {
  import opened Common
  import opened WarehouseTypes
  import opened Helpers

  /** A correction row of the stock-movement log. The row has no title:
      a `variantTitle` passed to `logCorrectionMovement` is not sent. */
  datatype CorrectionLog = CorrectionLog(
    barcode: Option<string>, destinationLocation: string, destinationQty: Qty, user: Option<string>)

  /** A remote call, as issued. */
  datatype Call =
    | UpdateQtyField(id: string, value: string)
    | SetQuantity(inventoryItemId: string, locationId: string, quantity: Qty)
    | LogCorrection(entry: CorrectionLog)

  const CleanReply := GqlReply([], None)

  /** The correction rows among a list of calls, in order. */
  function CorrectionsIn(calls: seq<Call>): seq<CorrectionLog> {
    if calls == [] then []
    else
      var last := calls[|calls| - 1];
      CorrectionsIn(calls[..|calls| - 1]) + if last.LogCorrection? then [last.entry] else []
  }

  lemma CorrectionsInSnoc(calls: seq<Call>, c: Call)
    ensures CorrectionsIn(calls + [c]) == CorrectionsIn(calls) + if c.LogCorrection? then [c.entry] else []
  {
    assert (calls + [c])[..|calls|] == calls;
  }

  class Admin {
    /** The `qty` field text of each `bin_qty` metaobject, by id. */
    var qtyFields: map<string, string>
    /** Shopify's on-hand quantity per (inventory item, location). */
    var onHand: map<(string, string), Qty>
    /** The correction rows posted so far. */
    var corrections: seq<CorrectionLog>
    /** Every remote call issued so far, in order. */
    var calls: seq<Call>

    /** The reply to `metaobjectUpdate` per metaobject id; an id not listed
        gets a clean reply. */
    const updateReplies: map<string, GqlReply>
    /** The reply to `inventorySetQuantities` with a number. */
    const inventoryReply: GqlReply
    /** The GraphQL error the API answers a `null` quantity with: a `NaN`
        sum is sent as `null`, which the non-null `quantity` refuses. */
    const nullQuantityError: string

    /** The correction log holds exactly the rows of the log calls issued. */
    predicate Valid()
      reads this
    {
      corrections == CorrectionsIn(calls)
    }

    constructor (qtyFields: map<string, string>, onHand: map<(string, string), Qty>,
                 updateReplies: map<string, GqlReply>, inventoryReply: GqlReply, nullQuantityError: string)
      ensures this.qtyFields == qtyFields && this.onHand == onHand && corrections == [] && calls == []
      ensures this.updateReplies == updateReplies && this.inventoryReply == inventoryReply
      ensures this.nullQuantityError == nullQuantityError
      ensures Valid()
    {
      this.qtyFields, this.onHand, this.corrections, this.calls := qtyFields, onHand, [], [];
      this.updateReplies, this.inventoryReply, this.nullQuantityError := updateReplies, inventoryReply, nullQuantityError;
    }

    function UpdateReply(id: string): GqlReply {
      if id in updateReplies then updateReplies[id] else CleanReply
    }

    /** Whether a `metaobjectUpdate` of the metaobject is accepted. */
    function UpdateResult(id: string): (o: Outcome)
      ensures id !in updateReplies ==> o == Pass
    {
      CleanReplyPasses(CleanReply);
      ValidateResponse(UpdateReply(id))
    }

    /** Whether `inventorySetQuantities` with the quantity is accepted: never
        for `NaN`, otherwise as its reply says. */
    function SyncResult(quantity: Qty): (o: Outcome)
      ensures quantity.NaN? ==> o.Fail?
    {
      if quantity.NaN? then Fail(nullQuantityError) else ValidateResponse(inventoryReply)
    }

    /** `query(METAOBJECT_UPDATE_MUTATION, { id, fields: [{ key: "qty",
        value }] })` followed by `validateResponse`. */
    method UpdateQtyField(id: string, value: string) returns (o: Outcome)
      requires Valid()
      modifies this
      ensures Valid()
      ensures o == UpdateResult(id)
      ensures calls == old(calls) + [Call.UpdateQtyField(id, value)]
      ensures qtyFields == if o.Pass? then old(qtyFields)[id := value] else old(qtyFields)
      ensures onHand == old(onHand) && corrections == old(corrections)
    {
      o := UpdateResult(id);
      CorrectionsInSnoc(calls, Call.UpdateQtyField(id, value));
      calls := calls + [Call.UpdateQtyField(id, value)];
      if o.Pass? {
        qtyFields := qtyFields[id := value];
      }
    }

    /** `query(INVENTORY_SET_QUANTITIES_MUTATION, ...)` followed by
        `validateResponse`. */
    method SetQuantity(inventoryItemId: string, locationId: string, quantity: Qty) returns (o: Outcome)
      requires Valid()
      modifies this
      ensures Valid()
      ensures o == SyncResult(quantity) && (o.Pass? ==> quantity.Num?)
      ensures calls == old(calls) + [Call.SetQuantity(inventoryItemId, locationId, quantity)]
      ensures onHand == if o.Pass? then old(onHand)[(inventoryItemId, locationId) := quantity] else old(onHand)
      ensures qtyFields == old(qtyFields) && corrections == old(corrections)
    {
      o := SyncResult(quantity);
      CorrectionsInSnoc(calls, Call.SetQuantity(inventoryItemId, locationId, quantity));
      calls := calls + [Call.SetQuantity(inventoryItemId, locationId, quantity)];
      if o.Pass? {
        onHand := onHand[(inventoryItemId, locationId) := quantity];
      }
    }

    /** `logCorrectionMovement(input)`: a failed post is only reported on the
        console, so for the caller the call always completes. */
    method LogCorrectionMovement(entry: CorrectionLog)
      requires Valid()
      modifies this
      ensures Valid()
      ensures calls == old(calls) + [LogCorrection(entry)]
      ensures corrections == old(corrections) + [entry]
      ensures qtyFields == old(qtyFields) && onHand == old(onHand)
    {
      CorrectionsInSnoc(calls, LogCorrection(entry));
      calls := calls + [LogCorrection(entry)];
      corrections := corrections + [entry];
    }
  }
}
