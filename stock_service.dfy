/** The extension's `saveStock`: write back the edited quantities, then
    optionally set the quantity of one more linked bin, then set Shopify's
    on-hand quantity to the sum of the bins. */
module StockService {
  import opened Common
  import opened WarehouseTypes
  import opened Helpers
  import opened AdminApi
  import WarehouseStock
  import Text

  /** What every correction row of one save carries besides the bin. */
  datatype LogContext = LogContext(barcode: Option<string>, user: Option<string>)

  /** The inputs of `saveStock`; the user's e-mail, looked up from the
      session token, is passed separately. */
  datatype SaveStockParams = SaveStockParams(
    items: seq<StockItem>, initialQtyById: map<string, Qty>,
    isAdding: bool, draftQty: string, draftQuery: string, selectedBin: Option<BinLocation>,
    inventoryItemId: Option<string>, locationId: Option<string>,
    variantTitle: Option<string>, variantBarcode: Option<string>)

  const NoBinMessage := "Please type and select a bin location."
  const InvalidQtyMessage := "Please enter a valid quantity."

  function NotSelectedMessage(trimmedQuery: string): string {
    "\"" + trimmedQuery + "\" is not selected. Please choose a bin location from the suggestions."
  }

  function NotLinkedMessage(trimmedQuery: string): string {
    "This bin location: \"" + trimmedQuery + "\" is not yet linked to this variant."
  }

  // ------------------------------------------------------------ dirty items

  /** `item.qty !== (initialQtyById[item.id] ?? item.qty)` */
  predicate IsDirty(item: StockItem, initial: map<string, Qty>) {
    Differs(item.qty, if item.id in initial then initial[item.id] else item.qty)
  }

  /** The items to write back, in list order: those whose quantity differs
      from the loaded one, and those whose quantity is `NaN`, which differs
      even from itself. An item with a number and no loaded entry is never
      dirty. */
  function DirtyItems(items: seq<StockItem>, initial: map<string, Qty>): (r: seq<StockItem>)
    ensures |r| <= |items|
    ensures forall it :: it in r <==>
              it in items && (it.qty.NaN? || (it.id in initial && Differs(it.qty, initial[it.id])))
  {
    if items == [] then []
    else (if IsDirty(items[0], initial) then [items[0]] else []) + DirtyItems(items[1..], initial)
  }

  /** Saving what was just loaded writes nothing back, unless some quantity
      is `NaN` (ids being unique). */
  lemma NoEditsNothingDirty(items: seq<StockItem>)
    requires forall j, k :: 0 <= j < k < |items| ==> items[j].id != items[k].id
    requires forall j :: 0 <= j < |items| ==> items[j].qty.Num?
    ensures DirtyItems(items, WarehouseStock.InitialQtyById(items)) == []
  {
    var initial := WarehouseStock.InitialQtyById(items);
    forall i | 0 <= i < |items| ensures !IsDirty(items[i], initial) {
      WarehouseStock.InitialQtyByIdLookup(items, i);
    }
  }

  function Correction(ctx: LogContext, bin: string, qty: Qty): CorrectionLog {
    CorrectionLog(ctx.barcode, bin, qty, ctx.user)
  }

  /** The calls the write-back of one dirty item issues: the `qty` update,
      then, if it was accepted, its correction row. */
  function ItemCalls(admin: Admin, item: StockItem, ctx: LogContext): seq<Call> {
    [UpdateQtyField(item.id, QtyText(item.qty))]
    + if admin.UpdateResult(item.id).Pass? then [LogCorrection(Correction(ctx, item.bin, item.qty))] else []
  }

  /** The calls of the whole write-back, item after item. */
  function DirtyCalls(admin: Admin, dirty: seq<StockItem>, ctx: LogContext): seq<Call> {
    if dirty == [] then []
    else DirtyCalls(admin, dirty[..|dirty| - 1], ctx) + ItemCalls(admin, dirty[|dirty| - 1], ctx)
  }

  /** The `qty` fields after the accepted writes of the write-back. */
  function FieldsAfter(admin: Admin, fields: map<string, string>, dirty: seq<StockItem>): map<string, string> {
    if dirty == [] then fields
    else
      var last := dirty[|dirty| - 1];
      var before := FieldsAfter(admin, fields, dirty[..|dirty| - 1]);
      if admin.UpdateResult(last.id).Pass? then before[last.id := QtyText(last.qty)] else before
  }

  /** The error the write-back throws: that of the first rejected item. */
  function FirstFailure(admin: Admin, dirty: seq<StockItem>): Option<string> {
    if dirty == [] then None
    else
      var first := FirstFailure(admin, dirty[..|dirty| - 1]);
      var last := dirty[|dirty| - 1];
      if first.Some? then first
      else if admin.UpdateResult(last.id).Fail? then Some(admin.UpdateResult(last.id).message)
      else None
  }

  /** The write-back reports no error exactly when every update is
      accepted, and an error it reports is that of a rejected item. */
  lemma {:induction false} FirstFailureSpec(admin: Admin, dirty: seq<StockItem>)
    ensures FirstFailure(admin, dirty).None? <==> forall i :: 0 <= i < |dirty| ==> admin.UpdateResult(dirty[i].id).Pass?
    ensures FirstFailure(admin, dirty).Some? ==>
              exists i :: 0 <= i < |dirty| && admin.UpdateResult(dirty[i].id) == Fail(FirstFailure(admin, dirty).value)
  {
    if dirty != [] {
      var init := dirty[..|dirty| - 1];
      FirstFailureSpec(admin, init);
      assert forall i :: 0 <= i < |init| ==> init[i] == dirty[i];
      if FirstFailure(admin, init).Some? {
        var i :| 0 <= i < |init| && admin.UpdateResult(init[i].id) == Fail(FirstFailure(admin, init).value);
        assert admin.UpdateResult(dirty[i].id) == Fail(FirstFailure(admin, dirty).value);
      } else if admin.UpdateResult(dirty[|dirty| - 1].id).Fail? {
        assert admin.UpdateResult(dirty[|dirty| - 1].id) == Fail(FirstFailure(admin, dirty).value);
      }
    }
  }

  /** The metaobject updates among a list of calls, in order. */
  function UpdatesIn(calls: seq<Call>): seq<Call> {
    if calls == [] then []
    else
      var last := calls[|calls| - 1];
      UpdatesIn(calls[..|calls| - 1]) + if last.UpdateQtyField? then [last] else []
  }

  lemma {:induction false} UpdatesInAppend(a: seq<Call>, b: seq<Call>)
    ensures UpdatesIn(a + b) == UpdatesIn(a) + UpdatesIn(b)
  {
    if b == [] {
      assert a + b == a;
    } else {
      var b' := b[..|b| - 1];
      assert (a + b)[..|a + b| - 1] == a + b';
      UpdatesInAppend(a, b');
    }
  }

  /** One `qty` update per item, carrying its current quantity as text. */
  function QtyWrites(items: seq<StockItem>): (ws: seq<Call>)
    ensures |ws| == |items|
  {
    seq(|items|, i requires 0 <= i < |items| => UpdateQtyField(items[i].id, QtyText(items[i].qty)))
  }

  /** Every dirty item gets exactly one `qty` update, whether or not it is
      accepted, in list order and with its current quantity; the write-back
      issues no other update. */
  lemma {:induction false} OneWritePerDirtyItem(admin: Admin, dirty: seq<StockItem>, ctx: LogContext)
    ensures UpdatesIn(DirtyCalls(admin, dirty, ctx)) == QtyWrites(dirty)
  {
    if dirty != [] {
      var init := dirty[..|dirty| - 1];
      var last := dirty[|dirty| - 1];
      OneWritePerDirtyItem(admin, init, ctx);
      UpdatesInAppend(DirtyCalls(admin, init, ctx), ItemCalls(admin, last, ctx));
      ItemUpdates(admin, last, ctx);
      QtyWritesSnoc(dirty);
    }
  }

  /** One item's calls hold exactly its own `qty` update. */
  lemma ItemUpdates(admin: Admin, item: StockItem, ctx: LogContext)
    ensures UpdatesIn(ItemCalls(admin, item, ctx)) == [UpdateQtyField(item.id, QtyText(item.qty))]
  {
    var u := [UpdateQtyField(item.id, QtyText(item.qty))];
    assert UpdatesIn(u) == u by { assert u[..0] == []; }
    if admin.UpdateResult(item.id).Pass? {
      var l := [LogCorrection(Correction(ctx, item.bin, item.qty))];
      UpdatesInAppend(u, l);
      assert UpdatesIn(l) == [] by { assert l[..0] == []; }
    } else {
      assert ItemCalls(admin, item, ctx) == u;
    }
  }

  lemma QtyWritesSnoc(items: seq<StockItem>)
    requires items != []
    ensures var last := items[|items| - 1];
      QtyWrites(items) == QtyWrites(items[..|items| - 1]) + [UpdateQtyField(last.id, QtyText(last.qty))]
  {
  }

  /** After the write-back, the `qty` field of every accepted item reads back
      as the item's quantity (ids being unique). */
  lemma {:induction false} AcceptedWritesReadBack(admin: Admin, fields: map<string, string>, dirty: seq<StockItem>, k: nat)
    requires forall i, j :: 0 <= i < j < |dirty| ==> dirty[i].id != dirty[j].id
    requires k < |dirty| && admin.UpdateResult(dirty[k].id).Pass?
    requires Exact(dirty[k].qty)
    ensures dirty[k].id in FieldsAfter(admin, fields, dirty)
    ensures QtyOfText(FieldsAfter(admin, fields, dirty)[dirty[k].id]) == dirty[k].qty
  {
    if k < |dirty| - 1 {
      var init := dirty[..|dirty| - 1];
      assert init[k] == dirty[k];
      AcceptedWritesReadBack(admin, fields, init, k);
    } else {
      QtyTextRoundTrip(dirty[k].qty);
    }
  }

  /** How the write-back functions extend by one more item. */
  lemma {:induction false} WriteBackStep(admin: Admin, fields: map<string, string>, done: seq<StockItem>, item: StockItem, ctx: LogContext)
    ensures var next := done + [item];
      && DirtyCalls(admin, next, ctx) == DirtyCalls(admin, done, ctx) + ItemCalls(admin, item, ctx)
      && FieldsAfter(admin, fields, next)
         == (if admin.UpdateResult(item.id).Pass? then FieldsAfter(admin, fields, done)[item.id := QtyText(item.qty)]
             else FieldsAfter(admin, fields, done))
      && FirstFailure(admin, next)
         == (if FirstFailure(admin, done).Some? then FirstFailure(admin, done)
             else if admin.UpdateResult(item.id).Fail? then Some(admin.UpdateResult(item.id).message)
             else None)
  {
    var next := done + [item];
    assert next[..|next| - 1] == done && next[|next| - 1] == item;
  }

  /** The write-back of one dirty item: its `qty` update, then, if accepted,
      its correction row. */
  method WriteBackItem(admin: Admin, item: StockItem, ctx: LogContext) returns (o: Outcome)
    requires admin.Valid()
    modifies admin
    ensures admin.Valid()
    ensures o == admin.UpdateResult(item.id)
    ensures admin.calls == old(admin.calls) + ItemCalls(admin, item, ctx)
    ensures admin.qtyFields == if o.Pass? then old(admin.qtyFields)[item.id := QtyText(item.qty)] else old(admin.qtyFields)
    ensures admin.onHand == old(admin.onHand)
  {
    o := admin.UpdateQtyField(item.id, QtyText(item.qty));
    if o.Pass? {
      admin.LogCorrectionMovement(Correction(ctx, item.bin, item.qty));
    }
  }

  /** One round of the write-back loop: the write-back of `item`, with the
      calls, fields and reported error of the items `done` before it
      extended by it. */
  method WriteBackNext(admin: Admin, ghost fields: map<string, string>, ghost calls0: seq<Call>,
                       ghost done: seq<StockItem>, item: StockItem, ctx: LogContext, failure: Option<string>)
    returns (failure': Option<string>)
    requires admin.Valid()
    requires failure == FirstFailure(admin, done)
    requires admin.calls == calls0 + DirtyCalls(admin, done, ctx)
    requires admin.qtyFields == FieldsAfter(admin, fields, done)
    modifies admin
    ensures admin.Valid()
    ensures failure' == FirstFailure(admin, done + [item])
    ensures admin.calls == calls0 + DirtyCalls(admin, done + [item], ctx)
    ensures admin.qtyFields == FieldsAfter(admin, fields, done + [item])
    ensures admin.onHand == old(admin.onHand)
  {
    ghost var before := DirtyCalls(admin, done, ctx);
    var o := WriteBackItem(admin, item, ctx);
    failure' := if o.Fail? && failure.None? then Some(o.message) else failure;
    WriteBackStep(admin, fields, done, item, ctx);
    assert calls0 + before + ItemCalls(admin, item, ctx) == calls0 + (before + ItemCalls(admin, item, ctx));
  }

  /** The write-back of the dirty items. All updates are issued; each
      accepted one is followed by its correction row; the error of the first
      rejected item, in list order, is reported at the end. */
  method UpdateDirtyItems(admin: Admin, dirty: seq<StockItem>, ctx: LogContext) returns (failure: Option<string>)
    requires admin.Valid()
    modifies admin
    ensures admin.Valid()
    ensures failure == FirstFailure(admin, dirty)
    ensures admin.calls == old(admin.calls) + DirtyCalls(admin, dirty, ctx)
    ensures admin.qtyFields == FieldsAfter(admin, old(admin.qtyFields), dirty)
    ensures admin.onHand == old(admin.onHand)
  {
    ghost var fields, calls0 := admin.qtyFields, admin.calls;
    failure := None;
    var i := 0;
    while i < |dirty|
      invariant 0 <= i <= |dirty|
      invariant admin.Valid()
      invariant failure == FirstFailure(admin, dirty[..i])
      invariant admin.calls == calls0 + DirtyCalls(admin, dirty[..i], ctx)
      invariant admin.qtyFields == FieldsAfter(admin, fields, dirty[..i])
      invariant admin.onHand == old(admin.onHand)
    {
      failure := WriteBackNext(admin, fields, calls0, dirty[..i], dirty[i], ctx, failure);
      assert dirty[..i] + [dirty[i]] == dirty[..i + 1];
      i := i + 1;
    }
    assert dirty[..i] == dirty;
  }

  // ---------------------------------------------------------------- add bin

  /** `items.findIndex(i => i.binLocationId === binId)` */
  function FindBinIndex(items: seq<StockItem>, binId: string): (r: Option<nat>)
    ensures r.None? <==> forall i :: 0 <= i < |items| ==> items[i].binLocationId != Some(binId)
    ensures r.Some? ==>
              && r.value < |items| && items[r.value].binLocationId == Some(binId)
              && forall j :: 0 <= j < r.value ==> items[j].binLocationId != Some(binId)
  {
    if items == [] then None
    else if items[0].binLocationId == Some(binId) then Some(0)
    else match FindBinIndex(items[1..], binId) {
      case None => None
      case Some(k) => Some(k + 1)
    }
  }

  /** Which item the "add bin" form sets, and to what quantity. */
  datatype AddBin = AddBin(index: nat, qty: nat)

  /** The typed quantity when `parseInt` reads it as a finite number of zero
      or more: no digits give `NaN`, and digits worth `Text.DoubleOverflow` or
      more give `Infinity`; both are refused. */
  function ParsedQty(draftQty: string): (q: Option<nat>)
    ensures q.Some? <==> Text.ParseInt(draftQty).Some? && 0 <= Text.ParseInt(draftQty).value < Text.DoubleOverflow
    ensures q.Some? ==> q.value == Text.ParseInt(draftQty).value
  {
    match Text.ParseInt(draftQty) {
      case None => None
      case Some(n) => if 0 <= n < Text.DoubleOverflow then Some(n) else None
    }
  }

  /** The checks of the "add bin" form, in the order the service makes them:
      a bin must be selected, the typed quantity must read as a finite whole
      number of zero or more, and the bin must already be linked to the
      variant. */
  function AddBinTarget(items: seq<StockItem>, draftQty: string, draftQuery: string, selectedBin: Option<BinLocation>): (r: Result<AddBin>)
    ensures selectedBin.None? ==>
              r == Err(if Text.Trim(draftQuery) == "" then NoBinMessage else NotSelectedMessage(Text.Trim(draftQuery)))
    ensures selectedBin.Some? && ParsedQty(draftQty).None? ==> r == Err(InvalidQtyMessage)
    ensures selectedBin.Some? && ParsedQty(draftQty).Some? && FindBinIndex(items, selectedBin.value.id).None? ==>
              r == Err(NotLinkedMessage(Text.Trim(draftQuery)))
    ensures r.Ok? ==>
              && selectedBin.Some? && ParsedQty(draftQty) == Some(r.value.qty)
              && FindBinIndex(items, selectedBin.value.id) == Some(r.value.index)
  {
    var trimmedQuery := Text.Trim(draftQuery);
    if selectedBin.None? then
      Err(if trimmedQuery == "" then NoBinMessage else NotSelectedMessage(trimmedQuery))
    else
      match ParsedQty(draftQty) {
        case None => Err(InvalidQtyMessage)
        case Some(qtyNum) =>
          match FindBinIndex(items, selectedBin.value.id) {
            case None => Err(NotLinkedMessage(trimmedQuery))
            case Some(index) => Ok(AddBin(index, qtyNum))
          }
      }
  }

  /** Digits too many for a double read as `Infinity`, which the form
      refuses like any other invalid quantity. */
  lemma OverflowingQtyRefused(items: seq<StockItem>, draftQty: string, draftQuery: string, selectedBin: Option<BinLocation>)
    requires selectedBin.Some? && Text.ParseInt(draftQty).Some? && Text.ParseInt(draftQty).value >= Text.DoubleOverflow
    ensures AddBinTarget(items, draftQty, draftQuery, selectedBin) == Err(InvalidQtyMessage)
  {
  }

  /** `updateExistingBinQty(query, items, index, qtyNum, logContext)`: the
      `qty` update; if it is accepted, the correction row and the new
      quantity in the caller's array, at that index only. */
  method UpdateExistingBinQty(admin: Admin, items: array<StockItem>, index: nat, qtyNum: int, ctx: LogContext)
    returns (o: Outcome)
    requires index < items.Length
    requires admin.Valid()
    modifies items, admin
    ensures admin.Valid()
    ensures var existing := old(items[index]);
      && o == admin.UpdateResult(existing.id)
      && admin.calls == old(admin.calls) + [UpdateQtyField(existing.id, Text.IntToString(qtyNum))]
           + (if o.Pass? then [LogCorrection(Correction(ctx, existing.bin, Num(qtyNum)))] else [])
      && admin.qtyFields == (if o.Pass? then old(admin.qtyFields)[existing.id := Text.IntToString(qtyNum)] else old(admin.qtyFields))
      && items[..] == (if o.Pass? then old(items[..])[index := existing.(qty := Num(qtyNum))] else old(items[..]))
    ensures admin.onHand == old(admin.onHand)
  {
    var existing := items[index];
    o := admin.UpdateQtyField(existing.id, Text.IntToString(qtyNum));
    if o.Fail? {
      return;
    }
    admin.LogCorrectionMovement(Correction(ctx, existing.bin, Num(qtyNum)));
    items[index] := existing.(qty := Num(qtyNum));
  }

  /** The items after a successful "add bin": one quantity replaced. */
  function ItemsAfterAddBin(items: seq<StockItem>, t: AddBin): (r: seq<StockItem>)
    requires t.index < |items|
    ensures |r| == |items| && r[t.index] == items[t.index].(qty := Num(t.qty))
    ensures forall i :: 0 <= i < |items| && i != t.index ==> r[i] == items[i]
  {
    items[t.index := items[t.index].(qty := Num(t.qty))]
  }

  /** Without `NaN`, the sum the save sends moves by exactly the change of the
      replaced quantity. */
  lemma AddBinSumDelta(items: seq<StockItem>, t: AddBin)
    requires t.index < |items|
    requires forall i :: 0 <= i < |items| ==> items[i].qty.Num?
    ensures var after := ItemsAfterAddBin(items, t);
      && QtySum(Quantities(after)).Num? && QtySum(Quantities(items)).Num?
      && QtySum(Quantities(after)).n == QtySum(Quantities(items)).n - items[t.index].qty.n + t.qty
  {
    var after := ItemsAfterAddBin(items, t);
    QtySumOfNumbers(Quantities(items));
    QtySumOfNumbers(Quantities(after));
    assert Numbers(Quantities(after)) == Numbers(Quantities(items))[t.index := t.qty];
    SumUpdate(Numbers(Quantities(items)), t.index, t.qty);
  }

  // ------------------------------------------------------------------- sync

  /** `syncInventory(query, items, inventoryItemId, locationId)`: set the
      on-hand quantity to the sum of the items. */
  method SyncInventory(admin: Admin, items: seq<StockItem>, inventoryItemId: string, locationId: string)
    returns (o: Outcome)
    requires admin.Valid()
    modifies admin
    ensures admin.Valid()
    ensures o == admin.SyncResult(QtySum(Quantities(items)))
    ensures admin.calls == old(admin.calls) + [SetQuantity(inventoryItemId, locationId, QtySum(Quantities(items)))]
    ensures admin.onHand == if o.Pass? then old(admin.onHand)[(inventoryItemId, locationId) := QtySum(Quantities(items))]
                            else old(admin.onHand)
    ensures admin.qtyFields == old(admin.qtyFields)
  {
    var sumOfBins := QtySum(Quantities(items));
    o := admin.SetQuantity(inventoryItemId, locationId, sumOfBins);
  }

  /** The sync call a save issues for the given final items, if any. */
  function SyncCalls(p: SaveStockParams, next: seq<StockItem>): seq<Call> {
    if Filled(p.inventoryItemId) && Filled(p.locationId)
    then [SetQuantity(p.inventoryItemId.value, p.locationId.value, QtySum(Quantities(next)))]
    else []
  }

  // ------------------------------------------------------------- saveStock

  function Context(p: SaveStockParams, userEmail: Option<string>): LogContext {
    LogContext(p.variantBarcode, userEmail)
  }

  function Target(p: SaveStockParams): Result<AddBin> {
    AddBinTarget(p.items, p.draftQty, p.draftQuery, p.selectedBin)
  }

  /** Whether the save sets the quantity of a linked bin. */
  predicate Adds(p: SaveStockParams) {
    p.isAdding && Target(p).Ok?
  }

  /** The list the save returns when it gets that far. */
  function NextItems(p: SaveStockParams): (next: seq<StockItem>)
    ensures |next| == |p.items|
  {
    if Adds(p) then ItemsAfterAddBin(p.items, Target(p).value) else p.items
  }

  /** The calls of the "add bin" step. */
  function AddCalls(admin: Admin, p: SaveStockParams, ctx: LogContext): seq<Call> {
    if !Adds(p) then []
    else
      var t := Target(p).value;
      var existing := p.items[t.index];
      [UpdateQtyField(existing.id, Text.IntToString(t.qty))]
      + if admin.UpdateResult(existing.id).Pass? then [LogCorrection(Correction(ctx, existing.bin, Num(t.qty)))] else []
  }

  /** The `qty` fields after the "add bin" step: the linked bin's field
      holds the typed quantity when its update is accepted. */
  function AddFields(admin: Admin, p: SaveStockParams, fields: map<string, string>): map<string, string> {
    if !Adds(p) then fields
    else
      var t := Target(p).value;
      var id := p.items[t.index].id;
      if admin.UpdateResult(id).Pass? then fields[id := Text.IntToString(t.qty)] else fields
  }

  /** Whether the "add bin" step throws, and with what. */
  function AddBinOutcome(admin: Admin, p: SaveStockParams): (o: Outcome)
    ensures !p.isAdding ==> o == Pass
  {
    if !p.isAdding then Pass
    else match Target(p) {
      case Err(m) => Fail(m)
      case Ok(t) => admin.UpdateResult(p.items[t.index].id)
    }
  }

  /** The "add bin" step of `saveStock`, on a copy of the items. */
  method AddBinStep(admin: Admin, p: SaveStockParams, ctx: LogContext) returns (o: Outcome, next: seq<StockItem>)
    requires admin.Valid()
    modifies admin
    ensures admin.Valid()
    ensures o == AddBinOutcome(admin, p)
    ensures admin.calls == old(admin.calls) + AddCalls(admin, p, ctx)
    ensures admin.qtyFields == AddFields(admin, p, old(admin.qtyFields))
    ensures admin.onHand == old(admin.onHand)
    ensures o.Pass? ==> next == NextItems(p)
  {
    var nextItems := new StockItem[|p.items|](i requires 0 <= i < |p.items| => p.items[i]);
    next := nextItems[..];
    if !p.isAdding {
      return Pass, next;
    }
    var target := AddBinTarget(p.items, p.draftQty, p.draftQuery, p.selectedBin);
    if target.Err? {
      return Fail(target.message), next;
    }
    o := UpdateExistingBinQty(admin, nextItems, target.value.index, target.value.qty, ctx);
    next := nextItems[..];
  }

  /** The part of `saveStock` after the write-back. */
  method AddBinAndSync(admin: Admin, p: SaveStockParams, ctx: LogContext) returns (r: Result<seq<StockItem>>)
    requires admin.Valid()
    modifies admin
    ensures admin.Valid()
    ensures admin.qtyFields == AddFields(admin, p, old(admin.qtyFields))
    ensures AddBinOutcome(admin, p).Fail? ==>
      && r == Err(AddBinOutcome(admin, p).message)
      && admin.calls == old(admin.calls) + AddCalls(admin, p, ctx)
      && admin.onHand == old(admin.onHand)
    ensures AddBinOutcome(admin, p).Pass? ==>
      var syncs := Filled(p.inventoryItemId) && Filled(p.locationId);
      var total := QtySum(Quantities(NextItems(p)));
      && admin.calls == old(admin.calls) + AddCalls(admin, p, ctx) + SyncCalls(p, NextItems(p))
      && r == (if syncs && admin.SyncResult(total).Fail? then Err(admin.SyncResult(total).message) else Ok(NextItems(p)))
      && admin.onHand == (if syncs && admin.SyncResult(total).Pass?
                          then old(admin.onHand)[(p.inventoryItemId.value, p.locationId.value) := total]
                          else old(admin.onHand))
  {
    var added, nextItems := AddBinStep(admin, p, ctx);
    if added.Fail? {
      return Err(added.message);
    }
    if Filled(p.inventoryItemId) && Filled(p.locationId) {
      var o := SyncInventory(admin, nextItems, p.inventoryItemId.value, p.locationId.value);
      if o.Fail? {
        return Err(o.message);
      }
    }
    return Ok(nextItems);
  }

  /** `saveStock(params)`. The write-back always comes first, so a later
      error does not undo it. The list returned is a copy: the caller's
      items are left as they are. */
  method SaveStock(admin: Admin, p: SaveStockParams, userEmail: Option<string>) returns (r: Result<seq<StockItem>>)
    requires admin.Valid()
    modifies admin
    ensures admin.Valid()
    ensures var dirty := DirtyItems(p.items, p.initialQtyById);
            var written := old(admin.calls) + DirtyCalls(admin, dirty, Context(p, userEmail));
            var fields := FieldsAfter(admin, old(admin.qtyFields), dirty);
      && (FirstFailure(admin, dirty).Some? ==>
            && r == Err(FirstFailure(admin, dirty).value)
            && admin.calls == written && admin.qtyFields == fields && admin.onHand == old(admin.onHand))
      && (FirstFailure(admin, dirty).None? ==> admin.qtyFields == AddFields(admin, p, fields))
      && (FirstFailure(admin, dirty).None? && AddBinOutcome(admin, p).Fail? ==>
            && r == Err(AddBinOutcome(admin, p).message)
            && admin.calls == written + AddCalls(admin, p, Context(p, userEmail))
            && admin.onHand == old(admin.onHand))
      && (FirstFailure(admin, dirty).None? && AddBinOutcome(admin, p).Pass? ==>
            var syncs := Filled(p.inventoryItemId) && Filled(p.locationId);
            var total := QtySum(Quantities(NextItems(p)));
            && admin.calls == written + AddCalls(admin, p, Context(p, userEmail)) + SyncCalls(p, NextItems(p))
            && r == (if syncs && admin.SyncResult(total).Fail? then Err(admin.SyncResult(total).message) else Ok(NextItems(p)))
            && admin.onHand == (if syncs && admin.SyncResult(total).Pass?
                                then old(admin.onHand)[(p.inventoryItemId.value, p.locationId.value) := total]
                                else old(admin.onHand)))
  {
    var ctx := Context(p, userEmail);
    var dirtyItems := DirtyItems(p.items, p.initialQtyById);
    var failure := UpdateDirtyItems(admin, dirtyItems, ctx);
    if failure.Some? {
      return Err(failure.value);
    }
    r := AddBinAndSync(admin, p, ctx);
  }
}
