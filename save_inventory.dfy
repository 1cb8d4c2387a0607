/** `saveInventoryChanges`: write back the bins whose quantity the user
    edited, and first overwrite Shopify's on-hand quantity with the sum of the
    bins when the two disagree. */
module SaveInventoryChanges {
  import opened Common
  import opened ServerApi
  import opened StockHelpers
  import Text

  /** What a successful save reports. */
  datatype Summary = Summary(syncedShopify: bool, updatedBinCount: nat, onHandQty: int)

  const MissingIdsMessage := "Missing inventory item or location ID for Shopify update."

  function IdQtyPairs(bins: seq<StockLocation>): (pairs: seq<(string, int)>)
    ensures |pairs| == |bins| && forall i :: 0 <= i < |bins| ==> pairs[i] == (bins[i].id, bins[i].qty)
  {
    seq(|bins|, i requires 0 <= i < |bins| => (bins[i].id, bins[i].qty))
  }

  /** `new Map(initialBins.map(bin => [bin.id, bin.qty]))` */
  function InitialQtyByBinId(initialBins: seq<StockLocation>): map<string, int> {
    LastWins(IdQtyPairs(initialBins))
  }

  /** `initialQtyByBinId.get(bin.id) !== bin.qty`: a bin with no initial
      entry compares `undefined` with a number, so it counts as changed. */
  predicate IsChanged(bin: StockLocation, initial: map<string, int>) {
    bin.id !in initial || initial[bin.id] != bin.qty
  }

  /** `currentBins.filter(...)`: the bins to write back, in list order. */
  function ChangedBins(current: seq<StockLocation>, initial: map<string, int>): (r: seq<StockLocation>)
    ensures |r| <= |current|
  {
    if current == [] then []
    else (if IsChanged(current[0], initial) then [current[0]] else []) + ChangedBins(current[1..], initial)
  }

  /** A bin is written back exactly when it is one of the current bins and
      has no initial entry or a different quantity. */
  lemma {:induction false} ChangedBinsMembership(current: seq<StockLocation>, initial: map<string, int>, b: StockLocation)
    ensures b in ChangedBins(current, initial) <==> b in current && IsChanged(b, initial)
  {
    if current != [] {
      ChangedBinsMembership(current[1..], initial, b);
      assert current == [current[0]] + current[1..];
    }
  }

  /** The filter keeps list order: it distributes over concatenation. */
  lemma {:induction false} ChangedBinsAppend(a: seq<StockLocation>, b: seq<StockLocation>, initial: map<string, int>)
    ensures ChangedBins(a + b, initial) == ChangedBins(a, initial) + ChangedBins(b, initial)
  {
    if a != [] {
      assert (a + b)[0] == a[0] && (a + b)[1..] == a[1..] + b;
      ChangedBinsAppend(a[1..], b, initial);
    } else {
      assert a + b == b;
    }
  }

  /** Saving the snapshot itself writes no bin back (ids being unique). */
  lemma NoEditsNoChanges(bins: seq<StockLocation>)
    requires forall i, j :: 0 <= i < j < |bins| ==> bins[i].id != bins[j].id
    ensures ChangedBins(bins, InitialQtyByBinId(bins)) == []
  {
    var initial := InitialQtyByBinId(bins);
    forall b | b in bins ensures b !in ChangedBins(bins, initial) {
      var i :| 0 <= i < |bins| && bins[i] == b;
      LastWinsLookup(IdQtyPairs(bins), i);
      ChangedBinsMembership(bins, initial, b);
    }
    if ChangedBins(bins, initial) != [] {
      var c := ChangedBins(bins, initial)[0];
      ChangedBinsMembership(bins, initial, c);
    }
  }

  /** `bin.binLocation || bin.id` */
  function Label(bin: StockLocation): string {
    if bin.binLocation != "" then bin.binLocation else bin.id
  }

  function Labels(bins: seq<StockLocation>): (labels: seq<string>)
    ensures |labels| == |bins| && forall i :: 0 <= i < |bins| ==> labels[i] == Label(bins[i])
  {
    seq(|bins|, i requires 0 <= i < |bins| => Label(bins[i]))
  }

  /** The message of a save whose bin updates partly failed. */
  function FailureMessage(syncedShopify: bool, failed: seq<StockLocation>, firstError: string): string {
    var context := if syncedShopify then "Shopify inventory synced, but bin updates failed" else "Bin updates failed";
    context + " for: " + Text.Join(Labels(failed), ", ") + ". First error: " + firstError
  }

  /** The failure message names every failed bin. */
  lemma FailureMessageNamesEveryBin(syncedShopify: bool, failed: seq<StockLocation>, firstError: string)
    ensures forall k :: 0 <= k < |failed| ==> Text.Contains(FailureMessage(syncedShopify, failed, firstError), Label(failed[k]))
  {
    forall k | 0 <= k < |failed|
      ensures Text.Contains(FailureMessage(syncedShopify, failed, firstError), Label(failed[k]))
    {
      FailureMessageNamesBin(syncedShopify, failed, firstError, k);
    }
  }

  lemma FailureMessageNamesBin(syncedShopify: bool, failed: seq<StockLocation>, firstError: string, k: nat)
    requires k < |failed|
    ensures Text.Contains(FailureMessage(syncedShopify, failed, firstError), Label(failed[k]))
  {
    var context := if syncedShopify then "Shopify inventory synced, but bin updates failed" else "Bin updates failed";
    var joined := Text.Join(Labels(failed), ", ");
    var name := Label(failed[k]);
    Text.JoinContainsParts(Labels(failed), ", ", k);
    Text.ContainsPrepend(context + " for: ", joined, name);
    Text.ContainsAppend(context + " for: " + joined, ". First error: ", name);
    Text.ContainsAppend(context + " for: " + joined + ". First error: ", firstError, name);
  }

  /** The bin writes the save issues, one per changed bin, in order. */
  function UpdateCalls(bins: seq<StockLocation>): seq<Call> {
    if bins == [] then [] else UpdateCalls(bins[..|bins| - 1]) + [UpdateBinQty(bins[|bins| - 1].id, bins[|bins| - 1].qty)]
  }

  /** The bins whose write the shop rejects, in order. */
  function FailedUpdates(shop: Shop, bins: seq<StockLocation>): (r: seq<StockLocation>)
    ensures |r| <= |bins|
    ensures forall i :: 0 <= i < |r| ==> shop.BinUpdateResult(r[i].id).Fail?
  {
    if bins == [] then []
    else
      var last := bins[|bins| - 1];
      FailedUpdates(shop, bins[..|bins| - 1]) + if shop.BinUpdateResult(last.id).Fail? then [last] else []
  }

  /** A bin is reported failed exactly when it was written and the shop
      rejected its write. */
  lemma {:induction false} FailedUpdatesMembership(shop: Shop, bins: seq<StockLocation>, b: StockLocation)
    ensures b in FailedUpdates(shop, bins) <==> b in bins && shop.BinUpdateResult(b.id).Fail?
  {
    if bins != [] {
      var init := bins[..|bins| - 1];
      FailedUpdatesMembership(shop, init, b);
      assert bins == init + [bins[|bins| - 1]];
    }
  }

  /** The shop's quantities after the accepted writes of `bins`. */
  function BinsAfterUpdates(shop: Shop, store: map<string, int>, bins: seq<StockLocation>): map<string, int> {
    if bins == [] then store
    else
      var last := bins[|bins| - 1];
      var before := BinsAfterUpdates(shop, store, bins[..|bins| - 1]);
      if shop.BinUpdateResult(last.id).Pass? then before[last.id := last.qty] else before
  }

  /** How the write functions extend by one more bin. */
  lemma {:induction false} UpdateStep(shop: Shop, store: map<string, int>, bins: seq<StockLocation>, i: nat)
    requires i < |bins|
    ensures var bin, prefix, next := bins[i], bins[..i], bins[..i + 1];
      && UpdateCalls(next) == UpdateCalls(prefix) + [UpdateBinQty(bin.id, bin.qty)]
      && BinsAfterUpdates(shop, store, next)
         == (if shop.BinUpdateResult(bin.id).Pass? then BinsAfterUpdates(shop, store, prefix)[bin.id := bin.qty]
             else BinsAfterUpdates(shop, store, prefix))
      && FailedUpdates(shop, next)
         == FailedUpdates(shop, prefix) + if shop.BinUpdateResult(bin.id).Fail? then [bin] else []
  {
    var next := bins[..i + 1];
    assert next[..i] == bins[..i] && next[i] == bins[i];
  }

  /** The write of `bins[i]`, extending the calls, bins and failures of the
      writes before it. */
  method UpdateNext(shop: Shop, ghost calls0: seq<Call>, ghost store: map<string, int>,
                    bins: seq<StockLocation>, i: nat, failed: seq<StockLocation>)
    returns (failed': seq<StockLocation>)
    requires i < |bins|
    requires shop.calls == calls0 + UpdateCalls(bins[..i])
    requires shop.bins == BinsAfterUpdates(shop, store, bins[..i])
    requires failed == FailedUpdates(shop, bins[..i])
    modifies shop
    ensures shop.calls == calls0 + UpdateCalls(bins[..i + 1])
    ensures shop.bins == BinsAfterUpdates(shop, store, bins[..i + 1])
    ensures failed' == FailedUpdates(shop, bins[..i + 1])
    ensures shop.onHand == old(shop.onHand) && shop.log == old(shop.log)
  {
    var bin := bins[i];
    var result := shop.UpdateBinQtyById(bin.id, bin.qty);
    failed' := if result.Fail? then failed + [bin] else failed;
    UpdateStep(shop, store, bins, i);
  }

  /** The writes of the changed bins, one after the other; all are issued,
      and the rejected ones are collected in order. */
  method UpdateBins(shop: Shop, bins: seq<StockLocation>) returns (failed: seq<StockLocation>)
    modifies shop
    ensures shop.calls == old(shop.calls) + UpdateCalls(bins)
    ensures shop.bins == BinsAfterUpdates(shop, old(shop.bins), bins)
    ensures failed == FailedUpdates(shop, bins)
    ensures shop.onHand == old(shop.onHand) && shop.log == old(shop.log)
  {
    ghost var calls0, store := shop.calls, shop.bins;
    failed := [];
    var i := 0;
    while i < |bins|
      invariant 0 <= i <= |bins|
      invariant shop.calls == calls0 + UpdateCalls(bins[..i])
      invariant shop.bins == BinsAfterUpdates(shop, store, bins[..i])
      invariant failed == FailedUpdates(shop, bins[..i])
      invariant shop.onHand == old(shop.onHand) && shop.log == old(shop.log)
    {
      failed := UpdateNext(shop, calls0, store, bins, i, failed);
      i := i + 1;
    }
    assert bins[..i] == bins;
  }

  /** `saveInventoryChanges(currentBins, initialBins, inventoryItemId,
      locationId, shopifyOnHand)`. The bin writes, concurrent in the
      original, are issued here one after the other. */
  method SaveInventoryChanges(shop: Shop, currentBins: seq<StockLocation>, initialBins: seq<StockLocation>,
                              inventoryItemId: Option<string>, locationId: Option<string>, shopifyOnHand: int)
    returns (r: Result<Summary>)
    modifies shop
    ensures shop.log == old(shop.log)
    ensures var sum := TotalQty(currentBins);
      sum != shopifyOnHand && (!Filled(inventoryItemId) || !Filled(locationId)) ==>
        && r == Err(MissingIdsMessage)
        && shop.calls == old(shop.calls) && shop.bins == old(shop.bins) && shop.onHand == old(shop.onHand)
    ensures var sum := TotalQty(currentBins);
      sum != shopifyOnHand && Filled(inventoryItemId) && Filled(locationId) && shop.SyncResult().Fail? ==>
        && r == Err("Failed to sync Shopify inventory: " + shop.SyncResult().message)
        && shop.calls == old(shop.calls) + [SetOnHand(inventoryItemId.value, locationId.value, sum)]
        && shop.bins == old(shop.bins) && shop.onHand == old(shop.onHand)
    ensures var sum := TotalQty(currentBins);
            var synced := sum != shopifyOnHand;
            var changed := ChangedBins(currentBins, InitialQtyByBinId(initialBins));
            var failed := FailedUpdates(shop, changed);
      !synced || (Filled(inventoryItemId) && Filled(locationId) && shop.SyncResult().Pass?) ==>
        && shop.calls == old(shop.calls)
             + (if synced then [SetOnHand(inventoryItemId.value, locationId.value, sum)] else [])
             + UpdateCalls(changed)
        && shop.onHand == (if synced then old(shop.onHand)[(inventoryItemId.value, locationId.value) := sum] else old(shop.onHand))
        && shop.bins == BinsAfterUpdates(shop, old(shop.bins), changed)
        && r == if failed == [] then Ok(Summary(synced, |changed|, sum))
                else Err(FailureMessage(synced, failed, shop.BinUpdateResult(failed[0].id).message))
  {
    var initialQtyByBinId := InitialQtyByBinId(initialBins);
    var changedBins := ChangedBins(currentBins, initialQtyByBinId);
    var sumOfBins := TotalQty(currentBins);

    var syncedShopify := false;
    if sumOfBins != shopifyOnHand {
      if !Filled(inventoryItemId) || !Filled(locationId) {
        return Err(MissingIdsMessage);
      }
      var syncResult := shop.SyncShopifyInventory(inventoryItemId.value, locationId.value, sumOfBins);
      if syncResult.Fail? {
        return Err("Failed to sync Shopify inventory: " + syncResult.message);
      }
      syncedShopify := true;
    }

    var failed := UpdateBins(shop, changedBins);

    if |failed| > 0 {
      var firstErrorMessage := shop.BinUpdateResult(failed[0].id).message;
      return Err(FailureMessage(syncedShopify, failed, firstErrorMessage));
    }
    return Ok(Summary(syncedShopify, |changedBins|, sumOfBins));
  }
}
