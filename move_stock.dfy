/** `moveStockBetweenBins`: take `moveQty` units out of the source bin and
    put them into the destination bin, source first, then log the move. The
    two writes are not atomic: a failed destination write leaves the source
    already decreased. */
module MoveStock {
  import opened Common
  import opened ServerApi
  import StockHelpers

  datatype MoveInput = MoveInput(
    sourceBinId: string, sourceBinName: string, sourceBinQtyBefore: int,
    destinationBinId: string, destinationBinName: string, destinationBinQtyBefore: int,
    moveQty: int,
    barcode: Option<string>, variantTitle: Option<string>, user: Option<string>)

  /** The quantities written: `(source after, destination after)`. */
  function QuantitiesAfterMove(input: MoveInput): (after: (int, int))
    ensures after.0 + after.1 == input.sourceBinQtyBefore + input.destinationBinQtyBefore
    ensures input.sourceBinQtyBefore - after.0 == after.1 - input.destinationBinQtyBefore == input.moveQty
    ensures 0 <= input.moveQty <= input.sourceBinQtyBefore ==>
              0 <= after.0 <= input.sourceBinQtyBefore && after.1 >= input.destinationBinQtyBefore
  {
    (input.sourceBinQtyBefore - input.moveQty, input.destinationBinQtyBefore + input.moveQty)
  }

  /** The log row of a completed move records the quantities before it. */
  function MoveLogEntry(input: MoveInput): MoveLog {
    MoveLog(input.barcode, input.variantTitle,
            input.sourceBinName, input.sourceBinQtyBefore,
            input.destinationBinName, input.destinationBinQtyBefore,
            input.user)
  }

  /** The remote calls a move issues, given whether the shop accepts the
      source and the destination write. */
  function MoveCalls(input: MoveInput, sourceOk: bool, destinationOk: bool): seq<Call> {
    var after := QuantitiesAfterMove(input);
    [UpdateBinQty(input.sourceBinId, after.0)] +
    if !sourceOk then []
    else [UpdateBinQty(input.destinationBinId, after.1)] +
         if destinationOk then [LogMove(MoveLogEntry(input))] else []
  }

  /** The order of a move's calls: the source write comes first; the
      destination write is issued only after an accepted source write; the
      log row is written last, and only when both writes were accepted. */
  lemma MoveCallOrder(input: MoveInput, sourceOk: bool, destinationOk: bool)
    ensures var cs := MoveCalls(input, sourceOk, destinationOk);
      && cs[0] == UpdateBinQty(input.sourceBinId, input.sourceBinQtyBefore - input.moveQty)
      && (sourceOk <==> |cs| >= 2)
      && (sourceOk ==> cs[1] == UpdateBinQty(input.destinationBinId, input.destinationBinQtyBefore + input.moveQty))
      && ((exists i :: 0 <= i < |cs| && cs[i].LogMove?) <==> sourceOk && destinationOk)
      && (sourceOk && destinationOk ==> |cs| == 3 && cs[2] == LogMove(MoveLogEntry(input)))
  {
    var cs := MoveCalls(input, sourceOk, destinationOk);
    var after := QuantitiesAfterMove(input);
    if !sourceOk {
      assert cs == [UpdateBinQty(input.sourceBinId, after.0)];
    } else if !destinationOk {
      assert cs == [UpdateBinQty(input.sourceBinId, after.0), UpdateBinQty(input.destinationBinId, after.1)];
    } else {
      assert cs[2].LogMove?;
    }
  }

  /** What the move reports. */
  function MoveResult(input: MoveInput, source: Outcome, destination: Outcome): Outcome {
    if source.Fail? then Fail("Failed to update source bin: " + source.message)
    else if destination.Fail? then Fail("Failed to update destination bin: " + destination.message)
    else Pass
  }

  /** The shop's bin quantities after the move's accepted writes. */
  function BinsAfterMove(bins: map<string, int>, input: MoveInput, sourceOk: bool, destinationOk: bool): map<string, int> {
    var after := QuantitiesAfterMove(input);
    if !sourceOk then bins
    else if !destinationOk then bins[input.sourceBinId := after.0]
    else bins[input.sourceBinId := after.0][input.destinationBinId := after.1]
  }

  /** `moveStockBetweenBins(input)`. It does not check `moveQty` against
      the source quantity: the caller does. */
  method MoveStockBetweenBins(shop: Shop, input: MoveInput) returns (r: Outcome)
    modifies shop
    ensures var src := shop.BinUpdateResult(input.sourceBinId);
            var dst := shop.BinUpdateResult(input.destinationBinId);
      && r == MoveResult(input, src, dst)
      && shop.calls == old(shop.calls) + MoveCalls(input, src.Pass?, dst.Pass?)
      && shop.bins == BinsAfterMove(old(shop.bins), input, src.Pass?, dst.Pass?)
      && shop.log == old(shop.log) + (if r.Pass? then [MoveLogEntry(input)] else [])
    ensures shop.onHand == old(shop.onHand)
  {
    var after := QuantitiesAfterMove(input);
    var sourceResult := shop.UpdateBinQtyById(input.sourceBinId, after.0);
    if sourceResult.Fail? {
      return Fail("Failed to update source bin: " + sourceResult.message);
    }
    var destResult := shop.UpdateBinQtyById(input.destinationBinId, after.1);
    if destResult.Fail? {
      return Fail("Failed to update destination bin: " + destResult.message);
    }
    shop.LogMoveMovement(MoveLogEntry(input));
    r := Pass;
  }

  /** The shop's quantities of a list of bins, in list order. */
  function StoreQtys(bins: map<string, int>, ids: seq<string>): (qs: seq<int>)
    requires forall i :: 0 <= i < |ids| ==> ids[i] in bins
    ensures |qs| == |ids| && forall i :: 0 <= i < |ids| ==> qs[i] == bins[ids[i]]
  {
    seq(|ids|, i requires 0 <= i < |ids| => bins[ids[i]])
  }

  /** A completed move between two different bins of a variant leaves the
      variant's total stock in the shop unchanged, provided the quantities
      the caller passed as "before" are the shop's current ones. */
  lemma {:induction false} MoveConservesStock(bins: map<string, int>, ids: seq<string>, s: nat, d: nat, input: MoveInput)
    requires forall i :: 0 <= i < |ids| ==> ids[i] in bins
    requires forall i, j :: 0 <= i < j < |ids| ==> ids[i] != ids[j]
    requires s < |ids| && d < |ids| && s != d
    requires input.sourceBinId == ids[s] && input.destinationBinId == ids[d]
    requires bins[ids[s]] == input.sourceBinQtyBefore && bins[ids[d]] == input.destinationBinQtyBefore
    ensures var after := BinsAfterMove(bins, input, true, true);
      && (forall i :: 0 <= i < |ids| ==> ids[i] in after)
      && Sum(StoreQtys(after, ids)) == Sum(StoreQtys(bins, ids))
  {
    var a := QuantitiesAfterMove(input);
    var after := BinsAfterMove(bins, input, true, true);
    var before := StoreQtys(bins, ids);
    var mid := before[s := a.0];
    assert StoreQtys(after, ids) == mid[d := a.1];
    SumUpdate(before, s, a.0);
    SumUpdate(mid, d, a.1);
  }
}
