/** The mobile scanner (`MobileScanner`): a product barcode (leading digit)
    loads the variant and its bins; a bin barcode (leading letter) first
    picks the source bin, and a second bin barcode moves `moveQty` units
    from the source to that bin. The variant lookup is an input to the scan;
    the move goes through the `Shop` oracle. */
module MobileScanner {
  import opened Common
  import opened StockHelpers
  import opened ServerApi
  import opened BinLocationTable
  import MoveStock
  import Text
  import WarehouseTypes

  /** What the scanner keeps of a looked-up variant. */
  datatype ScannedVariant = ScannedVariant(
    title: string, barcode: Option<string>, productTitle: Option<string>,
    binQty: Option<seq<StockLocation>>)

  /** What `getVariantByBarcode` does: throw, answer `success: false` with a
      message (several variants share the barcode, or the server failed), or
      answer `success: true` with the variant, if any. */
  datatype LookupReply =
    | LookupThrew
    | LookupFailed(message: Option<string>)
    | LookupFound(data: Option<ScannedVariant>)

  /** The scanner's component state. */
  datatype ScannerState = ScannerState(
    error: Option<string>, successMessage: Option<string>, loading: bool,
    variant: Option<ScannedVariant>, stockLocation: seq<StockLocation>, selectedBins: seq<string>,
    sourceBin: Option<StockLocation>, destinationBin: Option<StockLocation>, moveQty: int)

  /** `/^[a-zA-Z]/` */
  predicate IsBinCode(barcode: string) {
    barcode != "" && Text.IsAsciiLetter(barcode[0])
  }

  /** `/^[0-9]/` */
  predicate IsProductCode(barcode: string) {
    barcode != "" && Text.IsDigit(barcode[0])
  }

  predicate SameName(loc: StockLocation, barcode: string) {
    Text.ToLower(loc.binLocation) == Text.ToLower(barcode)
  }

  /** The first shown bin whose name equals the barcode up to case. */
  function MatchBin(locs: seq<StockLocation>, barcode: string): (m: Option<StockLocation>)
    ensures m.Some? ==> m.value in locs && SameName(m.value, barcode)
    ensures (forall i :: 0 <= i < |locs| ==> !SameName(locs[i], barcode)) <==> m.None?
    ensures forall i ::
              (0 <= i < |locs| && SameName(locs[i], barcode) && forall j :: 0 <= j < i ==> !SameName(locs[j], barcode))
              ==> m == Some(locs[i])
  {
    if locs == [] then None
    else if SameName(locs[0], barcode) then Some(locs[0])
    else MatchBin(locs[1..], barcode)
  }

  /** Two barcodes that differ only in case match the same bin. */
  lemma {:induction false} MatchBinIgnoresCase(locs: seq<StockLocation>, a: string, b: string)
    requires Text.ToLower(a) == Text.ToLower(b)
    ensures MatchBin(locs, a) == MatchBin(locs, b)
  {
    if locs != [] {
      MatchBinIgnoresCase(locs[1..], a, b);
    }
  }

  function NotSourceBinMessage(barcode: string): string {
    "Only source bin could be scanned at this point. " + barcode + " is not a source bin"
  }

  function BinNotFoundMessage(barcode: string): string {
    "Bin location " + barcode + " not found"
  }

  function SameBinMessage(barcode: string): string {
    "Source bin " + barcode + " cannot be the same as destination bin"
  }

  function OverQtyMessage(moveQty: int, source: StockLocation): string {
    "Cannot move " + Text.IntToString(moveQty) + " units. Source bin " + source.binLocation +
    " only has " + Text.IntToString(source.qty) + " units available."
  }

  function MovedMessage(moveQty: int, source: StockLocation, destination: StockLocation): string {
    "Qty of " + Text.IntToString(moveQty) + " successfully moved from " + source.binLocation +
    " to " + destination.binLocation
  }

  const MoveFailedFallback := "Failed to move stock"

  function NoStockMessage(v: ScannedVariant): string {
    "No Bin location stock for " + WarehouseTypes.OrElse(v.productTitle, "this product")
  }

  function UnknownBarcodeMessage(barcode: string): string {
    "Barcode " + barcode + " does NOT exist"
  }

  const ScanErrorMessage := "Error scanning barcode"

  /** The move a second bin scan asks for. */
  function MoveInputOf(source: StockLocation, destination: StockLocation, moveQty: int,
                       v: ScannedVariant, userName: Option<string>): MoveStock.MoveInput {
    MoveStock.MoveInput(source.id, source.binLocation, source.qty,
                        destination.id, destination.binLocation, destination.qty,
                        moveQty, v.barcode, Some(v.title), userName)
  }

  /** What a bin scan leads to. */
  datatype BinScanStep =
    | Reject(message: string)
    | SelectSource(bin: StockLocation)
    | Move(input: MoveStock.MoveInput, destination: StockLocation)

  /** The decision of a bin scan: a bin is only accepted while a variant
      with bins is shown; the first accepted bin becomes the source; a later
      one is the destination, refused when it is the source itself or when
      the source holds fewer than `moveQty` units. */
  function DecideBinScan(s: ScannerState, barcode: string, userName: Option<string>): (d: BinScanStep)
    ensures (s.variant.None? || s.stockLocation == []) ==> d == Reject(NotSourceBinMessage(barcode))
    ensures s.variant.Some? && s.stockLocation != [] && MatchBin(s.stockLocation, barcode).None? ==>
              d == Reject(BinNotFoundMessage(barcode))
    ensures d.SelectSource? <==>
              s.variant.Some? && s.stockLocation != [] && MatchBin(s.stockLocation, barcode).Some? && s.sourceBin.None?
    ensures d.SelectSource? ==> d.bin in s.stockLocation && SameName(d.bin, barcode)
    ensures d.Move? ==>
              && s.variant.Some? && s.sourceBin.Some?
              && d.destination in s.stockLocation && SameName(d.destination, barcode)
              && d.input == MoveInputOf(s.sourceBin.value, d.destination, s.moveQty, s.variant.value, userName)
              && d.destination.id != s.sourceBin.value.id
              && s.moveQty <= s.sourceBin.value.qty
  {
    if s.variant.None? || s.stockLocation == [] then Reject(NotSourceBinMessage(barcode))
    else match MatchBin(s.stockLocation, barcode)
      case None => Reject(BinNotFoundMessage(barcode))
      case Some(m) =>
        if s.sourceBin.None? then SelectSource(m)
        else if m.id == s.sourceBin.value.id then Reject(SameBinMessage(barcode))
        else if s.moveQty > s.sourceBin.value.qty then Reject(OverQtyMessage(s.moveQty, s.sourceBin.value))
        else Move(MoveInputOf(s.sourceBin.value, m, s.moveQty, s.variant.value, userName), m)
  }

  /** The state after a move: a failure keeps everything and reports the
      move's message; a success reports the move and clears the variant, its
      bins, the selection, both bins, and resets `moveQty` to 1. */
  function AfterMove(s: ScannerState, destination: StockLocation, r: Outcome): (t: ScannerState)
    requires s.sourceBin.Some?
    ensures !t.loading
    ensures r.Fail? ==> t == s.(loading := false, error := Some(WarehouseTypes.OrElse(Some(r.message), MoveFailedFallback)))
    ensures r.Pass? ==>
              && t.error == s.error && t.successMessage == Some(MovedMessage(s.moveQty, s.sourceBin.value, destination))
              && t.variant.None? && t.stockLocation == [] && t.selectedBins == []
              && t.sourceBin.None? && t.destinationBin.None? && t.moveQty == 1
  {
    if r.Fail? then s.(loading := false, error := Some(WarehouseTypes.OrElse(Some(r.message), MoveFailedFallback)))
    else s.(loading := false, successMessage := Some(MovedMessage(s.moveQty, s.sourceBin.value, destination)),
            variant := None, stockLocation := [], selectedBins := [], sourceBin := None,
            destinationBin := None, moveQty := 1)
  }

  /** The state after a product scan and its lookup. The variant, its bins
      and the selection are replaced; the source bin and `moveQty` are kept. */
  function ProductScan(s: ScannerState, barcode: string, reply: LookupReply): (t: ScannerState)
    ensures t.sourceBin == s.sourceBin && t.moveQty == s.moveQty && t.selectedBins == [] && !t.loading
    ensures t.successMessage == s.successMessage && t.destinationBin == s.destinationBin
    ensures t.variant.Some? <==> reply.LookupFound? && reply.data.Some?
    ensures t.variant.Some? ==>
              && t.variant == reply.data
              && t.stockLocation == reply.data.value.binQty.GetOr([])
              && (t.stockLocation == [] ==> t.error == Some(NoStockMessage(reply.data.value)))
              && (t.stockLocation != [] ==> t.error.None?)
    ensures t.variant.None? ==> t.stockLocation == [] && (t.error.Some? || (reply.LookupFailed? && reply.message.None?))
    ensures reply.LookupFailed? ==> t.error == reply.message
  {
    var cleared := s.(error := None, variant := None, stockLocation := [], selectedBins := [], loading := false);
    match reply
    case LookupThrew => cleared.(error := Some(ScanErrorMessage))
    case LookupFailed(message) => cleared.(error := message)
    case LookupFound(None) => cleared.(error := Some(UnknownBarcodeMessage(barcode)))
    case LookupFound(Some(v)) =>
      var bins := v.binQty.GetOr([]);
      cleared.(variant := Some(v), stockLocation := bins,
               error := if bins == [] then Some(NoStockMessage(v)) else None)
  }

  /** A product scan keeps the source bin picked for the previous product.
      A bin scan naming one of the new product's bins then moves stock out
      of that earlier bin, whether or not the new product has it, checked
      against the quantity the earlier bin had when it was picked and
      logged with the new product's barcode and title. */
  lemma SourceBinOutlivesProduct(s: ScannerState, productCode: string, v: ScannedVariant,
                                 binCode: string, userName: Option<string>)
    requires s.sourceBin.Some? && v.binQty.Some?
    requires MatchBin(v.binQty.value, binCode).Some?
    requires MatchBin(v.binQty.value, binCode).value.id != s.sourceBin.value.id
    requires s.moveQty <= s.sourceBin.value.qty
    ensures var m := MatchBin(v.binQty.value, binCode).value;
      DecideBinScan(ProductScan(s, productCode, LookupFound(Some(v))), binCode, userName)
        == Move(MoveInputOf(s.sourceBin.value, m, s.moveQty, v, userName), m)
  {
  }

  /** Two bin scans complete a move: the first picks the source, the
      second, naming another shown bin, moves from it, as long as the source
      holds at least `moveQty` units. */
  lemma TwoScansMove(s: ScannerState, first: string, second: string, userName: Option<string>)
    requires s.variant.Some? && s.sourceBin.None?
    requires MatchBin(s.stockLocation, first).Some? && MatchBin(s.stockLocation, second).Some?
    requires MatchBin(s.stockLocation, first).value.id != MatchBin(s.stockLocation, second).value.id
    requires s.moveQty <= MatchBin(s.stockLocation, first).value.qty
    ensures var src := MatchBin(s.stockLocation, first).value;
            var dst := MatchBin(s.stockLocation, second).value;
            var s1 := s.(error := None, sourceBin := Some(src), selectedBins := [src.id]);
      && DecideBinScan(s, first, userName) == SelectSource(src)
      && DecideBinScan(s1, second, userName) == Move(MoveInputOf(src, dst, s.moveQty, s.variant.value, userName), dst)
  {
    var src := MatchBin(s.stockLocation, first).value;
    assert src in s.stockLocation;
  }

  /** After a completed move no bin scan is accepted until a product is
      scanned again. */
  lemma NoBinScanAfterMove(s: ScannerState, destination: StockLocation,
                           barcode: string, userName: Option<string>)
    requires s.sourceBin.Some?
    ensures DecideBinScan(AfterMove(s, destination, Pass), barcode, userName) == Reject(NotSourceBinMessage(barcode))
  {
  }

  /** What a bin scan does to the scanner state `s` (giving `t`) and to the
      shop, whose call trace, bins, log and on-hand quantities were
      `calls`, `bins`, `log` and `onHand` before it. */
  ghost predicate BinScanned(s: ScannerState, t: ScannerState, barcode: string, userName: Option<string>,
                             shop: Shop, calls: seq<Call>, bins: map<string, int>, log: seq<MoveLog>,
                             onHand: map<(string, string), int>)
    reads shop
  {
    var d := DecideBinScan(s, barcode, userName);
    match d
    case Reject(message) => t == s.(error := Some(message))
    case SelectSource(bin) => t == s.(error := None, sourceBin := Some(bin), selectedBins := [bin.id])
    case Move(input, destination) =>
      var src := shop.BinUpdateResult(input.sourceBinId);
      var dst := shop.BinUpdateResult(input.destinationBinId);
      var r := MoveStock.MoveResult(input, src, dst);
      && t == AfterMove(s.(error := None), destination, r)
      && shop.calls == calls + MoveStock.MoveCalls(input, src.Pass?, dst.Pass?)
      && shop.bins == MoveStock.BinsAfterMove(bins, input, src.Pass?, dst.Pass?)
      && shop.log == log + (if r.Pass? then [MoveStock.MoveLogEntry(input)] else [])
      && shop.onHand == onHand
  }

  class Scanner {
    var error: Option<string>
    var successMessage: Option<string>
    var loading: bool
    var variant: Option<ScannedVariant>
    var stockLocation: seq<StockLocation>
    var selectedBins: seq<string>
    var sourceBin: Option<StockLocation>
    var destinationBin: Option<StockLocation>
    var moveQty: int

    function State(): ScannerState
      reads this
    {
      ScannerState(error, successMessage, loading, variant, stockLocation, selectedBins,
                   sourceBin, destinationBin, moveQty)
    }

    constructor ()
      ensures State() == ScannerState(None, None, false, None, [], [], None, None, 1)
    {
      error, successMessage, loading := None, None, false;
      variant, stockLocation, selectedBins := None, [], [];
      sourceBin, destinationBin, moveQty := None, None, 1;
    }

    /** `handleScan(barcode)`, given what the variant lookup does. */
    method HandleScan(shop: Shop, barcode: string, reply: LookupReply, userName: Option<string>)
      modifies this, shop
      ensures barcode == "" ==> State() == old(State())
      ensures barcode != "" && !IsBinCode(barcode) && !IsProductCode(barcode) ==>
                State() == old(State()).(error := None)
      ensures IsProductCode(barcode) ==> State() == ProductScan(old(State()), barcode, reply)
      ensures IsBinCode(barcode) ==>
                BinScanned(old(State()).(error := None), State(), barcode, userName,
                           shop, old(shop.calls), old(shop.bins), old(shop.log), old(shop.onHand))
      ensures !(IsBinCode(barcode) && DecideBinScan(old(State()).(error := None), barcode, userName).Move?) ==> unchanged(shop)
    {
      if barcode == "" {
        return;
      }
      error := None;
      if Text.IsAsciiLetter(barcode[0]) {
        ScanBin(shop, barcode, userName);
      } else if Text.IsDigit(barcode[0]) {
        ScanProduct(barcode, reply);
      }
    }

    /** The bin path of `handleScan`, after the error is cleared. */
    method ScanBin(shop: Shop, barcode: string, userName: Option<string>)
      requires error.None?
      modifies this, shop
      ensures BinScanned(old(State()), State(), barcode, userName, shop, old(shop.calls), old(shop.bins), old(shop.log), old(shop.onHand))
      ensures !DecideBinScan(old(State()), barcode, userName).Move? ==> unchanged(shop)
    {
      var d := DecideBinScan(State(), barcode, userName);
      match d {
        case Reject(message) =>
          error := Some(message);
        case SelectSource(bin) =>
          sourceBin := Some(bin);
          selectedBins := [bin.id];
        case Move(input, destination) =>
          CompleteMove(shop, input, destination);
      }
    }

    /** The move a second bin scan performs, and the state it leaves. */
    method CompleteMove(shop: Shop, input: MoveStock.MoveInput, destination: StockLocation)
      requires sourceBin.Some?
      modifies this, shop
      ensures var src := shop.BinUpdateResult(input.sourceBinId);
              var dst := shop.BinUpdateResult(input.destinationBinId);
              var r := MoveStock.MoveResult(input, src, dst);
        && State() == AfterMove(old(State()), destination, r)
        && shop.calls == old(shop.calls) + MoveStock.MoveCalls(input, src.Pass?, dst.Pass?)
        && shop.bins == MoveStock.BinsAfterMove(old(shop.bins), input, src.Pass?, dst.Pass?)
        && shop.log == old(shop.log) + (if r.Pass? then [MoveStock.MoveLogEntry(input)] else [])
        && shop.onHand == old(shop.onHand)
    {
      var before := State();
      loading := true;
      var r := MoveStock.MoveStockBetweenBins(shop, input);
      SetState(AfterMove(before, destination, r));
    }

    /** All the component's state set at once, as the renders after an
        awaited call see it. */
    method SetState(t: ScannerState)
      modifies this
      ensures State() == t
    {
      error, successMessage, loading := t.error, t.successMessage, t.loading;
      variant, stockLocation, selectedBins := t.variant, t.stockLocation, t.selectedBins;
      sourceBin, destinationBin, moveQty := t.sourceBin, t.destinationBin, t.moveQty;
    }

    /** The product path of `handleScan`. */
    method ScanProduct(barcode: string, reply: LookupReply)
      modifies this
      ensures State() == ProductScan(old(State()), barcode, reply)
    {
      variant := None;
      stockLocation := [];
      selectedBins := [];
      error := None;
      loading := true;
      match reply {
        case LookupThrew =>
          error := Some(ScanErrorMessage);
        case LookupFailed(message) =>
          error := message;
        case LookupFound(None) =>
          error := Some(UnknownBarcodeMessage(barcode));
        case LookupFound(Some(v)) =>
          variant := Some(v);
          stockLocation := v.binQty.GetOr([]);
          if stockLocation == [] {
            error := Some(NoStockMessage(v));
          }
      }
      loading := false;
    }

    /** The table's checkbox callback. */
    method ToggleBin(id: string)
      modifies this
      ensures State() == old(State()).(selectedBins := HandleToggle(old(selectedBins), id))
    {
      selectedBins := HandleToggle(selectedBins, id);
    }

    /** The table's auto-select effect, for the bins shown. */
    method AutoSelect()
      modifies this
      ensures State() == old(State()).(selectedBins := AutoSelection(old(stockLocation)).GetOr(old(selectedBins)))
    {
      var sel := AutoSelection(stockLocation);
      if sel.Some? {
        selectedBins := sel.value;
      }
    }

    /** The table's move-quantity stepper and text field. */
    method ChangeMoveQty(input: QtyInput)
      modifies this
      ensures State() == old(State()).(moveQty := NextMoveQty(old(moveQty), input))
    {
      moveQty := NextMoveQty(moveQty, input);
    }
  }
}
