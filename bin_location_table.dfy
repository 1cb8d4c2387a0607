/** The selection and move-quantity rules of the scanner's bin table
    (`BinLocationTable`), which the unused `BinLocationList` repeats. The
    table holds no state of its own: it reports a new selection or a new
    quantity to its owner. */
module BinLocationTable {
  import opened Common
  import opened StockHelpers

  /** `handleToggle(id)`: clicking the selected bin clears the selection;
      clicking any other bin selects it alone. */
  function HandleToggle(selectedBins: seq<string>, id: string): (newChecked: seq<string>)
    ensures |newChecked| <= 1
    ensures id in selectedBins ==> newChecked == []
    ensures id !in selectedBins ==> newChecked == [id]
  {
    if id in selectedBins then [] else [id]
  }

  /** Clicking the same bin twice restores a selection of at most that bin. */
  lemma ToggleTwice(selectedBins: seq<string>, id: string)
    requires selectedBins == [] || selectedBins == [id]
    ensures HandleToggle(HandleToggle(selectedBins, id), id) == selectedBins
  {
  }

  /** Whatever the selection was, after a series of clicks it holds at most
      one bin, and that bin is the last one clicked. */
  lemma {:induction false} ClicksSelectAtMostOne(selectedBins: seq<string>, clicks: seq<string>)
    requires clicks != []
    ensures var sel := Clicks(selectedBins, clicks);
      |sel| <= 1 && (sel != [] ==> sel == [clicks[|clicks| - 1]])
  {
    if |clicks| > 1 {
      ClicksSelectAtMostOne(selectedBins, clicks[..|clicks| - 1]);
    }
  }

  /** The selection after a series of clicks. */
  function Clicks(selectedBins: seq<string>, clicks: seq<string>): seq<string> {
    if clicks == [] then selectedBins
    else HandleToggle(Clicks(selectedBins, clicks[..|clicks| - 1]), clicks[|clicks| - 1])
  }

  /** The auto-select effect: with exactly one bin shown, it is selected. */
  function AutoSelection(stockLocation: seq<StockLocation>): (sel: Option<seq<string>>)
    ensures sel.Some? <==> |stockLocation| == 1
    ensures sel.Some? ==> sel.value == [stockLocation[0].id]
  {
    if |stockLocation| == 1 then Some([stockLocation[0].id]) else None
  }

  /** An input of the move-quantity stepper. */
  datatype QtyInput = Decrement | Increment | Typed(value: int)

  /** The move quantity after an input: the decrement button is disabled at 1
      or below, the increment button adds one, and a typed value is taken as
      it is (`min: 1` is only a hint to the browser). */
  function NextMoveQty(moveQty: int, input: QtyInput): int {
    match input
    case Decrement => if moveQty <= 1 then moveQty else moveQty - 1
    case Increment => moveQty + 1
    case Typed(v) => v
  }

  function Inputs(moveQty: int, inputs: seq<QtyInput>): int {
    if inputs == [] then moveQty else NextMoveQty(Inputs(moveQty, inputs[..|inputs| - 1]), inputs[|inputs| - 1])
  }

  /** Button presses alone never take a quantity of at least one below one,
      and each press moves it by at most one. */
  lemma {:induction false} ButtonsKeepMoveQtyPositive(moveQty: int, inputs: seq<QtyInput>)
    requires moveQty >= 1
    requires forall i :: 0 <= i < |inputs| ==> !inputs[i].Typed?
    ensures Inputs(moveQty, inputs) >= 1
    ensures moveQty - |inputs| <= Inputs(moveQty, inputs) <= moveQty + |inputs|
  {
    if inputs != [] {
      ButtonsKeepMoveQtyPositive(moveQty, inputs[..|inputs| - 1]);
    }
  }

  /** A typed quantity is not clamped: whatever is typed, 0 and negative
      values included, becomes the move quantity. */
  lemma TypedQtyNotClamped(moveQty: int, v: int)
    ensures NextMoveQty(moveQty, Typed(v)) == v
  {
  }
}

/** `BinLocationList`: the same selection rules, with a move quantity the
    list keeps for itself and no upper bound from the selected bin. */
module BinLocationList {
  import opened Common
  import opened StockHelpers
  import opened BinLocationTable

  class BinList {
    /** The selection the list last reported to its owner. */
    var selectedBins: seq<string>
    var moveQty: int

    constructor (selectedBins: seq<string>)
      ensures this.selectedBins == selectedBins && moveQty == 1
    {
      this.selectedBins := selectedBins;
      moveQty := 1;
    }

    /** A click on a bin's checkbox. */
    method Toggle(id: string)
      modifies this
      ensures selectedBins == HandleToggle(old(selectedBins), id) && moveQty == old(moveQty)
    {
      selectedBins := HandleToggle(selectedBins, id);
    }

    /** The auto-select effect for the bins shown. */
    method AutoSelect(stockLocation: seq<StockLocation>)
      modifies this
      ensures selectedBins == AutoSelection(stockLocation).GetOr(old(selectedBins)) && moveQty == old(moveQty)
    {
      var sel := AutoSelection(stockLocation);
      if sel.Some? {
        selectedBins := sel.value;
      }
    }

    /** A press of a stepper button, or a typed value. */
    method ChangeMoveQty(input: QtyInput)
      modifies this
      ensures moveQty == NextMoveQty(old(moveQty), input) && selectedBins == old(selectedBins)
    {
      moveQty := NextMoveQty(moveQty, input);
    }
  }
}
