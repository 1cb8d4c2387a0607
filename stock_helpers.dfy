/** The scanning app's bin records and the two quantity steppers of
    `lib/stockHelpers.ts`, which return a new list and leave their input
    alone. */
module StockHelpers {
  import opened Common

  /** One bin record of the scanning app: the `bin_qty` metaobject id, the
      bin's name, its quantity and the id of its `bin_location`. */
  datatype StockLocation = StockLocation(id: string, binLocation: string, qty: int, binLocationId: Option<string>)

  function Qtys(locs: seq<StockLocation>): (qs: seq<int>)
    ensures |qs| == |locs| && forall i :: 0 <= i < |locs| ==> qs[i] == locs[i].qty
  {
    seq(|locs|, i requires 0 <= i < |locs| => locs[i].qty)
  }

  /** The stock of the variant summed over its bins. */
  function TotalQty(locs: seq<StockLocation>): int {
    Sum(Qtys(locs))
  }

  /** Replacing one record's quantity moves the total by the difference. */
  lemma TotalQtyAfterSet(locs: seq<StockLocation>, k: nat, q: int)
    requires k < |locs|
    ensures TotalQty(locs[k := locs[k].(qty := q)]) == TotalQty(locs) - locs[k].qty + q
  {
    assert Qtys(locs[k := locs[k].(qty := q)]) == Qtys(locs)[k := q];
    SumUpdate(Qtys(locs), k, q);
  }

  /** `incrementQty(stockLocation, index)` */
  function IncrementQty(locs: seq<StockLocation>, index: int): (r: seq<StockLocation>)
    ensures |r| == |locs|
    ensures forall i :: 0 <= i < |locs| && i != index ==> r[i] == locs[i]
    ensures 0 <= index < |locs| ==> r[index] == locs[index].(qty := locs[index].qty + 1)
  {
    seq(|locs|, i requires 0 <= i < |locs| =>
      if i == index then locs[i].(qty := locs[i].qty + 1) else locs[i])
  }

  /** `decrementQty(stockLocation, index)`: `Math.max(0, qty - 1)` */
  function DecrementQty(locs: seq<StockLocation>, index: int): (r: seq<StockLocation>)
    ensures |r| == |locs|
    ensures forall i :: 0 <= i < |locs| && i != index ==> r[i] == locs[i]
    ensures 0 <= index < |locs| ==>
              r[index] == locs[index].(qty := if locs[index].qty - 1 > 0 then locs[index].qty - 1 else 0)
  {
    seq(|locs|, i requires 0 <= i < |locs| =>
      if i == index then locs[i].(qty := if locs[i].qty - 1 > 0 then locs[i].qty - 1 else 0) else locs[i])
  }

  /** An index outside the list changes nothing. */
  lemma StepOutOfRange(locs: seq<StockLocation>, index: int)
    requires index < 0 || index >= |locs|
    ensures IncrementQty(locs, index) == locs
    ensures DecrementQty(locs, index) == locs
  {
  }

  /** Decrementing never produces a negative quantity: the stepped bin ends
      at zero or more, and a list without negative quantities stays so. */
  lemma DecrementNeverNegative(locs: seq<StockLocation>, index: int)
    ensures 0 <= index < |locs| ==> DecrementQty(locs, index)[index].qty >= 0
    ensures (forall i :: 0 <= i < |locs| ==> locs[i].qty >= 0) ==>
              forall i :: 0 <= i < |locs| ==> DecrementQty(locs, index)[i].qty >= 0
  {
  }

  /** A bin already at zero stays at zero. */
  lemma DecrementAtZero(locs: seq<StockLocation>, index: int)
    requires 0 <= index < |locs| && locs[index].qty == 0
    ensures DecrementQty(locs, index) == locs
  {
  }

  /** For a non-negative quantity, a decrement undoes an increment at the same
      index. */
  lemma DecrementUndoesIncrement(locs: seq<StockLocation>, index: int)
    requires 0 <= index < |locs| ==> locs[index].qty >= 0
    ensures DecrementQty(IncrementQty(locs, index), index) == locs
  {
  }

  /** An increment adds exactly one unit to the total. */
  lemma IncrementAddsOne(locs: seq<StockLocation>, index: int)
    requires 0 <= index < |locs|
    ensures TotalQty(IncrementQty(locs, index)) == TotalQty(locs) + 1
  {
    assert IncrementQty(locs, index) == locs[index := locs[index].(qty := locs[index].qty + 1)];
    TotalQtyAfterSet(locs, index, locs[index].qty + 1);
  }

  /** A decrement removes one unit from the total, or none when the bin is
      already empty. */
  lemma DecrementRemovesAtMostOne(locs: seq<StockLocation>, index: int)
    requires 0 <= index < |locs| && locs[index].qty >= 0
    ensures TotalQty(DecrementQty(locs, index)) ==
              TotalQty(locs) - (if locs[index].qty > 0 then 1 else 0)
  {
    var q := if locs[index].qty - 1 > 0 then locs[index].qty - 1 else 0;
    assert DecrementQty(locs, index) == locs[index := locs[index].(qty := q)];
    TotalQtyAfterSet(locs, index, q);
  }
}
