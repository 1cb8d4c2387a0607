# Warehouse bin stock: a Dafny model

This project models the core of a Shopify warehouse add-on that keeps a
variant's stock split over named bin locations. Each bin's stock is a
`bin_qty` metaobject (a `qty` field and a reference to a `bin_location`
metaobject). Shopify's on-hand quantity is meant to equal the sum of the
bins. Two front ends are covered.

- **The mobile scanning app.**
  - Scanning a product barcode (leading digit) loads the variant and its bins.
  - Scanning bin barcodes (leading letter) moves `moveQty` units from a source
    bin to a destination bin.
  - The `moveStockBetweenBins` server action writes the source bin, then the
    destination bin, then a stock-movement log row.
  - The `saveInventoryChanges` server action writes back the edited bins.
    Before that, it sets Shopify's on-hand quantity to the bins' sum when the
    two disagree.
- **The admin extension.**
  - `useWarehouseStock` loads a variant's bins into stock items.
  - The variant block edits quantities in place.
  - `saveStock` writes back the edited quantities, optionally sets one more
    linked bin, and sets Shopify's on-hand quantity to the sum.
  - `useBinLocationSearch` scores and ranks `bin_location` metaobjects for
    the "add bin" form.

Remote services are modelled as classes with a call trace:
- `ServerApi.Shop` for the server actions;
- `AdminApi.Admin` for the extension's GraphQL mutations and correction log.

Which calls a service rejects is fixed when it is created. The contracts
therefore state the exact calls issued, in order, together with the resulting
remote state and the reported outcome. Component state (React/Preact `useState`)
becomes a class whose methods are the handlers.

JavaScript semantics are modelled explicitly:
- `parseInt` is a prefix parse that can give `NaN`. Extension quantities are
  `WarehouseTypes.Qty`, which is `NaN` or a number.
- `NaN !== NaN` holds, so a `NaN` quantity is always dirty.
- `||` lets an empty string fall through; `??` does not.
- `new Map` and `Object.fromEntries` keep the last entry per key.
- `localeCompare` is a lexicographic order on characters, proved total and
  transitive.

`Promise.all` over the write-backs is modelled as a sequence in list order.
Every write is issued. The error reported is the first rejection in list order.

Quantities are unbounded integers, and arithmetic on them is exact. A
JavaScript number is a double, which holds every integer only up to 2^53 in
magnitude. The round-trip lemmas are stated within that range. "## Left out"
names two kinds of member. The first are the members whose stated
conservation or step properties would fail beyond that range. The second
are the parsers that keep a number the source would round, or would read as
`Infinity`. Where the source turns `Infinity` into something else, as
`Number.isFinite` does in `saveStock` and in `findBinQtyByBarcode`, the model
does the same.

A product scan clears the variant, its bins and the selection, but not the
source bin picked earlier. A later bin scan of the new product's bins then
moves stock out of that earlier bin. `MobileScanner.SourceBinOutlivesProduct`
states this behaviour.

## Model

| member | source | states |
|---|---|---|
| Common.LastWins | app/actions/saveInventoryChanges.ts:23 | the keys of `new Map(pairs)` are exactly the keys of the pairs |
| Common.LastWinsLookup | app/actions/saveInventoryChanges.ts:23 | a key with no later duplicate maps to its own pair's value |
| WarehouseTypes.QtyTextRoundTrip | bin-location-extension/extensions/bin-location/src/services/stockService.ts:90 | for `NaN` and for integers of at most 2^53 in magnitude, `parseInt(String(q))` gives back `q`, so a written quantity is reloaded unchanged |
| WarehouseTypes.QtySum | bin-location-extension/extensions/bin-location/src/services/stockService.ts:175 | the `reduce` sum is `NaN` exactly when some quantity is `NaN` |
| WarehouseTypes.QtySumOfNumbers | bin-location-extension/extensions/bin-location/src/services/stockService.ts:175 | without `NaN` the sum is the integer sum of the quantities |
| Helpers.GetFieldValue | bin-location-extension/extensions/bin-location/src/utils/helpers.ts:46-47 | the value of the first field with the key; absent when no field has it |
| Helpers.FirstReference | bin-location-extension/extensions/bin-location/src/hooks/useWarehouseStock.ts:57 | the reference of the first field with the key; absent when no field has it |
| Helpers.AssertNoGqlErrors | bin-location-extension/extensions/bin-location/src/utils/helpers.ts:14-18 | fails exactly when there are GraphQL errors |
| Helpers.AssertNoUserErrors | bin-location-extension/extensions/bin-location/src/utils/helpers.ts:23-27 | fails exactly when a non-empty user-error list is present |
| Helpers.ValidateResponse | bin-location-extension/extensions/bin-location/src/utils/helpers.ts:32-35 | passes exactly when the reply has neither kind of error |
| Helpers.GqlErrorsTakePrecedence | bin-location-extension/extensions/bin-location/src/utils/helpers.ts:32-35 | with GraphQL errors present, the thrown message is their `" \| "` join, whatever the user errors |
| Helpers.UserErrorsMessageAgrees | bin-location-extension/extensions/bin-location/src/utils/helpers.ts:40-41 | `getUserErrorsMessage` is the message the assertion throws, and `""` when it does not throw |
| Helpers.CleanReplyPasses | bin-location-extension/extensions/bin-location/src/utils/helpers.ts:32-35 | a reply with no errors and no user-error list validates |
| StockHelpers.IncrementQty | lib/stockHelpers.ts:3-10 | same length; entry `index` gets `qty + 1`, its other fields kept; every other entry identical |
| StockHelpers.DecrementQty | lib/stockHelpers.ts:12-19 | same length; entry `index` gets `max(0, qty - 1)`; every other entry identical |
| StockHelpers.StepOutOfRange | lib/stockHelpers.ts:7-18 | a negative or too large index returns the list unchanged, for both steppers |
| StockHelpers.DecrementNeverNegative | lib/stockHelpers.ts:17 | the stepped bin is never negative, and a list without negatives stays so |
| StockHelpers.DecrementAtZero | lib/stockHelpers.ts:17 | a bin at zero stays at zero |
| StockHelpers.DecrementUndoesIncrement | lib/stockHelpers.ts:3-19 | for a non-negative bin, decrement after increment restores the list |
| StockHelpers.IncrementAddsOne | lib/stockHelpers.ts:8 | an increment adds exactly one unit to the total |
| StockHelpers.DecrementRemovesAtMostOne | lib/stockHelpers.ts:17 | a decrement removes one unit from the total, none when the bin is empty |
| ServerApi.Shop.BinUpdateResult | app/actions/updateBinQty.ts:14-23 | an update fails exactly for a rejected metaobject, always with a non-empty message |
| ServerApi.Shop.SyncResult | app/actions/syncShopifyInventory.ts:21-29 | the sync fails exactly when a non-empty user error comes back |
| ServerApi.Shop.UpdateBinQtyById | app/actions/updateBinQty.ts:8-32 | records the call; an accepted update sets the bin's quantity; nothing else changes |
| ServerApi.Shop.SyncShopifyInventory | app/actions/syncShopifyInventory.ts:11-37 | records the call; an accepted sync sets the on-hand quantity; nothing else changes |
| ServerApi.Shop.LogMoveMovement | app/actions/moveStockBetweenBins.ts:58-66 | appends the row to the movement log and records the call |
| MoveStock.QuantitiesAfterMove | app/actions/moveStockBetweenBins.ts:35-36 | source loses and destination gains exactly `moveQty`, so the pair's total is conserved; within the source's stock, the source ends non-negative |
| MoveStock.MoveCallOrder | app/actions/moveStockBetweenBins.ts:39-66 | the source write comes first; the destination write only after an accepted source write; the log row last, and only when both writes were accepted |
| MoveStock.MoveStockBetweenBins | app/actions/moveStockBetweenBins.ts:20-69 | the outcome, the calls, the bins (a rejected destination write leaves the source already decreased) and the log (one row with the before-quantities, only on success) |
| MoveStock.MoveConservesStock | app/actions/moveStockBetweenBins.ts:35-55 | a completed move between two of a variant's bins leaves the variant's total in the shop unchanged |
| SaveInventoryChanges.ChangedBinsMembership | app/actions/saveInventoryChanges.ts:24 | a bin is written back exactly when it is a current bin with no initial entry or a quantity different from it |
| SaveInventoryChanges.ChangedBinsAppend | app/actions/saveInventoryChanges.ts:24 | the changed bins keep list order |
| SaveInventoryChanges.NoEditsNoChanges | app/actions/saveInventoryChanges.ts:23-24 | saving the snapshot itself writes no bin back |
| SaveInventoryChanges.FailedUpdates | app/actions/saveInventoryChanges.ts:57 | every bin reported failed had its write rejected |
| SaveInventoryChanges.FailedUpdatesMembership | app/actions/saveInventoryChanges.ts:57 | a bin is reported failed exactly when it was written and its write was rejected |
| SaveInventoryChanges.UpdateBins | app/actions/saveInventoryChanges.ts:49-57 | one write per changed bin, in order; the shop's bins after the accepted writes; the rejected bins collected in order |
| SaveInventoryChanges.FailureMessageNamesEveryBin | app/actions/saveInventoryChanges.ts:60-68 | the failure message names every failed bin |
| SaveInventoryChanges.SaveInventoryChanges | app/actions/saveInventoryChanges.ts:14-81 | sync iff the sum differs from on-hand; missing ids or a failed sync return before any write; otherwise one write per changed bin, the bins and on-hand after, and the summary or the failure message |
| AdminApi.Admin.UpdateQtyField | bin-location-extension/extensions/bin-location/src/services/stockService.ts:87-93 | records the update; an accepted one sets the `qty` field text; the correction log stays in step with the calls |
| AdminApi.Admin.SetQuantity | bin-location-extension/extensions/bin-location/src/services/stockService.ts:176-183 | records the call; an accepted one sets the on-hand quantity, and only a number is accepted |
| AdminApi.Admin.SyncResult | bin-location-extension/extensions/bin-location/src/services/stockService.ts:175-183 | a `NaN` sum, sent as `null`, is always refused |
| AdminApi.Admin.LogCorrectionMovement | bin-location-extension/extensions/bin-location/src/services/stockMovementLog.ts:68-112 | appends the correction row, which carries no title; it never fails for the caller |
| WarehouseStock.StockNodes | bin-location-extension/extensions/bin-location/src/hooks/useWarehouseStock.ts:50-53 | the nodes of the first `warehouse_stock` metafield, none when there is none |
| WarehouseStock.ParseItem | bin-location-extension/extensions/bin-location/src/hooks/useWarehouseStock.ts:55-66 | id kept; `binLocationId` is the reference's id; bin name falls back from the reference's `bin_location`, to its handle, to the node's handle |
| WarehouseStock.ParsedQtyReadsBack | bin-location-extension/extensions/bin-location/src/hooks/useWarehouseStock.ts:63-65 | a `qty` field written as `String(q)`, with `q` at most 2^53 in magnitude or `NaN`, loads as `q` |
| WarehouseStock.MissingQtyIsZero | bin-location-extension/extensions/bin-location/src/hooks/useWarehouseStock.ts:63 | a missing or empty `qty` loads as 0 |
| WarehouseStock.ParseItems | bin-location-extension/extensions/bin-location/src/hooks/useWarehouseStock.ts:55-66 | one item per node, in order |
| WarehouseStock.InitialQtyByIdKeys | bin-location-extension/extensions/bin-location/src/hooks/useWarehouseStock.ts:68 | the map's keys are exactly the items' ids |
| WarehouseStock.InitialQtyByIdLookup | bin-location-extension/extensions/bin-location/src/hooks/useWarehouseStock.ts:68 | with distinct ids, each item's id maps to its loaded quantity |
| WarehouseStock.WarehouseStock.Load | bin-location-extension/extensions/bin-location/src/hooks/useWarehouseStock.ts:34-80 | the state after each outcome; a variant without an inventory level stores items and ids, then fails with the load message and keeps the old location |
| StockService.DirtyItems | bin-location-extension/extensions/bin-location/src/services/stockService.ts:82-84 | an item is dirty exactly when its quantity is `NaN` or differs from a loaded one; an unloaded number is never dirty |
| StockService.NoEditsNothingDirty | bin-location-extension/extensions/bin-location/src/services/stockService.ts:82-84 | saving what was loaded, with no `NaN`, writes nothing back |
| StockService.FirstFailureSpec | bin-location-extension/extensions/bin-location/src/services/stockService.ts:86-102 | no error exactly when every update is accepted; an error reported is some rejected item's |
| StockService.OneWritePerDirtyItem | bin-location-extension/extensions/bin-location/src/services/stockService.ts:86-102 | the write-back issues exactly one `qty` update per dirty item, in order, with its current quantity |
| StockService.AcceptedWritesReadBack | bin-location-extension/extensions/bin-location/src/services/stockService.ts:86-93 | after the write-back, every accepted item whose quantity is at most 2^53 in magnitude or `NaN` has a field that reads back as that quantity |
| StockService.WriteBackItem | bin-location-extension/extensions/bin-location/src/services/stockService.ts:87-101 | one item's `qty` update, followed by its correction row only when accepted |
| StockService.UpdateDirtyItems | bin-location-extension/extensions/bin-location/src/services/stockService.ts:86-102 | all updates issued, a correction row after each accepted one, fields after, first rejection reported |
| StockService.FindBinIndex | bin-location-extension/extensions/bin-location/src/services/stockService.ts:122 | the first index whose `binLocationId` is the bin's id; none exactly when no item is linked |
| StockService.AddBinTarget | bin-location-extension/extensions/bin-location/src/services/stockService.ts:107-132 | the form's checks in order: a selection, then a finite whole quantity of at least 0, then a linked bin; each error message |
| StockService.OverflowingQtyRefused | bin-location-extension/extensions/bin-location/src/services/stockService.ts:117-119 | a typed quantity that `parseInt` reads as `Infinity` is refused as invalid |
| StockService.UpdateExistingBinQty | bin-location-extension/extensions/bin-location/src/services/stockService.ts:143-167 | the update, then on acceptance the correction row and the array entry at that index only |
| StockService.ItemsAfterAddBin | bin-location-extension/extensions/bin-location/src/services/stockService.ts:166 | one quantity replaced; every other item unchanged |
| StockService.AddBinSumDelta | bin-location-extension/extensions/bin-location/src/services/stockService.ts:175 | without `NaN`, the synced sum moves by exactly the change of the replaced quantity |
| StockService.SyncInventory | bin-location-extension/extensions/bin-location/src/services/stockService.ts:169-184 | sends the items' sum; an accepted sync sets on-hand to it |
| StockService.AddBinStep | bin-location-extension/extensions/bin-location/src/services/stockService.ts:107-132 | the add-bin outcome and calls; the linked bin's `qty` field holds the typed quantity when its update is accepted, and no other field changes; on success the returned copy is the items with the one quantity replaced |
| StockService.AddBinAndSync | bin-location-extension/extensions/bin-location/src/services/stockService.ts:104-140 | a failed add returns before the sync; otherwise the sync runs only with both ids and sends the sum of the final items; the `qty` fields are those after the add-bin step |
| StockService.SaveStock | bin-location-extension/extensions/bin-location/src/services/stockService.ts:62-141 | the write-back comes first; a rejection stops the save after it; then the add-bin step and the sync, with the calls, the final `qty` fields, on-hand and result of each case |
| BlockExtension.ParseItem | bin-location-extension/extensions/bin-location/src/BlockExtension.tsx:49-61 | the block's fallback chain, which also tries the node's own `bin` field; no `binLocationId`; same quantity as the hook |
| BlockExtension.SameNameWithoutBinField | bin-location-extension/extensions/bin-location/src/BlockExtension.tsx:53-57 | without a `bin` field, the block and the hook name a bin alike |
| BlockExtension.ParseItems | bin-location-extension/extensions/bin-location/src/BlockExtension.tsx:49-61 | one item per node, in order |
| BlockExtension.QtyOfInput | bin-location-extension/extensions/bin-location/src/BlockExtension.tsx:75 | the parsed integer, or 0 when the text holds none (`NaN || 0`) |
| BlockExtension.QtyOfInputRoundTrip | bin-location-extension/extensions/bin-location/src/BlockExtension.tsx:75 | typing back the shown `String(qty)` gives the same quantity, for quantities of at most 2^53 in magnitude |
| BlockExtension.WithQty | bin-location-extension/extensions/bin-location/src/BlockExtension.tsx:78 | items with the id get the new quantity, others unchanged |
| BlockExtension.LaterEditWins | bin-location-extension/extensions/bin-location/src/BlockExtension.tsx:78 | a later edit of a bin overrides an earlier one |
| BlockExtension.EditsCommute | bin-location-extension/extensions/bin-location/src/BlockExtension.tsx:78 | edits of different bins commute |
| WarehouseStock.IdQtyPairs | bin-location-extension/extensions/bin-location/src/BlockExtension.tsx:85 | one `{ id, qty }` per item, in item order |
| BlockExtension.Block.Load | bin-location-extension/extensions/bin-location/src/BlockExtension.tsx:28-72 | the block's state after each outcome of the query |
| BlockExtension.Block.HandleQtyChange | bin-location-extension/extensions/bin-location/src/BlockExtension.tsx:74-91 | items updated by id; the full list applied to the metafield when the host allows it |
| BinLocationSearch.Score | bin-location-extension/extensions/bin-location/src/hooks/useBinLocationSearch.ts:88-91 | 3 iff the lower-cased title starts with the query, at least 2 iff it contains it, at least 1 iff title or handle contains it, case-insensitively |
| BinLocationSearch.CapitalQueryScoresAtMostOne | bin-location-extension/extensions/bin-location/src/hooks/useBinLocationSearch.ts:81-89 | a query with a capital letter never scores above 1 |
| BinLocationSearch.LowerQueryMatchesIff | bin-location-extension/extensions/bin-location/src/hooks/useBinLocationSearch.ts:88-93 | a lower-case query matches exactly the hits whose lower-cased title or handle contains it |
| BinLocationSearch.ScoreNodes | bin-location-extension/extensions/bin-location/src/hooks/useBinLocationSearch.ts:82-92 | one scored hit per node, in order |
| BinLocationSearch.Matching | bin-location-extension/extensions/bin-location/src/hooks/useBinLocationSearch.ts:93 | exactly the hits with a positive score |
| BinLocationSearch.RanksBeforeTotal | bin-location-extension/extensions/bin-location/src/hooks/useBinLocationSearch.ts:94 | any two hits are comparable |
| BinLocationSearch.RanksBeforeTransitive | bin-location-extension/extensions/bin-location/src/hooks/useBinLocationSearch.ts:94 | the ranking order is transitive |
| BinLocationSearch.Insert | bin-location-extension/extensions/bin-location/src/hooks/useBinLocationSearch.ts:94 | inserting into a ranked list keeps it ranked and adds exactly the hit |
| BinLocationSearch.Rank | bin-location-extension/extensions/bin-location/src/hooks/useBinLocationSearch.ts:94 | the sort: score descending then title ascending, a permutation of its input |
| BinLocationSearch.InsertTies | bin-location-extension/extensions/bin-location/src/hooks/useBinLocationSearch.ts:94 | an inserted hit goes ahead of the hits it ties with |
| BinLocationSearch.RankStable | bin-location-extension/extensions/bin-location/src/hooks/useBinLocationSearch.ts:94-95 | the sort is stable: hits with the same score and title keep their node order |
| BinLocationSearch.Top | bin-location-extension/extensions/bin-location/src/hooks/useBinLocationSearch.ts:95 | a prefix of at most three hits |
| BinLocationSearch.SearchResults | bin-location-extension/extensions/bin-location/src/hooks/useBinLocationSearch.ts:80-95 | the top hits projected to `{ id, handle, title }` in rank order |
| BinLocationSearch.RankedHitMatches | bin-location-extension/extensions/bin-location/src/hooks/useBinLocationSearch.ts:93-94 | ranking keeps exactly the matching hits |
| BinLocationSearch.TopRanksFirst | bin-location-extension/extensions/bin-location/src/hooks/useBinLocationSearch.ts:95 | what the truncation drops ranks after everything it keeps |
| BinLocationSearch.SearchOffersBestMatches | bin-location-extension/extensions/bin-location/src/hooks/useBinLocationSearch.ts:82-95 | results are ranked, come from nodes with a positive score, and outrank every matching hit left out |
| BinLocationSearch.CapitalQueryOffersScoreOne | bin-location-extension/extensions/bin-location/src/hooks/useBinLocationSearch.ts:81-95 | a query with a capital letter only offers hits of score 1 |
| BinLocationSearch.FindBinLocationByHandle | bin-location-extension/extensions/bin-location/src/hooks/useBinLocationSearch.ts:47-57 | none exactly for an empty handle or no exact match; otherwise the first node with that handle, titled by its `bin_location` field |
| BinLocationSearch.Search.OnSelectResult | bin-location-extension/extensions/bin-location/src/hooks/useBinLocationSearch.ts:33-37 | selects the result, shows its title, else handle, else `""`, and clears the results |
| BinLocationSearch.Search.ResetDraft | bin-location-extension/extensions/bin-location/src/hooks/useBinLocationSearch.ts:39-45 | everything back to empty |
| BinLocationSearch.Search.HandleQueryChange | bin-location-extension/extensions/bin-location/src/hooks/useBinLocationSearch.ts:59-62 | typing sets the query and drops the selection |
| BinLocationSearch.Search.SearchEffect | bin-location-extension/extensions/bin-location/src/hooks/useBinLocationSearch.ts:65-103 | no search when not adding; an empty query or a selection clears the results; otherwise the ranked results, kept as they were when the query throws |
| BinLocationTable.HandleToggle | components/m/BinLocationTable.tsx:41-46 | at most one bin selected; clicking the selected bin clears, any other selects it alone |
| BinLocationTable.ToggleTwice | components/m/BinLocationTable.tsx:42-44 | two clicks on a bin restore a selection of nothing or that bin |
| BinLocationTable.ClicksSelectAtMostOne | components/m/BinLocationTable.tsx:41-46 | after any clicks, at most one bin is selected, and it is the last one clicked |
| BinLocationTable.AutoSelection | components/m/BinLocationTable.tsx:35-39 | a single shown bin is selected; otherwise the selection is left alone |
| BinLocationTable.ButtonsKeepMoveQtyPositive | components/m/BinLocationTable.tsx:96-118 | button presses from 1 or more keep `moveQty` at 1 or more, each moving it by at most one |
| BinLocationTable.TypedQtyNotClamped | components/m/BinLocationTable.tsx:102-113 | a typed quantity is not clamped: any typed value, 0 and negatives included, becomes the move quantity |
| BinLocationList.BinList.constructor | components/m/BinLocationList.tsx:29 | the list's own `moveQty` starts at 1 |
| BinLocationList.BinList.Toggle | components/m/BinLocationList.tsx:38-43 | the same single-selection rule as the table |
| BinLocationList.BinList.AutoSelect | components/m/BinLocationList.tsx:32-36 | the same auto-select rule as the table |
| BinLocationList.BinList.ChangeMoveQty | components/m/BinLocationList.tsx:88-111 | the table's stepper rules, with no upper bound from the selected bin |
| MobileScanner.MatchBin | components/m/MobileScanner.tsx:46-48 | the first shown bin equal to the barcode up to case; none exactly when no bin is |
| MobileScanner.MatchBinIgnoresCase | components/m/MobileScanner.tsx:46-48 | barcodes differing only in case match the same bin |
| MobileScanner.DecideBinScan | components/m/MobileScanner.tsx:36-99 | no variant or no bins: rejected; no match: not found; first match is the source; a move only to another bin and only when the source holds at least `moveQty` |
| MobileScanner.AfterMove | components/m/MobileScanner.tsx:79-94 | a failure keeps the state and reports the message or a fallback; a success clears variant, bins, selection, both bins and resets `moveQty` to 1 |
| MobileScanner.ProductScan | components/m/MobileScanner.tsx:104-139 | selection cleared; source and `moveQty` kept; a found variant is kept even with no bins, then with an error; each error message |
| MobileScanner.TwoScansMove | components/m/MobileScanner.tsx:50-78 | two bin scans, the first picking the source, lead to a move from it to the second |
| MobileScanner.SourceBinOutlivesProduct | components/m/MobileScanner.tsx:50-78 | after a product scan, a bin scan of the new product's bins moves from the source bin picked before it |
| MobileScanner.NoBinScanAfterMove | components/m/MobileScanner.tsx:36-94 | after a completed move no bin scan is accepted until a product is scanned |
| MobileScanner.Scanner.constructor | components/m/MobileScanner.tsx:17-27 | the initial state, with `moveQty` 1 |
| MobileScanner.Scanner.HandleScan | components/m/MobileScanner.tsx:29-140 | an empty barcode changes nothing; a barcode led by neither a letter nor a digit only clears the error; bin and product paths as specified; the shop is touched only by a move |
| MobileScanner.Scanner.ScanBin | components/m/MobileScanner.tsx:36-101 | the bin path: state and shop after each decision |
| MobileScanner.Scanner.CompleteMove | components/m/MobileScanner.tsx:65-94 | the move's calls, bins and log, and the state after it |
| MobileScanner.Scanner.ScanProduct | components/m/MobileScanner.tsx:104-139 | the product path's state |
| MobileScanner.Scanner.ToggleBin | components/m/MobileScanner.tsx:169-175 | the table's selection callback changes only the selection |
| MobileScanner.Scanner.AutoSelect | components/m/MobileScanner.tsx:169-175 | the table's auto-select changes only the selection |
| MobileScanner.Scanner.ChangeMoveQty | components/m/MobileScanner.tsx:169-175 | the table's stepper changes only `moveQty` |
| ProductsApi.FindValue | lib/shopify/productsApi.ts:109-114 | the value of the first field with the key; none exactly when no field has it |
| ProductsApi.Coalesce | lib/shopify/productsApi.ts:108-115 | `??`: only a missing value falls through, an empty one does not |
| ProductsApi.QtyOf | lib/shopify/productsApi.ts:112-124 | the `qty`, else `Qty`, else `"0"` text parsed; 0 when it holds no number or one `parseFloat` reads as infinite |
| ProductsApi.ParseEntry | lib/shopify/productsApi.ts:106-126 | dropped exactly when the bin name is empty; otherwise the name and quantity |
| ProductsApi.MissingQtyIsZero | lib/shopify/productsApi.ts:112-116 | a reference with neither quantity field has quantity 0 |
| ProductsApi.EmptyBinLocationShadows | lib/shopify/productsApi.ts:108-120 | for every field list: an empty `bin_location` hides any `binLocation`, so the reference is dropped |
| ProductsApi.Parsed | lib/shopify/productsApi.ts:105-126 | one parse per reference, in order |
| ProductsApi.PresentMembership | lib/shopify/productsApi.ts:127 | the filter keeps exactly the non-null entries |
| ProductsApi.PresentAppend | lib/shopify/productsApi.ts:127 | the filter keeps order |
| ProductsApi.EntriesMembership | lib/shopify/productsApi.ts:105-127 | an entry is exactly the parse of some reference with a bin name, so no entry has an empty name |
| ProductsApi.EntriesAppend | lib/shopify/productsApi.ts:105-127 | the entries keep reference order |
| ProductsApi.FindBinQty | lib/shopify/productsApi.ts:100-129 | `variantCount` is the number of edges; entries come from the first variant only, none without variants |
| ProductsApi.FirstVariantOnly | lib/shopify/productsApi.ts:102-103 | a second variant's references never reach the entries |

## Left out

- Network, database and GraphQL transport are not modelled. Each remote call is a recorded call whose outcome is fixed in advance. The query and mutation texts are not modelled, and neither is the JSON text of the block's metafield value.
- OAuth, sessions and the staff-token decoding are not modelled. `StockService.SaveStock` takes the user's e-mail as a parameter instead of looking it up from the token.
- `StockService.UpdateDirtyItems`: `Promise.all` runs the updates concurrently and rejects with whichever failure settles first. The model issues the updates in list order and reports the first rejection in that order.
- `SaveInventoryChanges.SaveInventoryChanges`: the bin writes, concurrent in the original, are issued in list order. Its catch-all branch ("Failed to save inventory changes.") is not reachable, because the modelled calls report failures instead of throwing.
- `StockService.SaveStock`: a `query` that throws, as opposed to returning errors, is not modelled. Its outcome is folded into the reply given to the service.
- `ProductsApi.QtyOf` reads only the integer part of the text. `parseFloat`'s fractions and exponents are not modelled: "1.5" reads as 1, "1e3" as 1. Non-numeric text, "Infinity" included, reads as 0, as in the source. A digit run `parseFloat` reads as infinite also gives 0, as in the source. A value beyond 2^53 is kept exact where `parseFloat` rounds it.
- `BinLocationTable.NextMoveQty` takes a typed value as an integer. `Number()` of arbitrary text (`""` is 0, non-numbers are `NaN`, fractions) is not modelled.
- Case folding is ASCII only. Trimming, and the whitespace `parseInt` skips, cover ASCII whitespace, the no-break space (U+00A0) and the byte-order mark (U+FEFF). The other Unicode spaces and line terminators that `trim` and `parseInt` skip (U+1680, U+2000-U+200A, U+2028, U+2029, U+202F, U+205F, U+3000) are not covered. `localeCompare` is a character-code order, not a locale collation.
- The search effect's 300 ms debounce and its cleanup are not modelled. `BinLocationSearch.Search.SearchEffect` runs as if the timer had fired, so races between stale replies are not captured.
- The scanner's snackbar timers, its rendering, and the fact that the bin table (and so its callbacks) is only shown when bins are present are not modelled.
- `AdminApi.Admin.LogCorrectionMovement` records the row it is given. That row has no title: the service passes `variantTitle` (stockService.ts:96 and :160), but the payload does not send it (stockMovementLog.ts:74-84). The payload's `activity`, `variantId` and `referenceDoc` fields, and the user-id fallback from the token, are not modelled.
- `WarehouseTypes.QtyTextRoundTrip` holds in JavaScript only while `String` writes every digit. From 10^21 on, `String` writes an exponent, and `parseInt("1e+21")` is 1. The lemma is stated for magnitudes up to 2^53.
- `WarehouseStock.ParsedQtyReadsBack` is stated for magnitudes up to 2^53, for the same reason.
- `StockService.AcceptedWritesReadBack` is stated for magnitudes up to 2^53, for the same reason.
- `BlockExtension.QtyOfInputRoundTrip` is stated for magnitudes up to 2^53, for the same reason.
- `StockService.AddBinTarget` refuses a typed quantity that `parseInt` reads as `Infinity`. A quantity above 2^53 is written as typed, but JavaScript would round it to the nearest double.
- `WarehouseTypes.QtySumOfNumbers` uses exact integer sums. In JavaScript, sums beyond 2^53 round.
- `StockService.AddBinSumDelta` uses exact integer sums. In JavaScript, sums beyond 2^53 round.
- `StockHelpers.DecrementUndoesIncrement` uses exact integers. In JavaScript, beyond 2^53 an increment can round, and the decrement then does not restore the bin.
- `StockHelpers.DecrementRemovesAtMostOne` uses exact integers. In JavaScript, totals beyond 2^53 round.
- `MoveStock.QuantitiesAfterMove` states that the pair's total is conserved, with exact integers. In JavaScript, the quantities after a move round beyond 2^53.
- `StockHelpers.IncrementAddsOne` uses exact integers. In JavaScript, adding one beyond 2^53 can leave the number unchanged.
- `MoveStock.MoveConservesStock` uses exact integers. In JavaScript, the quantities after a move round beyond 2^53.
- `BlockExtension.QtyOfInput` returns the exact integer of the digits typed. `parseInt(newValue, 10) || 0` rounds a value beyond 2^53 to the nearest double. It reads a value of 2^1024 - 2^970 or more as `Infinity`, which `|| 0` keeps as the item's quantity. An integer result has no value for `Infinity`.
- `WarehouseTypes.QtyOfText` reads any run of digits as an integer. `parseInt` reads a value of 2^1024 - 2^970 or more (309 nines, say) as `Infinity`, which `Qty` has no value for.
- lib/stockMovement.ts `logMoveMovement` is not part of this model. Its call is a log append that always completes.
- lib/types/StockLocation.ts is not part of this model. The scanning app's bin record has the fields its users read: `id`, `binLocation`, `qty`, `binLocationId`.
- The `BinLocationList` component is modelled although nothing in the app renders it.
