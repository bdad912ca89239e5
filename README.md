# Almoxarifado Digital — a Dafny model of its stock core

Almoxarifado Digital is a browser application for running a tool and consumables store room.
Its state is a list of items, a list of collaborators, debits, service orders, settings and
an activity log. Items are either simple stock, held as production batches, or kits whose
stock follows from their components. This project models the modules that change that state
or derive reports from it:

- the stock movements: loans and exits, single or as a cart, returns with or without loss,
  direct losses, physical counts, stock entries, replacement of expired units, and allocation
  to a service order;
- the item catalogue: creating items one at a time or in bulk, editing and deleting them,
  batches, kit composition, the stock recalculation, and the value charged for a lost item;
- collaborators, debits, service orders, the settings with their defaults and type lists, the
  warehouse grid with location suggestions and the relocation of unshelved items, the batch
  checkout cart, the form validators, the derived reports, and the activity log.

Pure logic is written as Dafny functions with contracts. A state change is written at two
levels:

- a function `…Outcome` on a `Ledger` value gives the new items, debits, orders and id counter,
  or a refusal;
- a method on the `Store.Warehouse` class, with `modifies` on the fields the source rewrites,
  applies the outcome. Loops in the source stay loops, proved against the outcome function.

Lemmas then state what the source promises about each outcome.

Modules, in dependency order:

- `Common`: Option, trimming on the ECMAScript whitespace set, Latin-1 case mapping, cost arithmetic, filters.
- `Sorting`: a stable insertion sort under a strict weak order; it stands for `Array.prototype.sort`.
- `Batches`: batches, their expiry date, and deduction by first-expiring-first-out.
- `Items`: items and kits, the stock recalculation, propagation to kits, and the debit value.
- `Config`: setting values, the defaults, `getSettings`, and the type lists.
- `Store`: the `Warehouse` class (the local database) and the `Ledger` value.
- `LogManager`, `DebitManager`, `ItemManager`, `StockControl`, `StockCounts`,
  `ServiceOrderManager`, `ServiceOrderItems`, `CollaboratorManager`, `Validator`, `Mapping`,
  `Remapping`, `Settings`, `Session`, `Reporting`: one module per source module. `StockControl`
  and `ServiceOrderManager` are split into two modules each, along the line between operations
  that lend stock and operations that do not.

## Model

| member | source | states |
|---|---|---|
| Batches.ExpiryOf | js/modules/stockcontrol.js:667-674 | the sort key is the base date (manufacture, else purchase) plus the batch's own shelf life, else the item's; with no valid date or no positive shelf life, the batch sorts as never expiring |
| Batches.ExpiresBeforeIsStrictWeak | js/modules/stockcontrol.js:666-676 | the expiry comparator is a strict weak order, so the sort is well defined |
| Batches.Distribute | js/modules/stockcontrol.js:661-689 | the imperative deduction (guard on an empty list, sort, loop, filter) returns exactly FefoDeduct of its inputs |
| Batches.ConsumeLoop | js/modules/stockcontrol.js:678-687 | the `for` loop over the sorted batches computes Consume of them |
| Batches.FefoTotal | js/modules/stockcontrol.js:661-689 | from batches with no negative quantity, deducting q >= 0 leaves max(0, total - q) units |
| Batches.FefoExhausts | js/modules/stockcontrol.js:678-688 | asking for at least the whole stock leaves no batch at all; there is no error for a shortfall |
| Batches.FefoOrder | js/modules/stockcontrol.js:666-688 | the remaining batches are in ascending expiry order, and a later-expiring batch is touched only once every earlier one has been emptied |
| Batches.ConsumeEarliestFirst | js/modules/stockcontrol.js:678-687 | the loop takes from an earlier batch before a later one |
| Batches.ConsumeKeepsOrder | js/modules/stockcontrol.js:678-687 | the loop changes quantities only, so the expiry order survives it |
| Batches.Prune | js/modules/stockcontrol.js:688 | the filter leaves only batches with a positive quantity |
| Batches.PruneMembers | js/modules/stockcontrol.js:688 | every batch the filter keeps is one of its input |
| Batches.FefoExample | js/modules/stockcontrol.js:661-689 | a worked case: batches expiring on days 10 and 5, stored in that order, lose 4 units from the day-5 batch first |
| Items.ItemIndex | js/modules/itemmanager.js:228-231 | the lookup by id finds the first item with that id, or reports that none has it |
| Items.MinBound | js/modules/itemmanager.js:30-34 | `Math.min` over Infinity and finite values: the smaller finite value, Infinity only when both are |
| Items.KitPotentialIsMinimum | js/modules/itemmanager.js:30-34 | a kit's potential is finite exactly when some requirement is positive, and it is then the least floor(stock / required) over the components |
| Items.Recalc | js/modules/itemmanager.js:10-49 | recalculation changes only totalStock and currentStock, and currentStock is never negative |
| Items.RecalcKit | js/modules/itemmanager.js:17-37 | a kit whose components all resolve gets currentStock = max(0, potential) and totalStock = potential + onLoanCount |
| Items.KitStockIsAssemblable | js/modules/itemmanager.js:17-38 | a kit's stock can be assembled from the components' stock, and one more kit cannot |
| Items.RecalcStable | js/modules/itemmanager.js:39-46 | recalculating twice is recalculating once; a simple item's totalStock is the sum of its batches and currentStock = max(0, totalStock - onLoanCount) |
| Items.UpdateAffectedKits | js/modules/itemmanager.js:51-63 | only kits that list the component change, and only in their stock fields |
| Items.UpdateAffectedKitsRecalcs | js/modules/itemmanager.js:51-63 | each kit that lists the component gets the stock a fresh recalculation against the list gives it |
| Items.Prepend | js/modules/stockcontrol.js:63-76 | `history.unshift` followed by truncation to the limit: the new record first, then the old ones in order, at most `limit` records |
| Items.EarliestEntry | js/modules/stockcontrol.js:241-245 | the earliest timestamp among a component's entry records, or none when it has no entry record |
| Items.DebitValue | js/modules/itemmanager.js:510-538 | the value charged for a lost allocation is never negative |
| Items.KitDebitValue | js/modules/itemmanager.js:514-524 | a kit is charged the reduce, from 0, of price × required quantity over the components found in the list, times the quantity lent, floored at 0; neither the debit policy nor the time changes the charge |
| Items.ReduceIsUnitCost | js/modules/itemmanager.js:516-523 | the reduce from any start value adds to it the summed cost of the found components; a component not found adds nothing |
| Items.DepreciatedValue | js/modules/itemmanager.js:527-532 | under the 'depreciated' policy, a returnable item with a shelf life is charged price × (1 - min(days used / shelf life, 1)) per unit |
| Items.DepreciatedDebitBounds | js/modules/itemmanager.js:525-537 | a depreciated charge never exceeds the full price and does not grow with time; the 'replacement' policy charges the full price |
| Items.DepreciationExample | js/modules/itemmanager.js:527-532 | a worked case: an item with a 100-day life is charged half its price after 50 days, and nothing from day 100 on |
| ItemManager.AddBatchOutcome | js/modules/itemmanager.js:387-446 | a batch is added exactly when the item exists and the quantity and dates pass the checks; on success one id is drawn, and on refusal nothing changes |
| ItemManager.AddBatchToItem | js/modules/itemmanager.js:387-446 | the warehouse moves to the outcome's ledger and the method returns its verdict |
| ItemManager.AddBatchSimple | js/modules/itemmanager.js:421-442 | for a simple item: the new batch is appended with the override shelf life (else the item's), stock grows by q, an entry record is prepended, and only kits that use the item change otherwise |
| ItemManager.DeleteBatchOutcome | js/modules/itemmanager.js:448-482 | the deletion succeeds exactly when both the item and the batch exist |
| ItemManager.DeleteBatchFromItem | js/modules/itemmanager.js:448-482 | the warehouse's items become the outcome's, or stay unchanged on refusal |
| ItemManager.DeleteBatchSimple | js/modules/itemmanager.js:462-476 | the batch is spliced out (as a multiset, exactly that one batch goes), stock drops by its quantity, and an adjustment record of minus that quantity is prepended |
| ItemManager.AddToKitOutcome | js/modules/itemmanager.js:540-575 | a component is added exactly when the kit and component exist, the component is no kit and is not yet listed; it is appended with its quantity and nothing else changes |
| ItemManager.AddItemToKit | js/modules/itemmanager.js:540-575 | the warehouse's items become the outcome's, or stay unchanged on refusal |
| ItemManager.AddToKitProperties | js/modules/itemmanager.js:562-572 | after the addition, kits are still built from simple items only, the kit's stock is current, and the component appears once |
| ItemManager.RemoveFromKitOutcome | js/modules/itemmanager.js:577-590 | when the kit exists, its components become those with another id, in order; the item list is otherwise untouched |
| ItemManager.RemoveItemFromKit | js/modules/itemmanager.js:577-590 | the warehouse's items become the outcome's, or stay unchanged on refusal |
| ItemManager.RemoveFromKitProperties | js/modules/itemmanager.js:585-587 | kits stay built from simple items, and the kit's stock is current |
| ItemManager.CompositionOutcome | js/modules/itemmanager.js:592-617 | the composition is replaced exactly when the kit exists and every component names an existing non-kit item |
| ItemManager.UpdateKitComposition | js/modules/itemmanager.js:592-617 | the warehouse's items become the outcome's, or stay unchanged on refusal |
| ItemManager.CompositionProperties | js/modules/itemmanager.js:601-614 | after the replacement, every component resolves, kits stay built from simple items, and the kit's stock is current |
| ItemManager.Created | js/modules/itemmanager.js:89-143 | a new simple item holds its initial stock (0 when not positive); a new kit holds none; no loans |
| ItemManager.CreatedIsRecalculated | js/modules/itemmanager.js:143 | the new item's stock is what the recalculation gives the draft against any list |
| ItemManager.CreateItemOutcome | js/modules/itemmanager.js:66-157 | creation succeeds exactly when no item of the company has the typed name ignoring case (the name as typed, untrimmed) and no item has the barcode; the item, stored under the trimmed name, is appended last, and the counter advances by the ids drawn; on refusal nothing changes |
| ItemManager.CreateItem | js/modules/itemmanager.js:66-157 | the warehouse moves to the outcome's ledger, and the method returns the appended item |
| ItemManager.CreateItemAs | js/modules/itemmanager.js:84-146 | the same, with the returnable types already read from the settings |
| ItemManager.CreatedLedger | js/modules/itemmanager.js:143-146 | a creation the checks as written permit leaves exactly the old ledger plus the new item and the advanced counter |
| ItemManager.CreateKeepsNamesUnique | js/modules/itemmanager.js:68-91 | the corrected check: with the name check applied to the trimmed name, the name as stored, creation keeps a company's item names unique ignoring case |
| ItemManager.CreateOutcomeKeepsNamesUnique | js/modules/itemmanager.js:66-146 | the creation as written keeps a company's item names unique ignoring case whenever the typed name has no surrounding whitespace |
| ItemManager.CreationAsWrittenDuplicates | js/modules/itemmanager.js:68-91 | the duplicate check as written compares the untrimmed name, so " Serra" passes next to "Serra" and is stored as a duplicate |
| ItemManager.EditedItem | js/modules/itemmanager.js:284-313 | an edit keeps a ready kit ready |
| ItemManager.UpdateItemOutcome | js/modules/itemmanager.js:243-342 | the edit succeeds exactly when the item exists, no other item has the typed name ignoring case (untrimmed, as the source compares it), no other item has the trimmed barcode, and the returnable and kit checks pass; only that item changes |
| ItemManager.UpdateItem | js/modules/itemmanager.js:243-342 | the warehouse's items become the outcome's, and the method returns the edited item |
| ItemManager.UpdateItemProperties | js/modules/itemmanager.js:265-325 | the edit keeps id, loans and history, stores the trimmed name, never makes an item with loans non-returnable, empties a new kit, and recalculates a simple item from its batches |
| ItemManager.DeleteItemOutcome | js/modules/itemmanager.js:344-385 | deletion succeeds exactly when the item exists, has no stock or loans, is no kit with components, and no kit lists it; it then removes that item and keeps every other |
| ItemManager.DeleteItem | js/modules/itemmanager.js:344-385 | the warehouse's items become the outcome's, or stay unchanged on refusal |
| ItemManager.DeleteKeepsKitsResolved | js/modules/itemmanager.js:364-375 | a deletion never leaves a kit with a component that names no item |
| ItemManager.BulkStep | js/modules/itemmanager.js:169-212 | each line is either added (a new item with a non-blank, so-far unseen name) or ignored; the lists and the counter stay in step |
| ItemManager.BulkStepOn | js/modules/itemmanager.js:170-212 | the imperative loop body for one line computes exactly BulkStep |
| ItemManager.BulkAddSummary | js/modules/itemmanager.js:159-225 | every line is counted as added or ignored, the old items stay first, and the added names never repeat ignoring case |
| ItemManager.BulkAddReady | js/modules/itemmanager.js:177-208 | the bulk import adds kits only without components, so every kit stays ready |
| ItemManager.AddMultipleItems | js/modules/itemmanager.js:159-225 | the imperative import loop leaves exactly BulkAdd's items and counter, and returns its counts, names and added items |
| ItemManager.AddMultipleItemsAs | js/modules/itemmanager.js:166-213 | the same, with the returnable types already read from the settings |
| Store.CollaboratorIndex | js/modules/collaboratormanager.js:71-74 | the lookup by id finds a collaborator with that id, or reports that none has it |
| Store.OrderIndex | js/modules/serviceordermanager.js:13-16 | the lookup by id finds a service order with that id, or reports that none has it |
| Store.Warehouse.FreshId | js/modules/itemmanager.js:6-8 | each id drawn is new: the counter that stands for `crypto.randomUUID()` advances by one |
| StockControl.Truncate | js/modules/stockcontrol.js:74-76 | `history.length = limit` keeps a prefix of at most `limit` records, and a history within the limit unchanged |
| StockControl.PrependAt | js/modules/stockcontrol.js:63-76 | only the item at p changes, and only its history, by Prepend |
| StockControl.DeductIn | js/modules/stockcontrol.js:661-689 | the in-place deduction on one item of the list equals the pure DeductAt |
| StockControl.PassLoop | js/modules/stockcontrol.js:50-58 | the loop over a kit's components equals the pure Pass over them |
| StockControl.PassDeducts | js/modules/stockcontrol.js:50-54 | every component that resolves loses its required quantity times the multiplier, first-expiring-first-out |
| StockControl.LoanAt | js/modules/stockcontrol.js:31-47 | a loan adds the quantity on loan and appends the allocation and a loan record, and touches no other item |
| StockControl.ExitAt | js/modules/stockcontrol.js:61-70 | an exit deducts from the item's batches first-expiring-first-out and prepends an exit record; only kits that use the item change otherwise |
| StockControl.FinishAt | js/modules/stockcontrol.js:74-78 | the close of a movement truncates the history and recalculates the item, leaving the others alone |
| StockControl.Move | js/modules/stockcontrol.js:31-78 | the imperative movement on the item list equals the pure Movement |
| StockControl.MovementOutcome | js/modules/stockcontrol.js:1-80 | a movement happens exactly when the item and the collaborator exist and 0 < quantity <= currentStock; a loan draws one allocation id; on refusal nothing changes |
| StockControl.MovementOutcomeAllowed | js/modules/stockcontrol.js:26-78 | a permitted movement is a loan for returnable types and kits and an exit otherwise, recorded under the collaborator's name |
| StockControl.RegisterMovementOn | js/modules/stockcontrol.js:1-80 | the heap-free imperative movement equals MovementOutcome |
| StockControl.RegisterMovement | js/modules/stockcontrol.js:1-80 | the warehouse moves to MovementOutcome's ledger and the method returns its verdict |
| StockControl.LendSimple | js/modules/stockcontrol.js:31-47 | lending a simple item keeps its batches, adds the allocation and loan record, and lowers currentStock by q |
| StockControl.ExitSimple | js/modules/stockcontrol.js:61-78 | an exit of a simple item leaves max(0, total - q) units in its batches, keeps its loans and sets totalStock to the new batch total |
| StockControl.LendKit | js/modules/stockcontrol.js:49-58 | lending q kits deducts each component's required quantity times q from that component's batches |
| StockControl.OrderAllocationOutcome | js/modules/stockcontrol.js:691-754 | allocation to a service order happens exactly when the item and the order exist and 0 < quantity <= currentStock; it changes only items |
| StockControl.AllocateItemToServiceOrderOn | js/modules/stockcontrol.js:691-754 | the heap-free imperative allocation equals OrderAllocationOutcome |
| StockControl.AllocateItemToServiceOrder | js/modules/stockcontrol.js:691-754 | the warehouse moves to OrderAllocationOutcome's ledger and the method returns its verdict |
| StockControl.CheckoutLine | js/modules/stockcontrol.js:104-151 | one cart line keeps debits and orders, and draws one id exactly when it is a loan |
| StockControl.Checkout | js/modules/stockcontrol.js:104-151 | the processing loop draws one id per loan line and changes nothing but items |
| StockControl.RecalcUpTo | js/modules/stockcontrol.js:154-159 | the closing pass recalculates exactly the kits and the carted items, and changes only stock fields |
| StockControl.CheckoutOutcome | js/modules/stockcontrol.js:83-165 | a checkout happens exactly when the collaborator exists and every cart line names an item with enough current stock; on refusal nothing changes |
| StockControl.CheckoutOutcomeAllowed | js/modules/stockcontrol.js:100-159 | a permitted checkout is the processing loop followed by the closing recalculation |
| StockControl.CheckCart | js/modules/stockcontrol.js:92-98 | the pre-check loop accepts exactly the carts whose every line is available |
| StockControl.CheckoutLoop | js/modules/stockcontrol.js:104-151 | the imperative processing loop equals Checkout |
| StockControl.RecalcLoop | js/modules/stockcontrol.js:154-159 | the imperative recalculation loop equals RecalcUpTo over the whole list |
| StockControl.CheckoutLineFound | js/modules/stockcontrol.js:105-149 | a line whose item exists is lent (with a fresh allocation) when returnable or a kit, and otherwise goes out as an exit |
| StockControl.RegisterMultipleMovementsOn | js/modules/stockcontrol.js:83-165 | the heap-free imperative checkout equals CheckoutOutcome |
| StockControl.RegisterMultipleMovements | js/modules/stockcontrol.js:83-165 | the warehouse moves to CheckoutOutcome's ledger and the method returns its verdict |
| StockControl.CheckoutRecalculates | js/modules/stockcontrol.js:154-159 | after a checkout every carted simple item holds the stock its batches and loans give |
| StockControl.RecalcUpToSettles | js/modules/stockcontrol.js:154-159 | the closing recalculation gives each simple item the cart names a total equal to its batch sum and an available stock of that sum less what is on loan, floored at zero |
| StockControl.CheckoutLeavesOthers | js/modules/stockcontrol.js:104-159 | a simple item that is not in the cart and belongs to no kit is left exactly as it was |
| StockControl.ReturnTail | js/modules/stockcontrol.js:308-315 | the close of a return truncates the history, lowers the loan count (never below 0) and splices out the allocation |
| StockControl.ReturnOutcome | js/modules/stockcontrol.js:168-318 | a return happens exactly when the item, the allocation and (for a service-order allocation) the order can be found; on refusal nothing changes |
| StockControl.ReturnOutcomeAllowed | js/modules/stockcontrol.js:183-318 | a permitted return first marks the service-order line returned, then closes the allocation |
| StockControl.ReturnAllocationOn | js/modules/stockcontrol.js:168-318 | the heap-free imperative return equals ReturnOutcome |
| StockControl.ReturnAllocation | js/modules/stockcontrol.js:168-318 | the warehouse moves to ReturnOutcome's ledger and the method returns its verdict |
| StockControl.ReturnSimple | js/modules/stockcontrol.js:297-315 | returning a simple item prepends a return record, brings its loans down by the allocation, removes the allocation and recalculates; no debit and no id |
| StockControl.ReturnMarksOrder | js/modules/stockcontrol.js:187-192 | a service-order allocation is marked returned on its order; any other return leaves the orders alone |
| StockControl.RestockAdds | js/modules/stockcontrol.js:264-284 | every component of a kit returned whole gets back a return batch of required quantity × kits returned |
| StockControl.KitFullReturn | js/modules/stockcontrol.js:263-295 | a kit returned without loss gives each resolving component a return batch of its full share |
| StockControl.RestockLoop | js/modules/stockcontrol.js:234-261 | the imperative restock loop equals Restock |
| StockControl.LossLoop | js/modules/stockcontrol.js:199-224 | the imperative loop over the lost component quantities equals LossPass |
| StockControl.HolderIndex | js/modules/stockcontrol.js:325 | the first item holding the allocation, or none when no item holds it |
| StockControl.ReturnEach | js/modules/stockcontrol.js:324-333 | the batch return counts at most one success per id, and with no success nothing changes |
| StockControl.ReturnMultipleOutcome | js/modules/stockcontrol.js:320-341 | the batch return reports success only when some allocation was returned, and otherwise leaves the ledger unchanged |
| StockControl.ReturnMultipleAllocationsOn | js/modules/stockcontrol.js:320-341 | the heap-free imperative batch return equals ReturnMultipleOutcome |
| StockControl.ReturnMultipleAllocations | js/modules/stockcontrol.js:320-341 | the warehouse moves to ReturnMultipleOutcome's ledger and the method returns its verdict |
| StockControl.ReturnMultipleOne | js/modules/stockcontrol.js:324-333 | returning one id in a batch is returning its allocation from the item that holds it, with no losses |
| StockControl.ReturnMultipleComposes | js/modules/stockcontrol.js:320-341 | for any number of ids: the ledger is the single returns composed in order, each id returned from the item that held it in the list read at the start, and success is reported exactly when one of those returns succeeded |
| StockControl.LossCharge | js/modules/stockcontrol.js:408-410 | a debit is added only for a positive amount charged to a collaborator that exists, drawing one id; otherwise nothing changes |
| StockControl.LossOutcome | js/modules/stockcontrol.js:344-416 | a loss is registered exactly when the item and the allocation exist; it never changes orders, and on refusal nothing changes |
| StockControl.RegisterLossOn | js/modules/stockcontrol.js:344-416 | the heap-free imperative loss equals LossOutcome |
| StockControl.LoseLoop | js/modules/stockcontrol.js:365-389 | the imperative reduce over a lost kit's components deducts their stock and sums price × quantity |
| StockControl.LoseStepOn | js/modules/stockcontrol.js:367-387 | one component of the reduce: a found component loses quantity × kits from its batches with a loss record, a refresh of it and its kits, and adds its price × quantity to the charge; a missing one changes nothing and adds nothing |
| StockControl.RegisterLoss | js/modules/stockcontrol.js:344-416 | the warehouse moves to LossOutcome's ledger and the method returns its verdict |
| StockControl.KitLossIsDebitValue | js/modules/stockcontrol.js:365-389 | the amount the reduce sums for a lost kit is the kit's debit value: its unit cost times the quantity |
| StockControl.LossSimple | js/modules/stockcontrol.js:390-412 | losing a simple item deducts the allocation's quantity first-expiring-first-out, prepends a loss record, closes the allocation, and charges the debit value when positive |
| StockControl.LossKit | js/modules/stockcontrol.js:365-406 | losing kits deducts each component's share from that component's batches and closes the kit's allocation |
| StockControl.LossKitCharge | js/modules/stockcontrol.js:365-410 | a lost kit is charged its components' summed cost when that is positive and the collaborator exists |
| StockControl.LossDebits | js/modules/stockcontrol.js:361-410 | the debits after a loss are the charge of the computed loss amount, and nothing else |
| StockCounts.DiscardCharge | js/modules/stockcontrol.js:438-453 | the debit asked for a direct loss charges the collaborator the lost quantity times the price, with the reason prefixed |
| StockCounts.DiscardChargeAmount | js/modules/stockcontrol.js:438 | the amount is quantity × price |
| StockCounts.DiscardDebit | js/modules/stockcontrol.js:452-454 | a debit is added, drawing one id, exactly when the amount rounds to a positive value and a collaborator is named; otherwise nothing changes |
| StockCounts.DirectLossOutcome | js/modules/stockcontrol.js:418-464 | a direct loss happens exactly when the item exists and 0 < quantity <= totalStock; it never changes loans or orders, and on refusal nothing changes |
| StockCounts.RegisterDirectLossOn | js/modules/stockcontrol.js:418-464 | the heap-free imperative direct loss equals DirectLossOutcome |
| StockCounts.RegisterDirectLoss | js/modules/stockcontrol.js:418-464 | the warehouse moves to DirectLossOutcome's ledger and the method returns its verdict |
| StockCounts.DiscardSimple | js/modules/stockcontrol.js:441-458 | a direct loss of a simple item prepends a discard record and deducts the quantity first-expiring-first-out, keeping loans; only kits that use the item change otherwise |
| StockCounts.DirectLossCharges | js/modules/stockcontrol.js:438-458 | a permitted direct loss leaves exactly the discarded stock and, when due, one new debit at the head of the list |
| StockCounts.CountKind | js/modules/stockcontrol.js:485-505 | each of the four reasons selects its record kind, and any other reason records an adjustment |
| StockCounts.TargetBatch | js/modules/stockcontrol.js:528-535 | a batch id other than "new" picks the batch with that id, and an unknown id falls back to a new batch |
| StockCounts.GrowAt | js/modules/stockcontrol.js:531 | found units are added to the quantity of the target batch only |
| StockCounts.Counted | js/modules/stockcontrol.js:519-551 | the stock change of a count keeps loans, debits and orders |
| StockCounts.CountOutcome | js/modules/stockcontrol.js:466-557 | a count is accepted exactly when the item exists and the count is not negative; it never changes loans, debits or orders |
| StockCounts.AdjustStockCountOn | js/modules/stockcontrol.js:466-557 | the heap-free imperative count equals CountOutcome |
| StockCounts.AdjustStockCount | js/modules/stockcontrol.js:466-557 | the warehouse moves to CountOutcome's ledger and the method returns its verdict |
| StockCounts.CountSimple | js/modules/stockcontrol.js:481-551 | after counting a simple item whose figures are consistent, its physical stock (total less on loan) equals the count, and a record of the difference is prepended |
| StockCounts.CountGain | js/modules/stockcontrol.js:525-545 | found units raise the batch total by the difference |
| StockCounts.CountDeduct | js/modules/stockcontrol.js:546-548 | missing units are deducted first-expiring-first-out, never below zero |
| StockCounts.EntryOutcome | js/modules/stockcontrol.js:559-599 | an entry happens exactly when the item exists and the quantity is positive; it draws one batch id, and on refusal nothing changes |
| StockCounts.AddStockEntryOn | js/modules/stockcontrol.js:559-599 | the heap-free imperative entry equals EntryOutcome |
| StockCounts.AddStockEntry | js/modules/stockcontrol.js:559-599 | the warehouse moves to EntryOutcome's ledger and the method returns its verdict |
| StockCounts.EntrySimple | js/modules/stockcontrol.js:574-595 | an entry appends a batch of the quantity with the item's shelf life, raises the stock by it and prepends an entry record |
| StockCounts.ReplaceOutcome | js/modules/stockcontrol.js:601-658 | a replacement happens exactly when the item exists and 0 < quantity <= totalStock; it draws one batch id, and on refusal nothing changes |
| StockCounts.ReplaceExpiredItemsOn | js/modules/stockcontrol.js:601-658 | the heap-free imperative replacement equals ReplaceOutcome |
| StockCounts.ReplaceExpiredItems | js/modules/stockcontrol.js:601-658 | the warehouse moves to ReplaceOutcome's ledger and the method returns its verdict |
| StockCounts.ReplaceSimple | js/modules/stockcontrol.js:622-653 | replacing units of a simple item deducts them first-expiring-first-out, appends a new batch of the same size (the total is unchanged), and records a discard then an entry |
| DebitManager.RoundCents | js/modules/debitmanager.js:10 | `Math.round(amount * 100) / 100` lies within half a cent of the amount |
| DebitManager.RoundCentsPositive | js/modules/debitmanager.js:10-15 | the rounded amount is positive exactly when the amount is at least half a cent |
| DebitManager.RoundCentsExact | js/modules/debitmanager.js:10 | a whole number of cents is kept as it is |
| DebitManager.PostDebit | js/modules/debitmanager.js:9-39 | a debit of at least half a cent is put first in the list with a fresh id; a smaller one is refused and changes nothing |
| DebitManager.AddDebit | js/modules/debitmanager.js:9-39 | the method returns the new debit exactly when the amount is at least half a cent, and leaves the warehouse at PostDebit's ledger |
| DebitManager.DebitIndex | js/modules/debitmanager.js:43 | the first debit with that id, or none |
| DebitManager.Settled | js/modules/debitmanager.js:41-60 | settling succeeds exactly when the debit exists and is open; it then marks that debit settled and changes no other |
| DebitManager.SettleOnce | js/modules/debitmanager.js:49-52 | a debit can be settled once: a second settlement is refused |
| DebitManager.SettleDebit | js/modules/debitmanager.js:41-60 | the warehouse's debits become Settled's, or stay unchanged on refusal |
| DebitManager.GetAllDebits | js/modules/debitmanager.js:62-64 | the stored list of debits |
| ServiceOrderManager.AddServiceOrder | js/modules/serviceordermanager.js:18-35 | the new order is open, has trimmed texts, no lines and an id from the clock, and is put first in the list |
| ServiceOrderManager.Edited | js/modules/serviceordermanager.js:47-58 | an edit keeps the id, the lines and the opening date; it stores the trimmed texts, the status and the given technician; it sets the closing date exactly when the order becomes closed |
| ServiceOrderManager.UpdateServiceOrder | js/modules/serviceordermanager.js:37-63 | an unknown id is refused with nothing changed; otherwise only that order is replaced by its edit, which is returned |
| ServiceOrderManager.WithoutOrder | js/modules/serviceordermanager.js:88 | the filter keeps every other order and drops every order with that id |
| ServiceOrderManager.DeleteServiceOrder | js/modules/serviceordermanager.js:65-93 | deletion succeeds exactly when the order exists and has no unreturned line of a returnable item or kit; it then removes the order |
| ServiceOrderManager.DeleteServiceOrderAs | js/modules/serviceordermanager.js:74-89 | the same, with the returnable types already read from the settings |
| ServiceOrderManager.LineIndex | js/modules/serviceordermanager.js:144 | the line carrying the allocation id, or none |
| ServiceOrderManager.MarkReturned | js/modules/serviceordermanager.js:135-159 | an unknown order is a failure; an unknown line is a success that changes nothing; otherwise exactly that line is marked returned with the date |
| ServiceOrderManager.MarkReturnedMarks | js/modules/serviceordermanager.js:151-152 | the marked line, and nothing else, becomes returned |
| ServiceOrderManager.ReturnItemFromGeneralAllocation | js/modules/serviceordermanager.js:135-159 | the warehouse's orders become MarkReturned's, or stay unchanged on failure |
| ServiceOrderItems.WithLine | js/modules/serviceordermanager.js:117-127 | the line is appended to that order only |
| ServiceOrderItems.AddItemOutcome | js/modules/serviceordermanager.js:95-133 | an item is added exactly when the order and the item exist and the allocation succeeds; the order gains a line carrying the drawn allocation id, and the items are those of the allocation |
| ServiceOrderItems.AddItemToServiceOrderOn | js/modules/serviceordermanager.js:95-133 | the heap-free imperative operation equals AddItemOutcome |
| ServiceOrderItems.AddItemToServiceOrder | js/modules/serviceordermanager.js:95-133 | the warehouse moves to AddItemOutcome's ledger and the method returns its verdict |
| ServiceOrderItems.AddItemLinksAllocation | js/modules/serviceordermanager.js:110-127 | for a returnable item, the new order line and the item's new allocation share the allocation id, and the loan count grows by the quantity |
| ServiceOrderItems.ReturnToStockOutcome | js/modules/serviceordermanager.js:161-188 | the return succeeds exactly when the order has the line, the line is not returned, and the allocation can be returned; it is then the allocation's return |
| ServiceOrderItems.ReturnItemToStockFromOS | js/modules/serviceordermanager.js:161-188 | the warehouse moves to ReturnToStockOutcome's ledger and the method returns its verdict |
| ServiceOrderItems.ReturnToStockOnce | js/modules/serviceordermanager.js:175-180 | an order line, once returned to stock, cannot be returned again |
| CollaboratorManager.AppendKeepsUnique | js/modules/collaboratormanager.js:18-33 | appending keeps registrations unique exactly when the new registration is empty or not yet taken ignoring case |
| CollaboratorManager.AddKeepsRegistrationsUnique | js/modules/collaboratormanager.js:17-33 | the corrected check: with the duplicate check applied to the trimmed registration, the one stored, adding keeps registrations unique |
| CollaboratorManager.AddAsWrittenDuplicates | js/modules/collaboratormanager.js:18-30 | the duplicate check as written compares the untrimmed registration, so " ABC" passes next to "abc" and is stored as a duplicate |
| CollaboratorManager.AddCollaborator | js/modules/collaboratormanager.js:10-36 | a blank name is refused with the validator's errors; a non-blank typed registration (untrimmed) that some stored one equals ignoring case is refused as a duplicate; otherwise the trimmed collaborator is appended with a fresh id; on refusal nothing changes; registrations stay unique whenever the typed registration has no surrounding whitespace |
| CollaboratorManager.RegistrationSet | js/modules/collaboratormanager.js:43 | the set of known registrations holds exactly the stored registrations, lower-cased |
| CollaboratorManager.RosterStep | js/modules/collaboratormanager.js:45-60 | each line is counted as added or ignored; a line is added exactly when its name and registration are not blank and its typed registration, lower-cased, is not among those seen; only an added line appends a collaborator and draws an id |
| CollaboratorManager.RosterStepKeeps | js/modules/collaboratormanager.js:45-60 | a step keeps the seen set covering the list, and keeps registrations unique whenever the line's registration has no surrounding whitespace |
| CollaboratorManager.RosterFrom | js/modules/collaboratormanager.js:45-60 | the remaining lines are all counted, and the list grows by the lines added |
| CollaboratorManager.ImportSummary | js/modules/collaboratormanager.js:39-69 | every line is counted as added or ignored, the list and the counter grow by the added lines, and the import keeps registrations unique whenever no imported registration has surrounding whitespace |
| CollaboratorManager.ImportAsWrittenDuplicates | js/modules/collaboratormanager.js:43-58 | the skip test as written looks up the untrimmed registration, so " abc" is imported next to "ABC" |
| CollaboratorManager.IntendedSkipKeepsUnique | js/modules/collaboratormanager.js:43-58 | the corrected skip: testing the trimmed registration, the one stored, a line let through keeps registrations unique |
| CollaboratorManager.ImportOn | js/modules/collaboratormanager.js:45-60 | the imperative `forEach` loop equals Import |
| CollaboratorManager.ImportStepOn | js/modules/collaboratormanager.js:46-59 | the body run for one line (skip it on the typed registration, or push the new collaborator and add its stored registration to the seen set) computes exactly RosterStep |
| CollaboratorManager.AddMultipleCollaborators | js/modules/collaboratormanager.js:39-69 | the warehouse's collaborators and counter become Import's, and the method returns its counts |
| CollaboratorManager.CollaboratorById | js/modules/collaboratormanager.js:71-74 | a collaborator with the id from the list, or none exactly when no collaborator has it |
| CollaboratorManager.Edited | js/modules/collaboratormanager.js:101-107 | an edit keeps the id and the creation date |
| CollaboratorManager.UpdateKeepsRegistrationsUnique | js/modules/collaboratormanager.js:93-107 | the corrected check: with the duplicate check applied to the trimmed registration, the one stored, an edit keeps registrations unique |
| CollaboratorManager.UpdateAsWrittenDuplicates | js/modules/collaboratormanager.js:93-105 | the duplicate check as written compares the untrimmed registration, so an edit to " abc" passes beside "ABC" |
| CollaboratorManager.UpdateCollaborator | js/modules/collaboratormanager.js:80-110 | a blank name, an unknown id and a non-blank typed registration (untrimmed) that another collaborator has ignoring case are each refused with nothing changed; otherwise only that collaborator is edited; registrations stay unique whenever the typed registration has no surrounding whitespace |
| CollaboratorManager.WithoutRemovesExactly | js/modules/collaboratormanager.js:133 | the filter removes exactly the collaborators with that id, and shortens the list exactly when one exists |
| CollaboratorManager.DeleteCollaborator | js/modules/collaboratormanager.js:112-138 | deletion succeeds exactly when the collaborator exists, holds no allocation and has no open debit; it then removes that collaborator |
| Validator.HexDigit | js/modules/validator.js:2 | the digits 0-15 map onto lower-case hexadecimal characters |
| Validator.HexValue | js/modules/validator.js:2 | a hexadecimal character of either case has the value whose digit is its lower-case form |
| Validator.UuidOf | js/modules/validator.js:2 | the 8-4-4-4-12 text of 32 digits, with the version digit 4 and the variant digit one of 8, 9, a, b |
| Validator.UuidOfIsValid | js/modules/validator.js:1-4 | every text built that way passes the pattern |
| Validator.ValidIsUuidOf | js/modules/validator.js:1-4 | every text that passes the pattern is, lower-cased, the text built from its digits, so the pattern accepts exactly those texts ignoring case |
| Validator.Collect | js/modules/validator.js:7-50 | the errors are those of the failed checks, in order, and there are none exactly when no check fails |
| Validator.ValidateItemDetails | js/modules/validator.js:6-51 | the item form has no error exactly when every check passes, where a non-empty CA passes exactly when `Number()` reads it as a number (a decimal or exponent literal, Infinity, or a 0x/0o/0b integer) |
| Validator.ItemRulesPass | js/modules/validator.js:18-49 | all checks pass exactly when the name and type are not blank, the CA is empty or a numeric literal for `Number()`, the stock bounds, price and shelf life are not negative, min <= max, and (on creation of a non-kit) the initial stock is a number 0 or more |
| Validator.ItemErrorsFromChecks | js/modules/validator.js:18-49 | each error is reported exactly when its check fails; the CA error exactly when a non-empty CA is not a numeric literal for `Number()` |
| Validator.DecimalIntegersAreNumeric | js/modules/validator.js:24 | every run of decimal digits, unsigned or with + or -, is a number for `Number()` |
| Validator.ExponentsAreNumeric | js/modules/validator.js:24 | digits followed by e or E and a signed exponent are a number for `Number()`, with or without a sign |
| Validator.NaturalsAreNumeric | js/modules/validator.js:24 | every non-negative integer as JavaScript writes it, and its negation, is a number for `Number()` |
| Validator.InfinityIsNumeric | js/modules/validator.js:24 | Infinity, +Infinity and -Infinity are not NaN |
| Validator.NonDecimalIsNumeric | js/modules/validator.js:24 | 0x, 0o or 0b in either case followed by digits of that radix is a number for `Number()` |
| Validator.LetterAfterDigitsRefused | js/modules/validator.js:24 | digits followed by a letter other than e or E make NaN, so the CA error is reported |
| Validator.BareExponentRefused | js/modules/validator.js:24 | digits followed by an exponent marker with no exponent make NaN |
| Validator.SignedNonDecimalRefused | js/modules/validator.js:24 | a sign in front of a 0x, 0o or 0b literal makes NaN |
| Validator.StockOrderErrors | js/modules/validator.js:27-35 | a negative minimum and a minimum above the maximum are each reported exactly when they occur |
| Validator.NameErrorFirst | js/modules/validator.js:18-20 | a blank name is the first error reported |
| Validator.StockCheckOnlyOnCreate | js/modules/validator.js:40-45 | on update, or for a kit, the initial stock does not affect the errors |
| Validator.ValidateCollaboratorDetails | js/modules/validator.js:53-58 | the only error is a blank name, reported exactly when the name is blank |
| Mapping.GenerateLocation | js/modules/mapping.js:1-7 | the aisle comes out upper-cased, and it is empty exactly when the given aisle is blank |
| Mapping.Split | js/modules/mapping.js:12 | splitting on commas gives at least one piece and no piece holds a comma |
| Mapping.JoinSplit | js/modules/mapping.js:12 | joining the pieces with commas gives back the original text |
| Mapping.SplitJoin | js/modules/mapping.js:12 | splitting comma-free pieces joined by commas gives back those pieces |
| Mapping.Normalized | js/modules/mapping.js:12 | every piece is trimmed and upper-cased, in order |
| Mapping.ParseAislesShape | js/modules/mapping.js:12 | the parsed aisles are non-empty, comma-free and upper-case, and every non-blank piece of the setting yields one |
| Mapping.SlotLocation | js/modules/mapping.js:42-44 | the key of a suggested slot is aisle-shelf-box |
| Mapping.OccupiedKeys | js/modules/mapping.js:20-27 | the occupied keys are exactly those of items with an aisle, a shelf and a box |
| Mapping.FirstBox | js/modules/mapping.js:41-45 | the box found is the first free one on the shelf; none is found exactly when every box is taken |
| Mapping.FirstInAisle | js/modules/mapping.js:40-47 | the slot found is the first free one of the aisle in shelf-then-box order; none is found exactly when the aisle is full |
| Mapping.FirstSlot | js/modules/mapping.js:52-61 | the slot found is free, inside the grid and in one of the aisles |
| Mapping.FirstSlotIsFirst | js/modules/mapping.js:52-61 | the slot lies in the first aisle that is not full, every earlier aisle being full; none is found exactly when all are full |
| Mapping.TypeAisles | js/modules/mapping.js:30 | the aisles used by items of the type are all non-empty |
| Mapping.Distinct | js/modules/mapping.js:32-37 | the result has no repeats and holds exactly the values not already seen |
| Mapping.MoreUsedIsStrictWeak | js/modules/mapping.js:37 | ordering aisles by descending use count is a strict weak order |
| Mapping.PreferredAislesMembers | js/modules/mapping.js:32-37 | the preferred aisles are exactly the aisles in use by items of the type |
| Mapping.PreferredAislesDistinct | js/modules/mapping.js:32-37 | each preferred aisle appears once |
| Mapping.PreferredAislesSorted | js/modules/mapping.js:37 | the preferred aisles come in non-increasing order of use |
| Mapping.SuggestSlot | js/modules/mapping.js:9-64 | nothing is suggested when the layout has no aisle, shelf or box; a suggestion is free and inside the grid |
| Mapping.SuggestLocation | js/modules/mapping.js:9-64 | the suggested location's key is not occupied; nothing is suggested exactly when no slot is found |
| Mapping.FallbackIsFirstFree | js/modules/mapping.js:52-63 | without a type, or with its aisles full, the suggestion is the first free slot of the configured aisles and is None exactly when they are all full |
| Mapping.PreferredFirst | js/modules/mapping.js:29-48 | with a type whose aisles have room, the suggestion is the first free slot of the preferred aisles |
| Remapping.MarkedIds | js/modules/remapping.js:5-31 | an item is marked exactly when it has no aisle (or N/A) or shares its key with an earlier item |
| Remapping.KeptKeys | js/modules/remapping.js:37-47 | the keys of items staying put are all taken |
| Remapping.RelocateStep | js/modules/remapping.js:51-59 | one step keeps the number of items |
| Remapping.RelocateFrom | js/modules/remapping.js:51-59 | the pass keeps the number of items |
| Remapping.Reallocation | js/modules/remapping.js:1-66 | the reallocation keeps the number of items |
| Remapping.MoveTo | js/modules/remapping.js:54 | only the moved item changes, and only its location |
| Remapping.MoveKeepsUnmoved | js/modules/remapping.js:51-59 | items not moved stay as stored |
| Remapping.MoveKeepsMovedWell | js/modules/remapping.js:51-59 | every moved item was marked and now stands on a taken key that no staying item holds |
| Remapping.MoveKeepsApart | js/modules/remapping.js:56-57 | no two moved items share a key |
| Remapping.RelocateStepKeeps | js/modules/remapping.js:51-59 | one step preserves the pass invariant |
| Remapping.RelocateFromKeeps | js/modules/remapping.js:51-59 | the whole pass preserves the invariant: unmoved items unchanged, moved items marked, collision-free, count equals moves |
| Remapping.ReallocationSummary | js/modules/remapping.js:33-66 | with nothing marked the items are unchanged and the count is 0; otherwise only marked items move, each to its own slot that no kept item uses, the count is the number moved, and a marked item left in place finds no free slot even with the keys in use at the end |
| Mapping.SuggestionNoneGrows | js/modules/remapping.js:50-58 | once suggestLocation finds no slot for a type, it finds none with more keys in use |
| Remapping.ReallocationKeepsKitsReady | js/modules/remapping.js:54 | moving items does not disturb any kit's composition |
| Remapping.RelocateOn | js/modules/remapping.js:51-59 | the loop yields the same items and count as the pass function |
| Remapping.ReallocateUnshelvedItemsIn | js/modules/remapping.js:1-66 | the stored items and the returned count are those of the reallocation |
| Remapping.ReallocateUnshelvedItems | js/modules/remapping.js:1-66 | with the layout read from the settings, the stored items and count are those of the reallocation |
| Config.GetSettings | js/modules/settings.js:2-77 | every stored key keeps its stored value, every missing default key (notificationBehaviors included) takes its default value, and no other key appears |
| Config.Defaults | js/modules/settings.js:4-73 | the defaults include the notificationBehaviors object, which is the DefaultBehaviors map |
| Config.DefaultBehaviors | js/modules/settings.js:53-63 | the nine alert types each have a behaviour: 'action' for low stock, expired validity and pending count, 'info' for the other six |
| Config.MissingDefaultFilled | js/modules/settings.js:170-193 | a default key absent from the stored settings, such as notificationBehaviors, is supplied by getSettings, makes initializeSettings save, and is filled with its default |
| Config.FillProperties | js/modules/settings.js:174-189 | after the fill every default key is present, object defaults have all their sub-keys when the stored value is an object or falsy, other stored values are untouched, and a second fill changes nothing |
| Config.FillSettles | js/modules/settings.js:170-193 | once filled and stamped with the version, the settings need no further update |
| Config.InitializationSettles | js/modules/settings.js:96-193 | after one initialisation with the built-in defaults, notificationBehaviors among them, a second one finds nothing to update |
| Config.TypeIndexIgnoringCase | js/modules/settings.js:203 | a type is found exactly when the list holds it ignoring letter case, and the index points at it |
| Config.WithType | js/modules/settings.js:207-213 | the type is appended to the type list; its count and maintenance frequencies become 180 and 365 unless already set; the returnable types and every other key are unchanged |
| Config.AddTypeTo | js/modules/settings.js:196-213 | the type is accepted exactly when its trimmed name is non-empty and not yet present ignoring case, and then the settings are WithType's |
| Config.RemoveString | js/modules/settings.js:232-233 | the result holds exactly the entries different from the removed one |
| Config.DeleteTypeFrom | js/modules/settings.js:232-235 | the type leaves both type lists and both frequency maps, every other type stays, and every other key is unchanged |
| Config.TypeEditsSaveDefaults | js/modules/settings.js:196-240 | addType's and deleteType's edits of the merged settings contain every default key the stored settings lacked, with its default value |
| Settings.SaveSettings | js/modules/settings.js:79-93 | the settings are stored as given, and the items are relocated exactly when the aisles, the shelf count or the box count changed |
| Settings.FillPartStep | js/modules/settings.js:179-187 | visiting one more sub-key fills it and flags the update exactly when it was missing |
| Settings.FillObjectOn | js/modules/settings.js:179-187 | the sub-key loop computes the filled object and flags a change exactly when a sub-key was missing |
| Settings.FilledStep | js/modules/settings.js:174-189 | visiting one more default key fills it and flags the update exactly when that key needed it |
| Settings.FillKey | js/modules/settings.js:175-188 | one key's visit stores its filled value and flags exactly its need for update |
| Settings.FillOn | js/modules/settings.js:174-189 | the key loop yields the filled settings and flags an update exactly when some default key needed one |
| Settings.InitializeSettings | js/modules/settings.js:96-194 | stale or incomplete settings (a missing notificationBehaviors included) are filled, stamped with the version and saved; otherwise nothing changes |
| Settings.TypeEditsKeepLayout | js/modules/settings.js:207-235 | adding or deleting a type never changes the layout, so saving it never relocates items |
| Settings.AddType | js/modules/settings.js:196-218 | the type is saved exactly when AddTypeTo accepts it, on the merged settings, so the default keys missing from storage are saved too; otherwise the settings are unchanged; the items never change |
| Settings.DeleteType | js/modules/settings.js:220-240 | deletion is refused exactly when some item has the type; otherwise DeleteTypeFrom's edit of the merged settings is saved, with the default keys missing from storage; the items never change |
| Settings.AddTypeOnce | js/modules/settings.js:203-207 | a type just added is refused a second time, in any letter case |
| Session.Start | js/modules/batchoperationmanager.js:9-22 | an active session is left as it is; an idle one becomes active in the given mode with an empty cart |
| Session.Added | js/modules/batchoperationmanager.js:38-55 | nothing changes while idle or for an unknown id; a listed id has its quantity raised by the amount; a new id is appended with the item's name and current stock |
| Session.RemoveAtMembers | js/modules/batchoperationmanager.js:59 | removing one position leaves a repeat-free order holding every other id |
| Session.Erase | js/modules/batchoperationmanager.js:59 | the erased order holds exactly the other ids, without repeats |
| Session.Removed | js/modules/batchoperationmanager.js:57-62 | the id leaves the cart and nothing else changes; an absent id changes nothing |
| Session.Requantified | js/modules/batchoperationmanager.js:64-74 | a positive quantity replaces the listed one; zero or less removes the entry; an absent id changes nothing |
| Session.Contents | js/modules/batchoperationmanager.js:76-82 | the entries are listed in insertion order, one per id |
| Session.AddThenRemove | js/modules/batchoperationmanager.js:38-62 | adding a new id and removing it again restores the cart |
| Session.AddAccumulates | js/modules/batchoperationmanager.js:43-45 | two additions of an item are one addition of the summed quantity |
| Session.ContentsAfterAdd | js/modules/batchoperationmanager.js:46-53 | a new item is listed last and the others keep their places |
| Session.BatchSession.StartSession | js/modules/batchoperationmanager.js:9-22 | the session becomes Start's, and the call succeeds exactly when no session was active |
| Session.BatchSession.EndSession | js/modules/batchoperationmanager.js:24-36 | the session is idle, with no mode and an empty cart |
| Session.BatchSession.AddItemToSession | js/modules/batchoperationmanager.js:38-55 | the session becomes Added's, with quantity 1 when the argument is omitted |
| Session.BatchSession.RemoveItemFromSession | js/modules/batchoperationmanager.js:57-62 | the session becomes Removed's |
| Session.BatchSession.UpdateItemQuantityInSession | js/modules/batchoperationmanager.js:64-74 | the session becomes Requantified's |
| Session.BatchSession.GetSession | js/modules/batchoperationmanager.js:76-82 | the view shows the session's state and mode and lists Contents |
| LogManager.Logged | js/modules/logmanager.js:2-15 | the new entry is first, the older entries follow in order, and the list is capped at the limit |
| LogManager.LoggedKeepsAllBelowLimit | js/modules/logmanager.js:10-13 | below the limit nothing is dropped |
| LogManager.LoggedDropsOldestAtLimit | js/modules/logmanager.js:10-13 | at the limit exactly the oldest entry is dropped |
| LogManager.LoggedTwice | js/modules/logmanager.js:10 | of two entries logged in turn, the later is listed first |
| LogManager.CreateLog | js/modules/logmanager.js:2-15 | the stored log becomes Logged's, with the clock reading as timestamp |
| LogManager.GetAllLogs | js/modules/logmanager.js:17-18 | the stored log is returned |
| Reporting.RecordRows | js/modules/reporting.js:12-24 | every row of one item's history lies in the window and carries the item's name |
| Reporting.Collected | js/modules/reporting.js:11-25 | every collected row lies in the window |
| Reporting.RecordRowsMembers | js/modules/reporting.js:12-24 | a row is collected from a history exactly when it is the row of an in-window record |
| Reporting.CollectedMembers | js/modules/reporting.js:9-25 | a row is collected exactly when it is the row of an in-window record of some item |
| Reporting.MovementReportProperties | js/modules/reporting.js:1-28 | the report holds exactly the in-window records, each once per occurrence, newest first |
| Reporting.NameIndex | js/modules/reporting.js:40 | a row is found exactly when one carries the name, and the index points at it |
| Reporting.NameIndexOfRow | js/modules/reporting.js:40 | with distinct names, a row's own name finds that row |
| Reporting.SameNamesSameIndex | js/modules/reporting.js:40-42 | appending rows of other names does not change where a name is found |
| Reporting.TallyExisting | js/modules/reporting.js:40-42 | an exit or loan of a name already tallied adds its absolute quantity to that name only |
| Reporting.TallyNew | js/modules/reporting.js:40-42 | an exit or loan of a new name adds a row for it with its absolute quantity |
| Reporting.TallyStep | js/modules/reporting.js:37-43 | one movement keeps the names distinct and adds its absolute quantity only when it is an exit or a loan |
| Reporting.TallyAllTotals | js/modules/reporting.js:37-43 | tallying all movements gives each name its total exit and loan usage, one row per name |
| Reporting.PermutedNamesDistinct | js/modules/reporting.js:45 | sorting the rows keeps their names distinct |
| Reporting.SameNameSameRow | js/modules/reporting.js:35-45 | with distinct names, two rows of one name are the same row |
| Reporting.UsageRowsFromTally | js/modules/reporting.js:45 | a reordering of the tally carries each name's usage and exactly the counted names |
| Reporting.UsageReportProperties | js/modules/reporting.js:30-46 | one row per name with an exit or a loan in the window, carrying its total usage, in descending total |
| Reporting.StockStatus | js/modules/reporting.js:56-66 | the status is one of the five; N/A exactly without a positive minimum; ZERADO exactly with a positive minimum and no stock |
| Reporting.MoreStockNoWorse | js/modules/reporting.js:59-66 | more stock never gives a worse status |
| Reporting.StringBeforeIrreflexive | js/modules/reporting.js:73 | no name sorts before itself |
| Reporting.StringBeforeAsymmetric | js/modules/reporting.js:73 | two names never sort before each other |
| Reporting.StringBeforeSplits | js/modules/reporting.js:73 | if a sorts before c, any b sorts after a or before c |
| Reporting.ByNameIsStrictWeak | js/modules/reporting.js:73 | ordering rows by name is a strict weak order |
| Reporting.LevelRows | js/modules/reporting.js:55-72 | one row per item, in order, with its status |
| Reporting.StockLevelReportProperties | js/modules/reporting.js:48-74 | with stock levels set, the report is a reordering of all items' rows, sorted by name, each with the status its stock earns |
| Reporting.ValueRows | js/modules/reporting.js:86-95 | one value row per item, in order |
| Reporting.StockValueRows | js/modules/reporting.js:84-95 | the report lists exactly the items with stock, in order |
| Reporting.StockValueTotal | js/modules/reporting.js:81-97 | the grand total is the sum of the listed values |
| Reporting.StockValueNonNegative | js/modules/reporting.js:76-98 | with no negative price the grand total is never negative |
| Reporting.SuggestionRows | js/modules/reporting.js:110-121 | one suggestion row per item, in order |
| Reporting.PurchaseSuggestionReport | js/modules/reporting.js:100-124 | every quantity to buy is positive and fills the gap to the minimum |
| Reporting.PurchaseSuggestionRows | js/modules/reporting.js:108-121 | the report lists exactly the items below a positive minimum, in order |
| Reporting.PurchaseSuggestionTotal | js/modules/reporting.js:105-123 | the grand total is the sum of the listed costs |
| Sorting.SortByPermutes | js/modules/reporting.js:27 | sorting reorders the rows without adding or losing any |
| Sorting.SortBySorted | js/modules/reporting.js:27 | the sorted rows follow the comparison |
| Sorting.SortByMembers | js/modules/mapping.js:37 | every sorted entry comes from the input |
| Sorting.SortByStable | js/modules/stockcontrol.js:666-675 | the sort is stable: elements tied under the comparison come out in their input order |
| Common.TrimEmptyIffBlank | js/modules/mapping.js:3 | trimming gives the empty string exactly when the text is blank |
| Common.TrimWithin | js/modules/mapping.js:3 | every character of the trimmed text comes from the text |
| Common.FilterAppend | js/modules/serviceordermanager.js:88 | filter keeps the order: filtering a concatenation filters each part in turn |
| Common.FilterMultiset | js/modules/settings.js:232 | filter keeps the multiplicity: each value that passes occurs as often as in the input, and no other value occurs |

## Left out

- Notifications, DOM classes, custom events and console output (`showToast`, `dispatchEvent`, `console.log`) are effects without state and are not modelled.
- The `createLog` calls inside the operations are not modelled. `LogManager.CreateLog` models the log itself, and the source never reads the log back in these modules.
- Image storage in `createItem` and `updateItem` is browser I/O and is not modelled.
- The price history that `updateItem` keeps is not modelled; the price-history and batch-validity reports that read it are left out with it.
- The `updatedAt` stamp `updateCollaborator` writes is not modelled, because nothing reads it.
- The `updatedAt` stamp `updateServiceOrder` writes (js/modules/serviceordermanager.js:53) is not modelled either, for the same reason.
- `addMaintenanceRecord`, `getItemById`, `getItemByBarcode` and the `getAll…` readers are lookups or lie outside the stock core. The lookups appear as `ItemIndex`, `CollaboratorIndex` and `OrderIndex`.
- Storage is the `Store.Warehouse` object. Reading and writing the browser's local storage, and the shape of the stored JSON, are not modelled.
- The `ALERT_TYPES` names used as notificationBehaviors keys are defined in a constants file that is not part of this model. `Config.LowStock` and the other eight stand for them, assumed distinct.
- `ITEM_HISTORY_LIMIT` and `LOGS_LIMIT` are defined in a constants file that is not part of this model. They are the warehouse's `historyLimit` and `logsLimit`, fixed when the warehouse is made.
- Clocks and randomness are parameters. A timestamp `now` is milliseconds since 1970-01-01 UTC, dates are `DateValue`s (absent, malformed or a day), and `crypto.randomUUID()` and `Date.now()` become ids minted from the warehouse counter (`Store.MintId`). Movement-report rows are ordered by their millisecond timestamps, as in the source.
- Time zones are not modelled: every calendar day is a UTC day (`Items.DayOf`).
- ItemManager.AddBatchOutcome: the source compares the batch dates with the end of the local day (`setHours(23, 59, 59, 999)`), the model with the UTC day of `now`; the two differ near midnight outside UTC.
- StockControl.LossPass: the loss details object of a kit return (js/modules/stockcontrol.js:199) is modelled as a sequence of `LossLine` entries, read as free of repeated component ids; an object cannot repeat a key, while a sequence that repeats one would be deducted once per entry by LossPass and read from its first entry by LossOf.
- StockControl.CheckoutOutcome: when a cart line names an item id that does not exist, the source's pre-check reads a property of `undefined` and throws a TypeError on `item.name` (js/modules/stockcontrol.js:94-95); the model refuses the checkout and changes nothing.
- StockControl.OrderAllocationOutcome: when the service order is missing, `getServiceOrderById` returns undefined and the source throws a TypeError reading `serviceOrder.technicianId` (js/modules/stockcontrol.js:702), before its quantity and stock checks; the model refuses the allocation and changes nothing.
- Prices and money are `real`, not IEEE doubles. `Math.round` is `floor(x + 0.5)` on reals, and float rounding errors are not modelled.
- Form coercion is modelled only as far as the checks use it. `parseInt` results are integers or `None` for NaN, `Number()` is NaN exactly when `Validator.IsNumeric` fails (the StringNumericLiteral grammar of section 7.1.4.1.1 of ECMA-262, without the numeric value itself), and NaN quantities are not a separate case in the stock operations, whose quantities are integers.
- `Items.Recalc` and the kit operations require that a kit with components has at least one positive requirement (`KitReady`, `ComposableAt`). The source computes an Infinity stock otherwise, and the model does not cover Infinity.
- `ItemManager.AddItemToKit`, `ItemManager.RemoveItemFromKit` and `ItemManager.UpdateKitComposition` keep that kit precondition on the composition they install; the source accepts such a composition and stores Infinity.
- `Config.AddTypeTo` and `Config.DeleteTypeFrom` refuse settings whose type lists and frequency maps are not lists and objects (`TypeListsWellFormed`). The source would throw there.
- `Config.GetSettings` merges only top-level keys, as the source's spread does. Settings numbers are values of the `Config.Value` type, so a number stored as text is not converted.
- Initialisation leaves a truthy non-object value under an object default unchanged, as the source does; `Config.FillSettles` states its result only for stored values that are objects or falsy.
- Key order of JavaScript objects (integer-like keys first) is not modelled. The settings fill visits keys as a set, and each key's fill is independent of the others.
- `localeCompare` in the stock-level report is approximated by code-unit order (`Reporting.StringBefore`). Array sorting is the stable `Sorting.SortBy`, as `Array.prototype.sort` is stable.
- The reports take the items as a value. Their guards against a missing or non-array item list, history records without a timestamp and fields that are not numbers are type-level facts of the model. A window with start after end yields no rows.
- The session's `getItemById` is an `items` argument to `Session.BatchSession.AddItemToSession`.
- ItemManager.CreateItemOutcome: letters above U+00FF keep their case under the model's `ToLower`/`ToUpper`, where JavaScript maps them by the full Unicode tables.
- ItemManager.CreateItem: letters above U+00FF keep their case under the model's `ToLower`/`ToUpper`, where JavaScript maps them by the full Unicode tables.
- ItemManager.CreateItemAs: letters above U+00FF keep their case under the model's `ToLower`/`ToUpper`, where JavaScript maps them by the full Unicode tables.
- ItemManager.CreatedLedger: letters above U+00FF keep their case under the model's `ToLower`/`ToUpper`, where JavaScript maps them by the full Unicode tables.
- ItemManager.CreateKeepsNamesUnique: letters above U+00FF keep their case under the model's `ToLower`/`ToUpper`, where JavaScript maps them by the full Unicode tables.
- ItemManager.CreateOutcomeKeepsNamesUnique: letters above U+00FF keep their case under the model's `ToLower`/`ToUpper`, where JavaScript maps them by the full Unicode tables.
- ItemManager.UpdateItemOutcome: letters above U+00FF keep their case under the model's `ToLower`/`ToUpper`, where JavaScript maps them by the full Unicode tables.
- ItemManager.UpdateItem: letters above U+00FF keep their case under the model's `ToLower`/`ToUpper`, where JavaScript maps them by the full Unicode tables.
- ItemManager.BulkStep: letters above U+00FF keep their case under the model's `ToLower`/`ToUpper`, where JavaScript maps them by the full Unicode tables.
- ItemManager.BulkStepOn: letters above U+00FF keep their case under the model's `ToLower`/`ToUpper`, where JavaScript maps them by the full Unicode tables.
- ItemManager.BulkAddSummary: letters above U+00FF keep their case under the model's `ToLower`/`ToUpper`, where JavaScript maps them by the full Unicode tables.
- ItemManager.AddMultipleItems: letters above U+00FF keep their case under the model's `ToLower`/`ToUpper`, where JavaScript maps them by the full Unicode tables.
- ItemManager.AddMultipleItemsAs: letters above U+00FF keep their case under the model's `ToLower`/`ToUpper`, where JavaScript maps them by the full Unicode tables.
- CollaboratorManager.AddCollaborator: letters above U+00FF keep their case under the model's `ToLower`/`ToUpper`, where JavaScript maps them by the full Unicode tables.
- CollaboratorManager.RegistrationSet: letters above U+00FF keep their case under the model's `ToLower`/`ToUpper`, where JavaScript maps them by the full Unicode tables.
- CollaboratorManager.RosterStep: letters above U+00FF keep their case under the model's `ToLower`/`ToUpper`, where JavaScript maps them by the full Unicode tables.
- CollaboratorManager.ImportOn: letters above U+00FF keep their case under the model's `ToLower`/`ToUpper`, where JavaScript maps them by the full Unicode tables.
- CollaboratorManager.ImportStepOn: letters above U+00FF keep their case under the model's `ToLower`/`ToUpper`, where JavaScript maps them by the full Unicode tables.
- CollaboratorManager.AddMultipleCollaborators: letters above U+00FF keep their case under the model's `ToLower`/`ToUpper`, where JavaScript maps them by the full Unicode tables.
- CollaboratorManager.UpdateCollaborator: letters above U+00FF keep their case under the model's `ToLower`/`ToUpper`, where JavaScript maps them by the full Unicode tables.
- Mapping.GenerateLocation: letters above U+00FF keep their case under the model's `ToLower`/`ToUpper`, where JavaScript maps them by the full Unicode tables.
- Mapping.Normalized: letters above U+00FF keep their case under the model's `ToLower`/`ToUpper`, where JavaScript maps them by the full Unicode tables.
- Mapping.ParseAislesShape: letters above U+00FF keep their case under the model's `ToLower`/`ToUpper`, where JavaScript maps them by the full Unicode tables.
- Config.TypeIndexIgnoringCase: letters above U+00FF keep their case under the model's `ToLower`/`ToUpper`, where JavaScript maps them by the full Unicode tables.
- Config.AddTypeTo: letters above U+00FF keep their case under the model's `ToLower`/`ToUpper`, where JavaScript maps them by the full Unicode tables.
- Settings.AddType: letters above U+00FF keep their case under the model's `ToLower`/`ToUpper`, where JavaScript maps them by the full Unicode tables.
- Settings.AddTypeOnce: letters above U+00FF keep their case under the model's `ToLower`/`ToUpper`, where JavaScript maps them by the full Unicode tables.
- The batch-validity report (js/modules/reporting.js:126) and the price-history report (js/modules/reporting.js:173) read floating percentages and clock differences; they are not modelled.

## Findings

| source | as written | input that shows it | evidently intended | confidence | as-written member | corrected member |
|---|---|---|---|---|---|---|
| js/modules/itemmanager.js:68-71 | the duplicate-name check compares the untrimmed name, but line 91 stores it trimmed | items holding "Serra" and a new item " Serra" for the same company: the duplicate check passes and two items named "Serra" result | compare the trimmed name, so names stay unique per company | not executed | ItemManager.CreationAsWrittenDuplicates | ItemManager.CreateKeepsNamesUnique |
| js/modules/collaboratormanager.js:18-19 | the duplicate-registration check compares the untrimmed registration, but line 30 stores it trimmed | a collaborator with "abc" and a new one with " ABC": the duplicate check passes and two equal registrations result | compare the trimmed registration ignoring case | not executed | CollaboratorManager.AddAsWrittenDuplicates | CollaboratorManager.AddKeepsRegistrationsUnique |
| js/modules/collaboratormanager.js:46 | the import skips on the untrimmed registration, but line 54 stores it trimmed | a collaborator with "ABC" and an imported " abc": it is added and two equal registrations result | skip on the trimmed registration ignoring case | not executed | CollaboratorManager.ImportAsWrittenDuplicates | CollaboratorManager.IntendedSkipKeepsUnique |
| js/modules/collaboratormanager.js:93-94 | the update's duplicate check compares the untrimmed registration, but line 105 stores it trimmed | collaborators "ABC" and "b", with "b" edited to " abc": the update passes and two equal registrations result | compare the trimmed registration ignoring case | not executed | CollaboratorManager.UpdateAsWrittenDuplicates | CollaboratorManager.UpdateKeepsRegistrationsUnique |
