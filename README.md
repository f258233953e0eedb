# Ice-cream shop point of sale: the screens' logic in Dafny

The application is a small point of sale for an ice-cream shop. It keeps
categories, flavours (`Sabores`), an append-only inventory ledger
(`Movimientos_Inventario`), sales (`Ventas`) and sale details
(`Detalle_Venta`) in a browser database, and five screens work on them:

- the checkout (POS), with its ticket, discounts, payment numpad and sale commit;
- the catalogue of flavours and categories;
- manual inventory movements;
- the reports (stock, money, losses, sales history);
- the trends (best product, weekday, month, hour and seller).

Stock is never stored. Each screen derives it by folding the movements of a
flavour with its own sign rule, and the three rules differ:

| screen | adds the quantity when the kind | otherwise |
|---|---|---|
| checkout | does not start with "Salida" | subtracts |
| catalogue | is exactly "Entrada" | subtracts |
| reports | starts with "Entrada" | subtracts |

The model keeps the three rules apart and proves where they agree and where
they do not:

- An "Ajuste" movement counts positive at the checkout and negative elsewhere.
- A committed sale writes one movement per line with kind "Salida automática
  por venta" and quantity −qty. Under all three rules this reads as +qty, so
  a sale raises the stock of what was sold: with five units and two sold,
  every screen then shows seven (`Consistency.SaleExample`).

Modules, one file each:

- `Js` (js.dfy): the JavaScript behaviour the screens rely on — `startsWith`,
  `parseInt`, `parseFloat`, `String(n)` for integers, `trim`, `indexOf`.
- `Records` (records.dfy): the stored entities, and `Store`, the database as
  sequences updated by the add and update operations of src/services/db.js.
- `Ledger` (ledger.dfy): the filter-and-reduce stock fold over any sign rule,
  with its append and reordering laws.
- `Pos` (pos.dfy): the checkout. Ticket functions, totals and numpad are
  functions; the screen's state is the class `Session`. Its invariant
  `Valid()` keeps every ticket line unique and within its stock, keeps the
  amount in the numpad's shape, and keeps the amount empty for a donation:
  the amount field and numpad are rendered only outside donations
  (src/components/POSModule.jsx:439-466), so their methods require a
  non-donation sale.
- `Flavors` (flavors.dfy): the catalogue's rule, form functions and the class
  `CatalogScreen`.
- `Inventory` (inventory.dfy): movement entry and the class `MovementScreen`.
- `Reports` (reports.dfy): the report folds.
- `Trends` (trends.dfy): the dictionary tallies as loops, and the first-maximum
  argmax.
- `Consistency` (consistency.dfy): how the screens read each other's writes.

Money is an exact `real`, quantities are `int`. The database's generated
ids and the clock are parameters (`freshId`, `saleId`, `now`). For the trends
screen, each sale's weekday, month or hour is an input sequence.

## Model

| member | source | states |
|---|---|---|
| Js.ParseInt | src/components/InventoryModule.jsx:47 | `parseInt(s, 10)`: leading white space is skipped, and the result is NaN exactly when no digit follows the optional sign |
| Js.SignedDecimal | src/components/InventoryModule.jsx:47 | once the white space is skipped, the text is NaN to `parseInt` exactly when no digit follows the optional sign |
| Js.ParseIntAuto | src/components/FlavorsModule.jsx:71 | `parseInt(s)` with no radix: the same as radix 10 unless "0x" or "0X" follows the sign; after such a prefix the result is NaN exactly when no hexadecimal digit follows |
| Js.SpacesSkipped | src/components/FlavorsModule.jsx:71 | white space in front of the text changes nothing: `parseInt(" 5")` is `parseInt("5")`, and the same holds for `parseFloat` |
| Js.HexWithoutRadix | src/components/FlavorsModule.jsx:170 | "0x10" typed as the stock is read as 16 without a radix, and as 0 with radix 10 |
| Js.ParseIntZeroes | src/components/InventoryModule.jsx:47-48 | "0" and "-0" both read as zero, and "abc" reads as NaN |
| Js.ParseIntAutoOrZero | src/components/FlavorsModule.jsx:170 | `parseInt(s) \|\| 0` with no radix: the parsed value, or 0 when it is NaN |
| Js.ParseIntRoundTrip | src/components/FlavorsModule.jsx:170 | parsing the decimal text of any integer, followed by a non-digit or nothing, gives that integer back |
| Js.ParseIntAutoRoundTrip | src/components/TrendsModule.jsx:111 | `parseInt` with no radix also reads back the decimal text of any integer: it never starts with "0x" |
| Js.ParseFloat | src/components/FlavorsModule.jsx:151 | `parseFloat` is NaN exactly when no digit is found where the number must start |
| Js.SignedFloat | src/components/FlavorsModule.jsx:151 | the digits-and-point reading once white space is skipped: NaN exactly when there is no digit before the point and none right after it |
| Js.ParseFloatOrZero | src/components/POSModule.jsx:207 | `parseFloat(s) \|\| 0`: the parsed number, or 0 when it is NaN |
| Js.ParseFloatOfInt | src/components/FlavorsModule.jsx:163 | the text of an integer parses to that integer |
| Js.Trim | src/components/FlavorsModule.jsx:250 | the result is the input with white space removed only at its two ends: a contiguous slice of it, with only white space dropped before and after, that neither starts nor ends with white space, and is empty iff the input is all white space |
| Js.TrimIdempotent | src/components/FlavorsModule.jsx:250 | trimming twice is trimming once |
| Js.LeadingSpaces | src/components/FlavorsModule.jsx:250 | counts exactly the white space at the start: every character before it is white space and the next one is not |
| Js.TrailingSpaces | src/components/FlavorsModule.jsx:250 | counts exactly the white space at the end: every character after the cut is white space and the one before it is not |
| Js.IndexOf | src/components/POSModule.jsx:454-457 | the position of the first occurrence of a character, or the length when there is none; no earlier position holds it |
| Js.IntToString | src/components/FlavorsModule.jsx:178 | a template literal of an integer is its digits, with "-" before a negative one |
| Records.DetailsOf | src/services/db.js:208-210 | `getDetalleByVenta`: exactly the stored details carrying that sale id, here in write order |
| Records.DetailsOfAppend | src/services/db.js:208-210 | the details of a sale in a store built from two parts are those of the first part followed by those of the second |
| Records.ReplaceById | src/services/db.js:70-81 | `updateCategoria` and `updateSabor` (db.js:113-130): the record whose key matches is replaced, all others are kept in place, and nothing is added |
| Records.Store.constructor | src/services/db.js:4-16 | a fresh database has every table empty |
| Records.Store.AddCategory | src/services/db.js:55-68 | appends exactly that category, no other table changes |
| Records.Store.UpdateCategory | src/services/db.js:70-81 | the categories become the replacement by id, no other table changes |
| Records.Store.AddFlavor | src/services/db.js:92-111 | appends exactly that flavour |
| Records.Store.UpdateFlavor | src/services/db.js:113-130 | the flavours become the replacement by id |
| Records.Store.AddMovement | src/services/db.js:144-161 | appends exactly that movement to the ledger |
| Records.Store.AddSale | src/services/db.js:168-189 | appends exactly that sale |
| Records.Store.AddDetail | src/services/db.js:191-206 | appends exactly that detail |
| Ledger.Projection | src/components/POSModule.jsx:96-105 | definition: the movements of one flavour, filtered and summed under a sign rule, as all three screens compute stock; its laws are `Ledger.ProjectionStep`, `ProjectionAppend`, `ProjectionIgnoresOthers` and `ProjectionPermutation` |
| Ledger.FoldPermutation | src/components/POSModule.jsx:99-104 | a `reduce` of signed quantities gives the same sum for any reordering of the same movements |
| Ledger.ProjectionStep | src/components/POSModule.jsx:96-105 | a new movement changes a flavour's stock by its signed quantity when it is that flavour's, and not at all otherwise |
| Ledger.ProjectionAppend | src/components/POSModule.jsx:96-105 | the stock over a concatenated ledger is the sum of the stocks over the parts |
| Ledger.ProjectionIgnoresOthers | src/components/POSModule.jsx:97-98 | movements of other flavours never change a flavour's stock |
| Ledger.ProjectionPermutation | src/components/POSModule.jsx:96-105 | stock is the same for any reordering of the ledger, under any sign rule |
| Ledger.NewestFirst | src/services/db.js:137-142 | `getMovimientos` lists the ledger newest first: position i holds the i-th most recent movement, write order standing for time order |
| Ledger.NewestFirstPermutes | src/services/db.js:137-142 | the newest-first list holds exactly the stored movements |
| Pos.Delta | src/components/POSModule.jsx:102 | definition: the checkout's sign rule, −qty for a kind starting with "Salida" and +qty otherwise; stated by `Pos.StockStep` and `Consistency.KindsRead` |
| Pos.Stock | src/components/POSModule.jsx:96-105 | definition: `getInventoryForProduct`, the projection under the checkout's rule; stated by `Pos.StockStep` and `Consistency.SaleRaisesStock` |
| Pos.StockStep | src/components/POSModule.jsx:96-105 | a "Salida…" movement of the flavour lowers its stock by its quantity, any other movement of it raises it, another flavour's changes nothing |
| Pos.Available | src/components/POSModule.jsx:309-311 | a product is offered iff it is in the catalogue, active, and has stock above 0 |
| Pos.InCategory | src/components/POSModule.jsx:313 | a product is kept iff it is in the list and belongs to that category |
| Pos.Grouped | src/components/POSModule.jsx:312-316 | each group is non-empty and holds exactly the offered products of its category; every offered product of an existing category is in a group |
| Pos.FindLine | src/components/POSModule.jsx:115 | `findIndex`: the first line of that flavour, or −1 when there is none |
| Pos.AddToTicket | src/components/POSModule.jsx:112-151 | the ticket keeps its length or gains one new line (qty 1, price as subtotal) at the end; other flavours' lines are untouched |
| Pos.AddToTicketOutcome | src/components/POSModule.jsx:113-148 | the add is accepted iff the new quantity fits the stock; an existing line goes up by exactly one, a new line is appended last; other flavours' quantities stay the same |
| Pos.AddToTicketExisting | src/components/POSModule.jsx:115-131 | an accepted add to a flavour already on the ticket replaces only that line, with one more unit and subtotal new quantity × price |
| Pos.AddToTicketKeepsUnique | src/components/POSModule.jsx:115-148 | the ticket keeps at most one line per flavour |
| Pos.AddToTicketSubtotal | src/components/POSModule.jsx:125-148 | an accepted add of a priced line raises the subtotal by exactly the product's price |
| Pos.SetLines | src/components/POSModule.jsx:168-178 | the matching lines get quantity q and subtotal q·unit price, the others are unchanged |
| Pos.RemoveLines | src/components/POSModule.jsx:181-184 | `filter`: a line survives iff it is of another flavour |
| Pos.RemoveLinesAppend | src/components/POSModule.jsx:181-184 | removal distributes over concatenation, so the order of the kept lines is preserved |
| Pos.RemoveLinesUnique | src/components/POSModule.jsx:181-184 | removal keeps lines unique and leaves no line of that flavour |
| Pos.SetQuantity | src/components/POSModule.jsx:154-179 | q ≤ 0 removes the flavour, q above stock leaves the ticket unchanged, otherwise only the matching line changes |
| Pos.SetQuantityOutcome | src/components/POSModule.jsx:154-179 | the lines stay unique; after q ≤ 0 the flavour is gone; an accepted update gives quantity exactly q ≤ stock; other flavours keep their quantities |
| Pos.Subtotal | src/components/POSModule.jsx:187-188 | definition: `calculateSubtotal`, the sum of the line subtotals; stated by `Pos.SubtotalAppend`, `SubtotalUpdate` and `AddToTicketSubtotal` |
| Pos.SubtotalAppend | src/components/POSModule.jsx:187-188 | the subtotal of two ticket parts is the sum of their subtotals |
| Pos.SubtotalUpdate | src/components/POSModule.jsx:187-188 | replacing a line changes the subtotal by the difference of the two lines' subtotals |
| Pos.FixedDiscount | src/components/POSModule.jsx:194 | a fixed discount is in force iff the text is non-empty and parses to a number above 0, and then it is that number |
| Pos.Max0 | src/components/POSModule.jsx:195 | `Math.max(0, x)` is at least 0 and at least x, and is one of them |
| Pos.Discounted | src/components/POSModule.jsx:193-201 | with no fixed discount and no positive percentage the subtotal is kept; otherwise the result is never negative |
| Pos.TotalToPay | src/components/POSModule.jsx:191-202 | only a "Descuento" sale is discounted; its total is the discount rule applied to the subtotal |
| Pos.DiscountedBounds | src/components/POSModule.jsx:193-201 | on a non-negative subtotal the discounted total lies between 0 and the subtotal |
| Pos.DiscountedMonotoneInFixed | src/components/POSModule.jsx:194-196 | a larger fixed discount never gives a larger total, whatever the percentages |
| Pos.DiscountedMonotoneInPct | src/components/POSModule.jsx:197-199 | a larger percentage never gives a larger total |
| Pos.LiveChange | src/components/POSModule.jsx:205-208 | the change is non-negative iff the parsed amount covers the live total; with no amount it is minus the total |
| Pos.ProcessPayment | src/components/POSModule.jsx:218-237 | an empty ticket is refused; a subtotal ≤ 0 is refused unless it is a donation; a discount sale opens the discount dialog; otherwise the confirmation shows the subtotal, the amount, the change and no discount |
| Pos.EnabledFixedWithinSubtotal | src/components/POSModule.jsx:732-735 | while "Aplicar" is enabled, a fixed discount in force lies in (0, subtotal] |
| Pos.Share | src/components/POSModule.jsx:248 | the recorded percentage times the subtotal is 100 times the fixed amount, and lies in (0, 100] |
| Pos.DiscountTerms | src/components/POSModule.jsx:240-259 | a fixed amount gives total sub − fix and its share as percentage; otherwise the percentage gives max(0, sub·(1 − pct/100)) and fixed 0; change = received − total; the total is the one the dialog displayed |
| Pos.NumpadDelete | src/components/POSModule.jsx:463 | deleting drops exactly the last character, and is "" on "" |
| Pos.NumpadInput | src/components/POSModule.jsx:452-460 | definition: the numpad's `onInput`, which refuses a second "." and a third decimal and replaces a lone "0"; stated by `Pos.NumpadInputKeepsShape` and `NumpadInputOnZero` |
| Pos.NumpadInputKeepsShape | src/components/POSModule.jsx:452-461 | a key press never makes a second "." or a third decimal digit |
| Pos.NumpadInputOnZero | src/components/POSModule.jsx:459 | a key pressed on "0" replaces it |
| Pos.NumpadDeleteKeepsShape | src/components/POSModule.jsx:463 | deleting keeps at most one "." and at most two decimals |
| Pos.SaleHeader | src/components/POSModule.jsx:272-279 | a donation records what was received as total and no change; another sale records the total and received − total as change; both discounts are copied; no user is recorded |
| Pos.SaleDetails | src/components/POSModule.jsx:281-286 | one detail per ticket line, in order, copying flavour, quantity and subtotal under the sale id |
| Pos.SaleMovements | src/components/POSModule.jsx:288-293 | one movement per ticket line, in order: that flavour, kind "Salida automática por venta", quantity −qty |
| Pos.Session.constructor | src/components/POSModule.jsx:84-93 | the catalogue and the ledger (newest first) are loaded once; the ticket, amount, sale type and discounts start empty |
| Pos.Session.AddProduct | src/components/POSModule.jsx:112-151 | the ticket becomes the add against the stock of the loaded ledger; every line stays unique and within 1..stock |
| Pos.Session.UpdateQuantity | src/components/POSModule.jsx:154-179 | the ticket becomes the quantity update against the stock; the invariant is kept |
| Pos.Session.RemoveItem | src/components/POSModule.jsx:181-184 | the flavour's lines are removed; the invariant is kept |
| Pos.Session.ChangeSaleType | src/components/POSModule.jsx:210-215 | setting the type clears both discounts and the amount; the invariant is kept, so a donation starts with an empty amount |
| Pos.Session.SelectPercentage | src/components/POSModule.jsx:681-684 | choosing a percentage clears the fixed discount, so none is in force |
| Pos.Session.TypeFixedDiscount | src/components/POSModule.jsx:701-704 | typing a fixed discount clears the percentage |
| Pos.Session.CancelDiscount | src/components/POSModule.jsx:720-724 | cancelling the dialog clears both discounts |
| Pos.Session.PressKey | src/components/POSModule.jsx:439-461 | only outside a donation, where the numpad is shown: the amount becomes the numpad update of the key, and keeps at most one "." and two decimals |
| Pos.Session.PressDelete | src/components/POSModule.jsx:439-466 | only outside a donation: the amount loses its last character and keeps its shape |
| Pos.Session.PressClear | src/components/POSModule.jsx:439-466 | only outside a donation: the amount becomes "" |
| Pos.Session.Pay | src/components/POSModule.jsx:218-237 | the outcome is the payment check; the confirmation terms are stored only when it confirms; a donation's terms record a received amount of 0 |
| Pos.Session.ApplyDiscount | src/components/POSModule.jsx:240-262 | refused, with nothing changed, iff the fixed discount exceeds the subtotal; otherwise the terms are the discount terms of the subtotal, and on a non-negative subtotal the total is the live total |
| Pos.Session.WriteLines | src/components/POSModule.jsx:280-294 | per ticket line, in order, exactly one detail and one deduction movement are appended, and nothing else is written |
| Pos.Session.ConfirmSale | src/components/POSModule.jsx:265-301 | an underpaid non-donation writes nothing; otherwise one header, then per line in order one detail and one movement, then the ticket, amount, sale type and discounts are reset |
| Flavors.Delta | src/components/FlavorsModule.jsx:48-49 | definition: the catalogue's sign rule, +qty only for the kind "Entrada" exactly; stated by `Flavors.StockStep` and `Consistency.KindsRead` |
| Flavors.Stock | src/components/FlavorsModule.jsx:44-51 | definition: `getInventoryForFlavor`, the projection under the catalogue's rule; stated by `Flavors.StockStep` and `AdjustmentReachesTarget` |
| Flavors.StockStep | src/components/FlavorsModule.jsx:44-51 | only a kind exactly "Entrada" raises this screen's stock; every other kind of that flavour lowers it |
| Flavors.ChangeField | src/components/FlavorsModule.jsx:61-74 | only the named field changes: a checkbox gets its state, the initial stock keeps "" or gets `parseInt(value) \|\| 0` with no radix, the others get the raw text |
| Flavors.FindCategory | src/components/FlavorsModule.jsx:82 | `find`: none iff no category has the id, else the first with it |
| Flavors.CategoryIndex | src/components/FlavorsModule.jsx:82 | the index of the first category with the id, the length of the list when none has it |
| Flavors.SelectCategory | src/components/FlavorsModule.jsx:76-90 | "_new_" changes only the category id; otherwise the id is set, the name copied (or ""), and the price adopted only when the category's base price is not null |
| Flavors.PriceOk | src/components/FlavorsModule.jsx:150-151 | definition: the price check, a non-empty text that `parseFloat` reads as a number, or a non-zero number; stated by `Flavors.ZeroPriceTextAccepted` |
| Flavors.ValidForm | src/components/FlavorsModule.jsx:146-152 | definition: a name, a category other than "" and "_new_", and a price passing `PriceOk`; `Flavors.CatalogScreen.SaveFlavor` writes nothing when it fails |
| Flavors.FlavorOf | src/components/FlavorsModule.jsx:159-167 | the saved record carries the form's name, category, colour, active flag and image; its price is stated by Flavors.FlavorOfPrice |
| Flavors.FlavorOfPrice | src/components/FlavorsModule.jsx:159-167 | the saved price is `parseFloat` of the typed text, or the number itself when the field holds one |
| Flavors.ZeroPriceTextAccepted | src/components/FlavorsModule.jsx:150-151 | a typed "0" passes the price check, a number 0 loaded by an edit does not |
| Flavors.InitialTargetValue | src/components/FlavorsModule.jsx:170 | the target stock is 0 for an empty field and the number itself otherwise |
| Flavors.Adjustment | src/components/FlavorsModule.jsx:169-180 | definition: the movement an edit appends, if any; stated by `Flavors.AdjustmentReachesTarget` |
| Flavors.AdjustmentReachesTarget | src/components/FlavorsModule.jsx:168-180 | a movement is written iff target ≠ stock; it is an "Entrada" iff target > stock; its quantity is the absolute difference; afterwards this screen's stock is the target |
| Flavors.InitialMovement | src/components/FlavorsModule.jsx:193-201 | definition: the "Entrada" a creation appends for a positive initial stock; stated by `Flavors.InitialMovementStock` |
| Flavors.InitialMovementStock | src/components/FlavorsModule.jsx:192-201 | an "Entrada" of init is written iff init > 0, so the new flavour's stock rises by init, or by 0 |
| Flavors.CategoryPrice | src/components/FlavorsModule.jsx:251 | the base price is null exactly when the price field is empty, and is `parseFloat` of the text otherwise |
| Flavors.SaveCategoryCheck | src/components/FlavorsModule.jsx:249-277 | refused iff the trimmed name is empty, or, when adding, equals an existing name exactly; editing skips the duplicate check |
| Flavors.QuickAddCheck | src/components/FlavorsModule.jsx:94-105 | refused iff the trimmed name is empty or the untrimmed name equals an existing one |
| Flavors.QuickAddKeepsBlanks | src/components/FlavorsModule.jsx:94-105 | a stored name typed again with a leading blank is a duplicate for the category dialog but is accepted, blank included, by quick-add |
| Flavors.ReloadedStock | src/components/FlavorsModule.jsx:205 | the reloaded newest-first ledger gives the same stock as the screen's list plus the new movements |
| Flavors.CatalogScreen.constructor | src/components/FlavorsModule.jsx:32-41 | the categories, flavours and ledger (newest first) are loaded and the form is empty |
| Flavors.CatalogScreen.LoadedStock | src/components/FlavorsModule.jsx:44-51 | the screen's stock equals the stock over the stored ledger |
| Flavors.CatalogScreen.Change | src/components/FlavorsModule.jsx:61-74 | the form becomes the field update |
| Flavors.CatalogScreen.ChooseCategory | src/components/FlavorsModule.jsx:76-90 | the form becomes the category selection |
| Flavors.CatalogScreen.NewFlavor | src/components/FlavorsModule.jsx:129-142 | the form is reset and nothing is being edited |
| Flavors.CatalogScreen.EditFlavor | src/components/FlavorsModule.jsx:213-227 | the form is filled from the flavour, with its current stock as the initial field |
| Flavors.CatalogScreen.WriteEdit | src/components/FlavorsModule.jsx:156-180 | the flavour is replaced by id and the adjustment is appended, after which the reloaded stock is the target and the form is reset |
| Flavors.CatalogScreen.WriteNew | src/components/FlavorsModule.jsx:181-201 | the flavour is appended, then the initial "Entrada" when init > 0, after which the reloaded stock grows by exactly that and the form is reset |
| Flavors.CatalogScreen.AppendAndReload | src/components/FlavorsModule.jsx:203-204 | the store gains exactly the given movement, if any; both lists are read back, and the stock of the flavour read back is that of the shown list with the write appended |
| Flavors.CatalogScreen.SaveFlavor | src/components/FlavorsModule.jsx:144-211 | refused with no write iff the form is invalid; an edit replaces the record and brings the stock to the target; a creation appends the record and its initial stock; the lists are reloaded and the form reset |
| Flavors.CatalogScreen.ResetCategoryForm | src/components/FlavorsModule.jsx:242-247 | the category form is emptied |
| Flavors.CatalogScreen.EditCategory | src/components/FlavorsModule.jsx:286-292 | the category form holds the category's name, its price text ("" when null) and the category being edited |
| Flavors.CatalogScreen.SaveCategory | src/components/FlavorsModule.jsx:249-284 | the outcome is the check; a refusal writes nothing; an accepted edit replaces by id, an add appends, with the trimmed name and the parsed price; the form is reset |
| Flavors.CatalogScreen.QuickAddCategory | src/components/FlavorsModule.jsx:94-125 | the outcome is the check; a refusal writes nothing; otherwise the category is appended with the untrimmed name and selected in the flavour form, whose price becomes the category's when given |
| Flavors.CatalogScreen.WriteQuickAdd | src/components/FlavorsModule.jsx:106-120 | for an accepted name: the category is appended with the untrimmed name and `parseFloat` of the price text (none when empty), selected in the flavour form, and both dialog fields are cleared |
| Inventory.ChangeField | src/components/InventoryModule.jsx:34-37 | only the named field changes, to the raw value |
| Inventory.Check | src/components/InventoryModule.jsx:40-58 | missing input iff no flavour or an empty quantity; bad quantity iff the quantity parses to NaN or 0; otherwise one movement with the flavour, kind, parsed (possibly negative) quantity and note |
| Inventory.CheckAcceptsWritten | src/components/InventoryModule.jsx:47-58 | any non-zero integer typed (with any non-digit tail) is accepted as exactly that quantity |
| Inventory.CheckRefusesZero | src/components/InventoryModule.jsx:47-51 | "0", "-0" and "abc" are refused as bad quantities |
| Inventory.MovementScreen.constructor | src/components/InventoryModule.jsx:11-25 | the ledger is loaded newest first and the form starts at kind "Entrada" |
| Inventory.MovementScreen.Change | src/components/InventoryModule.jsx:34-37 | the form becomes the field update |
| Inventory.MovementScreen.Submit | src/components/InventoryModule.jsx:40-71 | the outcome is the check; a refusal writes nothing; an acceptance appends exactly that movement, resets the form and reloads the ledger |
| Reports.Delta | src/components/ReportsModule.jsx:49 | definition: the reports' sign rule, +qty for a kind starting with "Entrada"; stated by `Reports.StockStep` and `Consistency.KindsRead` |
| Reports.Stock | src/components/ReportsModule.jsx:43-51 | definition: `getInventoryForFlavor`, the projection under the reports' rule; stated by `Reports.StockStep` |
| Reports.GlobalStock | src/components/ReportsModule.jsx:57-60 | definition: `totalGlobalStock`, the sum of every flavour's stock; stated by `Reports.CategoriesCoverGlobal` |
| Reports.CategoryStock | src/components/ReportsModule.jsx:63-65 | definition: the stock of the flavours filed under one category; stated by `Reports.ByCategoryEntries` and `CategoriesTotalStep` |
| Reports.StockStep | src/components/ReportsModule.jsx:43-51 | a kind starting with "Entrada" raises this screen's stock; every other kind of that flavour lowers it |
| Reports.ByCategory | src/components/ReportsModule.jsx:62-67 | the keys are exactly the category names; for a name, the last category carrying it gives its entry |
| Reports.ByCategoryEntries | src/components/ReportsModule.jsx:62-67 | with distinct names, every category's entry is the stock of the flavours in it |
| Reports.CategoriesCoverGlobal | src/components/ReportsModule.jsx:57-67 | when every flavour's category id occurs exactly once, the per-category stocks add up to the global stock |
| Reports.CategoriesTotalStep | src/components/ReportsModule.jsx:62-67 | one more flavour adds its stock once for each category with its id |
| Reports.MoneyGenerated | src/components/ReportsModule.jsx:69-78 | definition: `totalMoneyGenerated`, skipping only donations whose total is not positive; stated by `Reports.MoneyGeneratedAll` |
| Reports.MoneyGeneratedAll | src/components/ReportsModule.jsx:69-78 | with no negative totals, the money generated is the sum of all sale totals |
| Reports.MoneyInStock | src/components/ReportsModule.jsx:80-83 | definition: `totalMoneyInStock`, each flavour's stock times its price, summed; stated by `Reports.MoneyInStockNonNegative` and `MoneyInStockAppend` |
| Reports.MoneyInStockNonNegative | src/components/ReportsModule.jsx:80-83 | when no flavour has negative stock or a negative price, the "money in stock" figure is never negative |
| Reports.MoneyInStockAppend | src/components/ReportsModule.jsx:80-83 | the money in stock of two lists of flavours together is the sum of each list's money in stock: the figure is a sum over flavours, so it does not depend on how the list is split |
| Reports.SaleDiscountLoss | src/components/ReportsModule.jsx:86-94 | definition: one sale's share of `totalDiscountLoss`; stated by `Reports.SaleDiscountLossReconstructs` and `SaleDiscountLossNonNegative` |
| Reports.DiscountLoss | src/components/ReportsModule.jsx:85-96 | definition: `totalDiscountLoss`, the sum of the sales' shares; stated by `Reports.DiscountLossWithoutDiscounts` and `TotalLossNonNegative` |
| Reports.DonationLoss | src/components/ReportsModule.jsx:97-103 | definition: `totalDonationLoss`, the detail subtotals of the donations; stated by `Consistency.CommitDonationLoss` and `DonationLossIgnoresOthers` |
| Reports.TotalLoss | src/components/ReportsModule.jsx:105 | definition: `totalLoss`, the discount loss plus the donation loss; stated by `Reports.TotalLossNonNegative` |
| Reports.SaleDiscountLossReconstructs | src/components/ReportsModule.jsx:85-95 | a percentage sale's loss is exactly what was taken off the subtotal its total came from; 0% loses nothing |
| Reports.DiscountLossWithoutDiscounts | src/components/ReportsModule.jsx:85-95 | with no "Descuento" sale the discount loss is 0 |
| Reports.SaleDiscountLossNonNegative | src/components/ReportsModule.jsx:85-95 | a sane discount never contributes a negative loss |
| Reports.TotalLossNonNegative | src/components/ReportsModule.jsx:85-105 | with sane discounts and non-negative subtotals both losses and their sum are non-negative |
| Reports.RowOriginal | src/components/ReportsModule.jsx:214-215 | definition: a history row's `original`, the sale's detail subtotals summed; stated by `Consistency.CommitDetailsReadBack` |
| Reports.RowDiscount | src/components/ReportsModule.jsx:216-220 | 0 unless "Descuento"; then the fixed amount when it is not 0, else the percentage of the original |
| Reports.RowDiscountMatchesLoss | src/components/ReportsModule.jsx:213-220 | when the total is the original less the row's discount, the row's discount equals the sale's discount loss |
| Reports.RowUserName | src/components/ReportsModule.jsx:53-54 | the first user with the sale's user id gives the name, when that name is non-empty; "Desconocido" when that name is empty, when no user has the id, or when the sale names no user |
| Trends.BumpSpec | src/components/TrendsModule.jsx:46 | `d[k] = (d[k] \|\| 0) + x` adds x to key k's sum only, adds k if new, and keeps keys distinct |
| Trends.TallyOfSpec | src/components/TrendsModule.jsx:42-47 | the string-keyed dictionary has one entry per key that occurs, holding that key's sum |
| Trends.TallyOfTotal | src/components/TrendsModule.jsx:42-47 | the entries add up to the sum of all the weights |
| Trends.Tally | src/components/TrendsModule.jsx:42-47 | the loop builds exactly the tally of the items |
| Trends.BucketsBelowSpec | src/components/TrendsModule.jsx:66-72 | the integer-keyed dictionary lists its keys in ascending order, one per key that occurs, each with its sum |
| Trends.BucketsTotal | src/components/TrendsModule.jsx:67-70 | when all keys are in range, the buckets add up to the sum of all sale totals |
| Trends.Buckets | src/components/TrendsModule.jsx:66-72 | the loops build exactly the ascending buckets |
| Trends.Leader | src/components/TrendsModule.jsx:49-51 | the argmax holds the largest value, and every earlier entry is strictly smaller: the first maximum wins |
| Trends.TallyLeader | src/components/TrendsModule.jsx:41-53 | the leader of a tally is a key that occurs, with its sum, and no key's sum is larger |
| Trends.BucketsLeader | src/components/TrendsModule.jsx:66-73 | the leader of the buckets is an in-range key that occurs, with its sum, and no key's sum is larger |
| Trends.BucketsLeaderFirst | src/components/TrendsModule.jsx:72 | ties go to the smallest key: every smaller key that occurs has a strictly smaller sum than the leader's |
| Trends.ProductName | src/components/TrendsModule.jsx:35-36 | the first flavour with the id gives the name, when that name is non-empty; "Desconocido" when it is empty or no flavour has the id |
| Trends.UserName | src/components/TrendsModule.jsx:37-38 | the first user with the id gives the name, when that name is non-empty; "Anónimo" when it is empty or no user has the id |
| Trends.SoldDetails | src/components/TrendsModule.jsx:43-44 | definition: `Object.values(detallesMap).flat()`, the details of each sale in sale order; used by `Trends.TopProduct` |
| Trends.QuantityItems | src/components/TrendsModule.jsx:43-46 | each sold detail contributes its flavour and quantity |
| Trends.TotalItems | src/components/TrendsModule.jsx:67-70 | each sale contributes its bucket key and its total |
| Trends.UserItems | src/components/TrendsModule.jsx:117-120 | every sale with a non-empty user id gives the item (user id, total), and every item comes from such a sale; no such sale, no items |
| Trends.UserItemsSum | src/components/TrendsModule.jsx:117-120 | the tally's sum for a user is the total of that user's sales |
| Trends.TopProduct | src/components/TrendsModule.jsx:41-53 | "N/A" and 0 with no detail; otherwise the first flavour with the largest total sold, that total, and no flavour sold more |
| Trends.TopBucket | src/components/TrendsModule.jsx:66-73 | a key is found iff there are sales; it occurs, no key's sum is larger, and every smaller key has a strictly smaller sum |
| Trends.TopDay | src/components/TrendsModule.jsx:56-74 | "N/A" with no sales; otherwise the name of a weekday that occurs and whose sales no other weekday exceeds, each earlier weekday selling strictly less (ties go to the earliest) |
| Trends.TopMonth | src/components/TrendsModule.jsx:77-100 | "N/A" with no sales; otherwise the name of a month that occurs and whose sales no other month exceeds, each earlier month selling strictly less (ties go to the earliest) |
| Trends.HourLabel | src/components/TrendsModule.jsx:111 | definition: an hour's title, built with `parseInt` with no radix on the key; stated by `Trends.HourLabelOf` |
| Trends.HourLabelOf | src/components/TrendsModule.jsx:111 | the label of hour h reads "h:00–(h+1):00" |
| Trends.TopHour | src/components/TrendsModule.jsx:103-112 | "N/A" with no sales; otherwise the label of an hour that occurs and whose sales no other hour exceeds, each earlier hour selling strictly less (ties go to the earliest) |
| Trends.TopUser | src/components/TrendsModule.jsx:115-126 | "N/A" and 0 when no sale names a user; otherwise the first user in the tally with the largest total, that total is the sum of the user's sales, and no user's sales add up to more |
| Consistency.KindsRead | src/components/ReportsModule.jsx:49 | how each rule reads "Entrada", "Salida automática por venta" and "Ajuste" |
| Consistency.AdjustmentSameEverywhere | src/components/FlavorsModule.jsx:168-180 | an edit's adjustment moves the stock by target − stock under all three rules |
| Consistency.AdjustmentKind | src/components/FlavorsModule.jsx:169-179 | an edit writes an "Entrada" of the difference when the target is higher and a "Salida automática por venta" of it when lower |
| Consistency.AjusteDisagrees | src/components/InventoryModule.jsx:115-117 | an "Ajuste" movement adds its quantity at the checkout but subtracts it in the catalogue and the reports |
| Consistency.SoldOfUnique | src/components/POSModule.jsx:280-294 | with one line per flavour, the units a sale moves are that line's quantity |
| Consistency.SaleMovementsUnder | src/components/POSModule.jsx:288-293 | under any rule that reads each sale movement as +qty, a sale raises stock by the units sold |
| Consistency.SaleRaisesStock | src/components/POSModule.jsx:288-293 | after a sale every screen's stock of a sold flavour is higher by the quantity sold |
| Consistency.SaleExample | src/components/POSModule.jsx:288-293 | whatever the ledger, a flavour every screen shows with five units shows seven on every screen once two are sold |
| Consistency.CommitDetailsReadBack | src/components/ReportsModule.jsx:213-215 | the details a commit writes are what the reports read back for that sale: the same sequence in the model's write order, the same multiset in any order, and they add up to the ticket's subtotal |
| Consistency.DonationLossIgnoresOthers | src/components/ReportsModule.jsx:97-103 | details of a new sale do not change the donation loss of the earlier sales |
| Consistency.CommitDonationLoss | src/components/ReportsModule.jsx:97-103 | committing a donation raises the donation loss by the ticket's subtotal, whatever was received |
| Consistency.CommitDiscountAgrees | src/components/ReportsModule.jsx:85-95 | for a discount sale the history row's discount and the discount loss agree, and equal what was taken off the subtotal |
| Consistency.CheckoutSalesHaveNoUser | src/components/TrendsModule.jsx:115-121 | sales written by the checkout name no user, so the trends' top seller is "N/A" |

## Left out

- src/services/db.js is replaced by `Records.Store`, whose tables are sequences. Storage errors and the `try/catch` branches that report them are not modelled. Other parts of db.js are not part of this model: the Capacitor back end (src/services/db_old.js), users, delete operations, the `populate` seed, and the name ordering of `getCategorias` and `getSabores` (the model lists them in stored order).
- Generated UUIDs and `now()` are parameters. For the trends screen, the sale's weekday, month and hour (`getDay`, `getMonth`, `getHours`, which depend on the time zone) are input sequences.
- Floating-point rounding: money is an exact `real`, and `parseInt` is exact for integers of any size, where JavaScript rounds numbers beyond 2^53. `Js.ParseFloat` reads leading white space, an optional sign, digits and one fraction. It does not handle exponents or "Infinity".
- `String(x)` of a non-integer number is not modelled. `Flavors.CatalogScreen.EditCategory` takes the displayed price text as a parameter. An edited flavour's price is held as the number itself, the way the form holds it.
- Rendering, the modal show/hide flags, `toFixed(2)`, messages and their `setTimeout` clearing are left out. Disabled buttons are modelled as refused operations: "Aplicar" while the fixed discount exceeds the subtotal, "Confirmar" while underpaid.
- The delete handlers for flavours and categories, which call `confirm`, are left out.
- Orderings of awaited writes and partial commits are left out: a commit is atomic in the model. The `Promise.all` detail loading is modelled as `DetailsOf` per sale, and sale ids are taken to be distinct.
- Ticket lines do not carry `Color` or `Imagen_URL`, which are only shown. Detail and movement ids and timestamps are not stored either.
- The form's category name after an edit (undefined in the source) is modelled as "".
- Records.DetailsOf: returns a sale's details in write order. `getDetalleByVenta` (src/services/db.js:208-210) reads the `ID_Venta` index, which orders one sale's details by their primary key `ID_Detalle`, a random UUID. So in the program only the multiset of a sale's details and their sum are fixed, and `Consistency.CommitDetailsReadBack` states both. This order also decides `Trends.TopProduct` when two flavours of one sale tie: the model picks the flavour on the earlier ticket line, the program the one whose detail id sorts first.
- Ledger.NewestFirst: takes the order of writes to be time order. `orderBy("Fecha_Hora").reverse()` puts movements with the same millisecond in reverse `ID_Movimiento` (UUID) order, and a checkout commit writes several movements in one loop. Only the order of the catalogue's and inventory screen's lists is affected; stock is not, by `Ledger.ProjectionPermutation`.
- LoginModule, UsersModule, the app shell, Navbar and the idle logout are outside the core.
- Trends.TopProduct, Trends.TopUser: the `Object.keys` order of a dictionary whose keys look like integers would differ from insertion order; flavour and user ids are UUIDs, so insertion order is modelled.
- Reports.ByCategory: for names that repeat, only the last category's entry is characterised; the entries for distinct names are given by `Reports.ByCategoryEntries`.
- Pos.Session.ApplyDiscount: the link to the live total is stated for a non-negative subtotal and percentage (the dialog offers 10, 20 and 50 %).
