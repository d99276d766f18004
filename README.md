# Store back office: stock ledger and its bulk actions

A Dafny model of the stock ledger of a small retail back office (a Django
project) and the three admin bulk actions that change it:

- **Receiving purchases** (`mark_as_received`). Pending purchases are grouped
  by stock item. Each group adds its quantity to the stock row, blends its
  cost into a weighted-average cost price rounded to paise, and may overwrite
  the selling price.
- **Verifying sales** (`verify_sale`). Pending sales are grouped by stock
  item. A group that asks for more than the row holds is skipped; any other
  group is deducted as a whole.
- **Processing returns** (`process_return`). Returns are taken one at a time.
  One that asks for more than is left aborts the whole batch.

Each action runs in one database transaction. The model computes the new
table on a local copy and writes it back, together with the record flags,
only when the whole body completes. On any raise, the ledger and every record
are left exactly as they were.

Alongside the actions, the model covers:

- the fields derived on save: `Purchase.save`, `Sales.save` and the sales
  admin's `save_model`;
- the date range chosen for the sales report;
- the sale-creation stock guard and the stock-level filter of the dashboard;
- the Indian digit grouping of amounts (`12,34,567`);
- the keyword classifier `extract_category`, in both of its copies, with the
  `.title()` normalisation the import command applies before it.

## Layout

| file | module | models |
|---|---|---|
| common.dfy | Common | `Option`, distinct sequences, Python truthiness of an optional float, `round(x, 2)` |
| inventory.dfy | Inventory | stock rows, the `Ledger` table, errors and outcomes |
| purchases_models.dfy | PurchaseModels | `Purchase` and its `save` |
| purchases_admin.dfy | PurchaseAdmin | `mark_as_received` |
| sales_models.dfy | SalesModels | `Sale` and its `save` |
| sales_admin.dfy | SalesAdmin | `verify_sale`, `save_model`, the report date range |
| returns_admin.dfy | ReturnsAdmin | `PurchaseReturn` and `process_return` |
| dashboard.dfy | Dashboard | sale-creation guard, stock-level filter |
| currency.dfy | Currency | `indian_currency_format` |
| text.dfy | Text | `lower`, `upper`, `strip`, `title`, substring `in` (ASCII) |
| classifier.dfy | Classifier | `extract_category` of test.py |
| import_stock.dfy | ImportStock | `extract_category` and the name normalisation of the import command |

Records that the actions update in place (`Purchase`, `Sale`, `PurchaseReturn`)
are classes. A queryset is a sequence of distinct record objects. Each action
snapshots it as a sequence of value lines, written `Lines(queryset)`. Every
state-changing method is specified against functions on these lines:

- `ReceiveAll` for receiving;
- `VerifyAll`, `PassingIds` and `CountIn` for verifying;
- `Apply` for returns.

The lemmas beside those functions state what the source promises.

## Model

| member | source | states |
|---|---|---|
| Common.Round2 | purchases/admin.py:39 | `round(x, 2)` yields a whole number of hundredths within half a hundredth of `x` |
| Common.Round2Exact | purchases/admin.py:39 | rounding an amount that is already in whole hundredths leaves it unchanged |
| PurchaseModels.SuggestedPrice | purchases/models.py:30 | round(cost / 0.8, 2); `SuggestedPriceMargin` and `SuggestedPriceCoversCost` state its margin over the cost |
| PurchaseModels.SuggestedPriceMargin | purchases/models.py:30 | 80% of the derived selling price is the unit cost, to within 0.004 |
| PurchaseModels.SuggestedPriceCoversCost | purchases/models.py:30 | from a unit cost of 0.02 up, the derived selling price is never below the cost |
| PurchaseModels.Purchase.constructor | purchases/models.py:9-14 | a new purchase is not received and has no selling price yet |
| PurchaseModels.Purchase.Save | purchases/models.py:27-31 | every save sets total cost = quantity × unit cost and overwrites the selling price with round(cost / 0.8, 2); only the purchase itself is in the frame, so no stock row changes |
| PurchaseAdmin.GroupPending | purchases/admin.py:15-18 | the groups are keyed by exactly the stock ids of pending purchases; each holds that stock's pending purchases in selection order; the key order has no repeats |
| PurchaseAdmin.GroupMembers | purchases/admin.py:16-18 | a group holds only pending purchases of its own stock, and is non-empty exactly when that stock has one |
| PurchaseAdmin.ApplySellingPrices | purchases/admin.py:42-44 | the selling-price loop ends with the last truthy selling price of the group, or the old price when there is none |
| PurchaseAdmin.NoPriceKeepsCurrent | purchases/admin.py:42-44 | a group with no truthy selling price leaves the selling price unchanged |
| PurchaseAdmin.LastPriceWins | purchases/admin.py:42-44 | a truthy selling price with no truthy price after it in the group is the price kept |
| PurchaseAdmin.BlendCost | purchases/admin.py:36-39 | the cost becomes the rounded weighted average when the new quantity is positive, and is unchanged otherwise |
| PurchaseAdmin.ReceiveOne | purchases/admin.py:27-44 | one group's row update: quantity, blended cost and selling price, as `ReceiveGroup` defines them |
| PurchaseAdmin.ReceiveGroups | purchases/admin.py:21-46 | the group loop raises exactly when a pending purchase references a missing stock row, and names that row; otherwise it yields `ReceiveAll` of the table |
| PurchaseAdmin.FlagReceived | purchases/admin.py:48-51 | every pending purchase becomes received and is saved, so its derived fields hold; received purchases are untouched |
| PurchaseAdmin.MarkAsReceived | purchases/admin.py:9-57 | a non-superuser changes nothing and gets an error; a missing stock row rolls back every change; otherwise the table becomes `ReceiveAll`, every pending purchase is flagged received, and the outcome is success |
| PurchaseAdmin.NoPendingIds | purchases/admin.py:16-18 | a selection with no pending purchase references no stock |
| PurchaseAdmin.ReceiveAllReceivedIsNoOp | purchases/admin.py:16-18 | an already-received selection cannot raise and leaves every stock row unchanged |
| PurchaseAdmin.ReceiveQuantities | purchases/admin.py:30-44 | a row gains exactly its group's total quantity, so no quantity decreases; a row with pending purchases takes the group's weighted cost and its last truthy selling price; rows with no pending purchase are untouched; no row is added or removed |
| PurchaseAdmin.ValueKept | purchases/admin.py:31-39 | new quantity × new cost equals held value + incoming value, to within half a paisa per unit; with zero quantity the cost is unchanged |
| PurchaseAdmin.RoundedAverage | purchases/admin.py:38-39 | a rounded average, multiplied back by its divisor, is within half a paisa per unit of the total |
| PurchaseAdmin.SumCostBounds | purchases/admin.py:30-31 | when every unit cost lies in [lo, hi], the group's total cost lies between lo and hi times its total quantity |
| PurchaseAdmin.WithinRange | purchases/admin.py:37-39 | when the held cost and the incoming unit costs lie in [lo, hi], the blended cost lies in [lo, hi] up to rounding |
| PurchaseAdmin.CostWithinRange | purchases/admin.py:27-39 | receiving a group never moves the cost price outside the range of the held and incoming unit costs, beyond rounding |
| PurchaseAdmin.WeightedAverageExample | purchases/admin.py:30-44 | 10 units at 100.00, plus lines of 5 at 120.00 and 5 at 140.00, give 20 units at 115.00; the selling price kept is the later line's |
| PurchaseAdmin.SumQty | purchases/admin.py:30 | a group's total quantity; `ReceiveQuantities` proves a row gains exactly this, and `SumCostBounds` bounds the value against it |
| PurchaseAdmin.SumCost | purchases/admin.py:31 | a group's total value; `SumCostBounds` bounds it between lo and hi times the total quantity |
| PurchaseAdmin.WeightedCost | purchases/admin.py:36-39 | the rounded weighted average; `ValueKept` and `RoundedAverage` show it keeps the value to half a paisa per unit, and `WithinRange` keeps it within the input costs |
| PurchaseAdmin.LastSellingPrice | purchases/admin.py:42-44 | the selling price after the loop; `NoPriceKeepsCurrent` and `LastPriceWins` characterise it |
| PurchaseAdmin.ReceiveGroup | purchases/admin.py:27-44 | one row after receiving its group; `CostWithinRange` and `ValueKept` state its cost, and `ReceiveQuantities` its quantity |
| PurchaseAdmin.ReceiveAll | purchases/admin.py:21-46 | the table after a committed receive; `ReceiveQuantities` and `ReceiveAllReceivedIsNoOp` state what it changes |
| PurchaseAdmin.PendingIds | purchases/admin.py:15-18 | the keys of `purchase_groups`: the stock ids of the purchases not yet received; `GroupPending` builds exactly these keys, and `NoPendingIds` shows a received-only selection has none |
| PurchaseAdmin.Group | purchases/admin.py:15-18 | the list `setdefault` collects for one stock id: its pending purchases in selection order; `GroupPending` builds exactly these lists, and `GroupMembers` and `GroupEmpty` state what they hold |
| PurchaseAdmin.MissingStock | purchases/admin.py:25 | some pending purchase names a stock row that does not exist, so `.get(id=stock_id)` raises; `ReceiveGroups` raises exactly in this case, and `MarkAsReceived` then rolls back |
| SalesModels.ProfitPlusCostIsTotal | sales/models.py:15-19 | with a cost price, gross profit + cost × quantity = quantity × selling price |
| SalesModels.ProfitSign | sales/models.py:18-19 | selling at cost gives zero profit, above cost a positive profit, below cost a negative one |
| SalesModels.GrossProfit | sales/models.py:18-21 | the profit formula of save; `ProfitPlusCostIsTotal` and `ProfitSign` state its meaning |
| SalesModels.Sale.constructor | sales/models.py:6-11 | a new sale is unverified and stamped with the creation time |
| SalesModels.Sale.Single | sales/models.py:6 | a sale created without a quantity has quantity one |
| SalesModels.Sale.Save | sales/models.py:13-23 | every save sets total amount = quantity × price, and gross profit = (price − cost) × quantity, or 0 without a cost price; the stock row is only read |
| SalesAdmin.GroupPending | sales/admin.py:26-29 | the groups are keyed by exactly the stock ids of unverified sales; each holds that stock's unverified sales in selection order; the key order has no repeats |
| SalesAdmin.GroupMembers | sales/admin.py:27-29 | a group holds only unverified sales of its own stock, and is non-empty exactly when that stock has one |
| SalesAdmin.DeductOne | sales/admin.py:36-54 | one group is skipped exactly when it asks for more than its row holds; otherwise the row loses the group's total and the count gains the group's size |
| SalesAdmin.DeductGroups | sales/admin.py:32-54 | the group loop raises exactly when an unverified sale references a missing stock row; otherwise it yields `VerifyAll` of the table, and the count of sales in passing groups |
| SalesAdmin.CountInAdd | sales/admin.py:54 | counting one more passing group adds exactly that group's size |
| SalesAdmin.FlagVerified | sales/admin.py:49-52 | every unverified sale of a passing stock becomes verified and is saved with its stock's cost; all other sales are untouched |
| SalesAdmin.VerifySale | sales/admin.py:18-63 | a non-superuser changes nothing and gets an error; a missing stock row rolls back every change; otherwise the table becomes `VerifyAll`, the sales of passing groups are flagged verified, and the outcome is success when the count is positive and a warning when it is zero |
| SalesAdmin.NoPendingIds | sales/admin.py:27-29 | a selection with no unverified sale references no stock |
| SalesAdmin.ReverifyIsNoOp | sales/admin.py:27-63 | an already-verified selection cannot raise, changes no stock row and verifies nothing, so the action warns |
| SalesAdmin.VerifyQuantities | sales/admin.py:39-46 | an oversold row is unchanged; any other referenced row loses exactly its group's total; rows with no unverified sale are untouched; no quantity grows or drops below zero; no cost price or selling price changes |
| SalesAdmin.CountIsNewlyVerified | sales/admin.py:49-54 | the count is the number of unverified sales of passing stocks, which are the sales the action flags |
| SalesAdmin.OversellSkipsOnlyItsGroup | sales/admin.py:39-54 | with 3 + 4 units requested from a row of 5, and 6 from a row of 10, only the second group is deducted and counted |
| SalesAdmin.AdminFields | sales/admin.py:169-173 | the admin's own assignments already give the fields the model's save derives: total amount = quantity × price, and gross profit = (price − cost) × quantity, or 0 without a cost price; the verified flag is unchanged |
| SalesAdmin.SaveModel | sales/admin.py:167-174 | the admin save, its assignments followed by the model's save, leaves the derived fields holding and the verified flag unchanged |
| SalesAdmin.Passes | sales/admin.py:39-43 | a group is not oversold; `DeductOne` skips a group exactly when it fails, and `VerifyQuantities` leaves a failing row unchanged |
| SalesAdmin.PassingIds | sales/admin.py:36-47 | the stock items that are deducted; `VerifySale`'s ensures counts and flags the sales of exactly these items, and `AcceptedSaleVerifies` uses it |
| SalesAdmin.VerifyAll | sales/admin.py:32-54 | the table after a committed verification; `VerifyQuantities`, `ReverifyIsNoOp` and `OversellSkipsOnlyItsGroup` state what it changes |
| SalesAdmin.CountIn | sales/admin.py:54 | the number of sales verified; `CountInAdd`, `CountEmpty` and `CountIsNewlyVerified` state it |
| SalesAdmin.PendingIds | sales/admin.py:26-29 | the keys of `sales_grouped`: the stock ids of the unverified sales; `GroupPending` builds exactly these keys, and `NoPendingIds` shows a verified-only selection has none |
| SalesAdmin.Group | sales/admin.py:26-29 | the list `setdefault` collects for one stock id: its unverified sales in selection order; `GroupPending` builds exactly these lists, and `GroupMembers` and `GroupEmpty` state what they hold |
| SalesAdmin.MissingStock | sales/admin.py:36 | some unverified sale names a stock row that does not exist, so `.get(id=stock_id)` raises; `DeductGroups` raises exactly in this case, and `VerifySale` then rolls back |
| SalesAdmin.DeductedRow | sales/admin.py:42-46 | one row after its group is handled: unchanged when oversold or not selected, otherwise lower by exactly the group's total; `DeductOne` keeps the table equal to these rows, and `VerifyQuantities` states the result |
| SalesAdmin.Deducted | sales/admin.py:33-47 | the table with every given passing group deducted; `DeductGroups` ends with it for the passing ids, which is `VerifyAll`, and `VerifyQuantities` states what it changes |
| SalesAdmin.LocalDate | sales/admin.py:75-76 | the Asia/Kolkata day of a time; `LocalDateMonotone` proves it monotone |
| SalesAdmin.LocalDateMonotone | sales/admin.py:75-76 | a later time never has an earlier Asia/Kolkata calendar day |
| SalesAdmin.Earliest | sales/admin.py:100 | `earliest('sold_on')` is the creation time of some sale and no later than any |
| SalesAdmin.Latest | sales/admin.py:101 | `latest('sold_on')` is the creation time of some sale and no earlier than any |
| SalesAdmin.ReportRange | sales/admin.py:82-105 | the two date filters are used only when both parse; with no sale and no usable filters, both ends are today |
| SalesAdmin.ReportRangeCoversSales | sales/admin.py:97-101 | without both filters, the range runs from the first to the last sale's day: it covers every sale's day, and each end is some sale's day |
| ReturnsAdmin.PurchaseReturn.constructor | purchase_returns/models.py:6-7 | a new return is unprocessed |
| ReturnsAdmin.Step | purchase_returns/admin.py:25-40 | one return only raises for a missing row or too little stock |
| ReturnsAdmin.Apply | purchase_returns/admin.py:24-40 | a run over the selection only raises for a missing row or too little stock |
| ReturnsAdmin.DeductReturns | purchase_returns/admin.py:23-40 | the loop computes exactly `Apply` of the selection: processed returns are skipped, and each other return deducts from the already-reduced row or raises |
| ReturnsAdmin.ApplyStops | purchase_returns/admin.py:32-33 | once a prefix of the selection raises, the whole run raises the same error |
| ReturnsAdmin.FlagProcessed | purchase_returns/admin.py:38-39 | every unprocessed return becomes processed; processed ones are untouched |
| ReturnsAdmin.ProcessReturn | purchase_returns/admin.py:20-48 | no privilege is checked; a raise rolls back every deduction and flag and reports that error; otherwise the table becomes `Apply`'s table, every unprocessed return is flagged, and the outcome is success when the count is positive and info when it is zero |
| ReturnsAdmin.Returned | purchase_returns/admin.py:32-35 | the total that the unprocessed returns of one stock item take back; `ApplyCommits` proves each row loses exactly this |
| ReturnsAdmin.PendingCount | purchase_returns/admin.py:25-40 | the number of unprocessed returns; `ApplyCommits` proves it is the count reported |
| ReturnsAdmin.Feasible | purchase_returns/admin.py:30-33 | every referenced row exists and holds its total; `ApplyCommits` proves the batch commits exactly when it holds |
| ReturnsAdmin.ApplyCommits | purchase_returns/admin.py:24-40 | the batch commits exactly when every referenced row exists and holds its total returned; then each row loses exactly that total and the count is the number of unprocessed returns |
| ReturnsAdmin.ReturnsNeverOversell | purchase_returns/admin.py:30-36 | on a committed batch, no row gives back more than it held, so every quantity stays at least zero |
| ReturnsAdmin.AllProcessedApply | purchase_returns/admin.py:25-26 | a selection of processed returns runs without change and counts zero |
| ReturnsAdmin.ReprocessIsNoOp | purchase_returns/admin.py:25-26 | re-running on processed returns changes nothing and reports nothing processed |
| ReturnsAdmin.SecondReturnAbortsBatch | purchase_returns/admin.py:32-33 | two returns of 3 from a row of 5: the second sees 2 left and raises, so the first deduction is rolled back too |
| Dashboard.SaleRefusal | dashboard/views.py:218-223 | a sale is refused exactly when the stock row is missing or holds less than requested, and the reason names which |
| Dashboard.CreateSale | dashboard/views.py:212-237 | a refused sale creates nothing and reports why; an accepted one creates and saves an unverified sale with its derived fields, then reports the error of reading the missing `sizes` field instead of success; the ledger is outside the frame, so no stock changes |
| Dashboard.AcceptedSaleVerifies | dashboard/views.py:221-223 | a sale the form accepts, verified on its own, passes the oversell check and takes exactly its quantity |
| Dashboard.AtMost | dashboard/views.py:71-73 | keeps every row with at most the limit on hand, as often as it occurs, and no other row |
| Dashboard.FilterByStockLevel | dashboard/views.py:69-73 | "low" keeps rows with at most 10 units, "out_of_stock" rows with none; any other value keeps every row |
| Dashboard.OutOfStockIsLow | dashboard/views.py:70-73 | the out-of-stock rows are among the low-stock rows |
| Currency.NatToString | dashboard/views.py:16 | `str(n)` is a non-empty string of decimal digits, starting with 0 only for zero |
| Currency.NatToStringValue | dashboard/views.py:16 | reading the digits of `str(n)` back gives `n` |
| Currency.IndianFormat | dashboard/views.py:16-18 | an amount of at most three digits is returned as its plain digits |
| Currency.GroupDigits | dashboard/views.py:17-23 | the grouping of a digit string; `GroupsShape`, `RemoveCommasGivesDigits` and `FormatWellSeparated` state its shape |
| Currency.ChunksFrom | dashboard/views.py:22 | the two-digit slices; `ChunksFlatten` and `ChunksSizes` state what they spell and their sizes |
| Currency.Join | dashboard/views.py:22-23 | `','.join`; `RemoveCommasJoin` and `JoinWellSeparated` state its properties |
| Currency.Groups | dashboard/views.py:20-23 | the pieces the output is made of, left to right; `FormatIsJoinedGroups` shows the output is their comma-join, and `GroupsShape` and `GroupsAreDigits` state their sizes and digits |
| Currency.FormatIsJoinedGroups | dashboard/views.py:20-23 | the output is its groups joined by commas |
| Currency.GroupsShape | dashboard/views.py:20-23 | the groups spell out the digits; the last has 3 digits, the leftmost 1 or 2, every other 2 |
| Currency.ChunksFlatten | dashboard/views.py:22 | the slices `other[max(i-2,0):i]`, read left to right, spell out `other` |
| Currency.ChunksSizes | dashboard/views.py:22 | every slice has two characters, except the leftmost, which has one or two |
| Currency.RemoveCommasJoin | dashboard/views.py:22-23 | deleting the commas from a comma-join of comma-free pieces gives their concatenation |
| Currency.JoinWellSeparated | dashboard/views.py:22-23 | a comma-join of non-empty comma-free pieces has no comma at either end and no two commas in a row |
| Currency.RemoveCommasGivesDigits | dashboard/views.py:16-23 | deleting the commas from the output gives back exactly `str(n)` |
| Currency.FormatWellSeparated | dashboard/views.py:20-23 | the output never starts or ends with a comma and never has two commas in a row |
| Currency.AmountGroups | dashboard/views.py:20-23 | for an amount, the group shape: 3 digits last, 1 or 2 leftmost, 2 in between |
| Currency.FormatExample | dashboard/views.py:15-23 | 1234567 is written 12,34,567 |
| Text.Lower | test.py:10 | lower-casing keeps the length and lower-cases each character in its place |
| Text.LowerIdempotent | test.py:10 | lower-casing twice is lower-casing once |
| Text.LowerOfUpper | test.py:10 | lower-casing after upper-casing is plain lower-casing |
| Text.StripLower | test.py:10 | stripping and lower-casing commute |
| Text.StripTrims | test.py:10 | a stripped string has no whitespace at either end |
| Text.Strip | test.py:10 | `strip`; `StripTrims` and `StripLower` state its properties |
| Text.Title | inventory/management/commands/import_stock.py:49 | `title`; `LowerOfTitle` shows lower-casing undoes it |
| Text.Contains | test.py:14 | the substring test `in`; `AnyInExists`, `KidWins` and `WomenContainsMen` build on it |
| Text.LowerOfTitle | inventory/management/commands/import_stock.py:49 | lower-casing after title-casing is plain lower-casing |
| Classifier.Key | test.py:10 | `stock_name.lower().strip()`, the only text the keyword tests see; `CaseInsensitive` and `UpperCaseSameCategory` follow from it |
| Classifier.ExtractCategory | test.py:9-55 | the category is always one of the 18 labels the function can return |
| Classifier.CategoryOf | test.py:14-55 | the keyword tests always give one of the 18 labels |
| Classifier.AnyInExists | test.py:26 | a keyword alternative (`a in name or b in name`) holds exactly when one of its keywords occurs |
| Classifier.NoMatchFallsBack | test.py:14-55 | in a decision list, when no rule matches, the fallback label is the result |
| Classifier.FirstMatchWins | test.py:14-55 | in a decision list, the first matching rule gives the label |
| Classifier.KidChain | test.py:16-29 | the "kid" branch is the decision list shoe, sandal, jean, shirt, bag, crocks/flip, else "Kid's Wear" |
| Classifier.MenChain | test.py:33-46 | the "men" branch is the decision list shoe, jean, shirt, pant/trouser, cargo, lower, else "Men's Wear" |
| Classifier.OtherChain | test.py:48-55 | the remaining branch is shoe, lofer, hitway/abros, else "Miscellaneous" |
| Classifier.CategoryFollowsRules | test.py:14-55 | the if/elif chain agrees, for every name, with the three decision lists chosen by "kid" first and "men" second |
| Classifier.CaseInsensitive | test.py:10 | two names that lower-case alike get the same category |
| Classifier.UpperCaseSameCategory | test.py:10 | upper-casing a name does not change its category |
| Classifier.KidWins | test.py:14-29 | a name containing "kid" gets a "Kid's" label, whatever else it contains |
| Classifier.MenWithoutKid | test.py:31-46 | a name containing "men" but not "kid" gets a "Men's" label |
| Classifier.NoKeywordIsMiscellaneous | test.py:48-55 | a name with none of kid, men, shoe, lofer, hitway or abros is "Miscellaneous" |
| Classifier.WomenContainsMen | test.py:31 | a name containing "women" contains "men" |
| Classifier.WomenFiledAsMen | test.py:31-46 | so a name containing "women" and no "kid" gets a "Men's" label |
| ImportStock.ExtractCategory | inventory/management/commands/import_stock.py:7-46 | the import command's classifier returns the same label as test.py's for every name |
| ImportStock.CategoryOf | inventory/management/commands/import_stock.py:9-46 | its keyword chain agrees with test.py's for every name |
| ImportStock.NormalizeName | inventory/management/commands/import_stock.py:49 | `strip().title()` of a cell; `TitleKeepsCategory` shows the title-casing does not affect the category |
| ImportStock.RowCategory | inventory/management/commands/import_stock.py:49-53 | a row's category; `RowCategoryMatchesScript` equates it with test.py's category of the stripped cell |
| ImportStock.TitleKeepsCategory | inventory/management/commands/import_stock.py:49-53 | title-casing a name before classifying it does not change its category (ASCII names) |
| ImportStock.RowCategoryMatchesScript | inventory/management/commands/import_stock.py:49-53 | a spreadsheet row gets the category that test.py gives its stripped cell text (ASCII names) |

## Left out

- Row locking (`select_for_update`) and concurrent actions. The model is sequential: every check reads the current, already-updated quantity, and a transaction is all-or-nothing. Interleavings and deadlocks are not modelled.
- Common.Round2: money is `real`, not binary `float`. `round(x, 2)` rounds half to even on the exact decimal value, so Python's float representation quirks are not modelled.
- Exceptions other than a missing stock row inside the transactions: database errors, lock timeouts, and a failing `save`. Among these is the range check on `quantity`, a `PositiveIntegerField` (inventory/models.py:17) whose column holds at most 2147483647 on most backends. `PurchaseAdmin.ReceiveAll` adds quantities without that bound, so a receive that overflows the column commits in the model but raises and rolls back in the program. Any of them rolls back just as the modelled raise does. For returns, the explicit insufficient-stock raise is modelled too.
- The text of the Django messages, the `HttpResponse` and the PDF of the sales report. An `Outcome` value stands for the kind of message.
- SalesAdmin.ReportRange: request parsing is abstracted. Each date filter arrives already read as missing, malformed, or a day number, and the clock is the parameter `now`. The local day uses Asia/Kolkata's fixed offset of UTC+5:30.
- SalesModels.Sale.Save and SalesAdmin.SaveModel take the stock's cost price as a parameter. Inside the actions, that is the committed row's cost, which the ledger model never leaves null.
- Database-level checks of the sale-creation form are not modelled: the `int()`/`float()` conversions of the posted fields, and the model's field validation. Sale deletion is not modelled either. Its message says stock is restored, but no code restores any.
- Currency.IndianFormat: modelled on natural numbers only. The `int(number)` truncation of floats is left out, and so is negative input. For negative input the code writes e.g. "-,123", and no claim is made there.
- Text.Lower: `lower`, `upper`, `strip` and `title` are modelled on ASCII letters and whitespace. The Unicode case tables are not modelled.
- The unused `parts = name.split()` in test.py is left out.
- The pandas spreadsheet loops and the ORM `create`/`get_or_create` calls of test.py and the import command are left out. They are file and database input and output.
- The `is_verified_display` column, list filters, fieldsets and other admin configuration are left out. They only control display.
- Everything else in the dashboard views: request handling, aggregate queries and pagination.

## Notes on the source

- `quantity_purchased` is a `PositiveIntegerField`, which admits 0. A group can therefore total zero units on an empty stock row. The cost-update branch then leaves the cost price unchanged, and `WeightedCost` models that branch.
- The classifier can return 18 labels: 7 "Kid's", 7 "Men's", "Shoes", "Lofer Shoes", "Sports Shoes" and "Miscellaneous".
- `process_return` has no privilege check, unlike the other two actions.
- The sales change form exposes `is_verified` (sales/admin.py:160-164). An operator can tick it without any stock deduction, and `verify_sale` then skips that sale as already verified.
- The sale form's success message reads `stock_item.sizes` (dashboard/views.py:233), but `Stock` has no such field (inventory/models.py:11-20). The lookup raises after the sale is saved. The handler catches it and shows "Error creating sale", and with no transaction the sale stays saved. `Dashboard.CreateSale` models this as written: an accepted sale is created, and the outcome is `Failed(MissingAttribute("sizes"))`.
- Other code also names fields the models do not have. The inventory view orders by `sizes` (dashboard/views.py:56) and may filter on `sizes__icontains` (:62), so its query raises `FieldError` before the stock-level filter at :69-73 has any effect. The import loops pass `sizes=""` to `Stock.objects.create` (test.py:75, inventory/management/commands/import_stock.py:63). Their `get_or_create` defaults name `icon_image` and `sizes_covered`, which `Category` lacks (test.py:67, inventory/management/commands/import_stock.py:56). Neither the filter nor the import loops can run as written. `Dashboard.FilterByStockLevel`, `Classifier.ExtractCategory` and `ImportStock.RowCategory` describe the cited lines on their own.
- The report's fallback dates come from `modeladmin.get_queryset(request)` (sales/admin.py:79), which does not apply the changelist filters, despite the comment calling it the filtered queryset. `SalesAdmin.ReportRange` is given that whole queryset.
