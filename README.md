# GST invoice calculation — a Dafny model

A model of the calculation core of a browser GST (Goods and Services Tax) invoice
editor for Indian businesses. The page keeps a list of line items (id, description,
HSN code, quantity, unit price, GST rate) together with a seller and a buyer. Three
handlers edit the list: change one field of an item, add a blank item, remove an
item (never the last one). On every change the invoice is recomputed:

- the invoice is inter-state when the seller's and the buyer's state differ;
- each item's taxable value is quantity × price and its tax is taxable value × rate / 100,
  where a quantity, price or rate that is not a number counts as 0 (`Number(x) || 0`);
- inter-state tax goes wholly to IGST; intra-state tax is split into equal CGST and SGST halves;
- the invoice totals are running sums over the items, and the grand total is the
  taxable total plus all tax.

Files:

- `form_values.dfy` (module `FormValues`): a numeric form value and the coercion to 0.
- `sums.dfy` (module `Sums`): a left-to-right sum of a measure over a sequence, with the
  append, pointwise, additivity, zero and sign lemmas the engine's proofs use.
- `line_items.dfy` (module `LineItems`): `Item`, the field edits, the pure list transforms
  behind the handlers (`UpdateItems`, `Without`, `AfterRemove`) and their lemmas, and the
  class `ItemList` whose `items` field each handler method replaces.
- `tax_engine.dfy` (module `TaxEngine`): parties and the jurisdiction test, per-item
  processing, the specification `Calculate`, the loop `ComputeCalculations` that
  accumulates the totals as the page does, and the lemmas about the totals.

Amounts are exact `real` numbers. The page computes in double-precision floating point
and formats to two decimals only for display; nothing in the calculation depends on
floating-point rounding.

## Model

| member | source | states |
|---|---|---|
| `FormValues.Coerce` | app/page.tsx:73-74 | a value that is not a number becomes 0; a number is used as it is |
| `LineItems.ApplyEdit` | app/page.tsx:50 | the spread update sets exactly the chosen field to the new value; the id and every other field keep their old values |
| `LineItems.UpdateItems` | app/page.tsx:49-51 | the edited list has the same length and order; every item with the given id gets the edit, every other item is unchanged |
| `LineItems.Without` | app/page.tsx:59 | the filter never lengthens the list |
| `LineItems.WithoutMembers` | app/page.tsx:59 | an item survives the filter exactly when it was in the list and its id differs from the removed one |
| `LineItems.WithoutConcat` | app/page.tsx:59 | the filter distributes over concatenation, so the kept items stay in their original order |
| `LineItems.WithoutAbsent` | app/page.tsx:59 | removing an id that no item carries leaves the list unchanged |
| `LineItems.WithoutUnique` | app/page.tsx:57-61 | with unique ids, removing the id of the item at index k removes exactly that item and keeps the rest in order |
| `LineItems.WithoutKeepsUnique` | app/page.tsx:59 | removal keeps ids unique |
| `LineItems.RemoveNeverEmpties` | app/page.tsx:57-61 | with unique ids, removal drops at most one item and never empties a non-empty list |
| `LineItems.DuplicateIdsEmptyTheList` | app/page.tsx:57-61 | without unique ids the length guard is not enough: two rows sharing an id are both removed, leaving no rows |
| `LineItems.ItemList.constructor` | app/page.tsx:42-45 | the page starts with the two example items, whose ids are unique |
| `LineItems.ItemList.HandleItemChange` | app/page.tsx:49-51 | the new list is the edited list: same length, same ids in the same order, unique ids preserved |
| `LineItems.ItemList.AddItem` | app/page.tsx:53-55 | exactly one blank item (empty description and HSN, quantity 1, price 0, rate 18) is appended; existing items are unchanged; a fresh id keeps ids unique |
| `LineItems.ItemList.RemoveItem` | app/page.tsx:57-61 | with one item or none the list is unchanged; otherwise the items with other ids remain, in order; unique ids are preserved and a non-empty list stays non-empty |
| `TaxEngine.IsInterState` | app/page.tsx:64 | inter-state exactly when the two state strings differ; two empty states count as intra-state |
| `TaxEngine.ProcessItem` | app/page.tsx:72-97 | the processed item keeps the original item; taxable value is coerced quantity × coerced price; CGST + SGST + IGST is the tax at the coerced rate; inter-state puts all tax in IGST, intra-state splits it into equal CGST and SGST; the item total is taxable value plus tax |
| `TaxEngine.Calculate` | app/page.tsx:66-111 | one processed item per input item, in order, each keeping its original fields; grand total = taxable total + total tax |
| `TaxEngine.ComputeCalculations` | app/page.tsx:66-111 | the single pass with running accumulators produces exactly the specified calculation: processed items and each total as a sum over them |
| `TaxEngine.JurisdictionTotals` | app/page.tsx:76-86 | inter-state invoices have zero CGST and SGST totals and all tax in IGST; intra-state invoices have zero IGST and equal CGST and SGST totals |
| `TaxEngine.TotalsFromItems` | app/page.tsx:72-108 | the taxable total is the sum of quantity × price over the items, the total tax is the sum of the per-item taxes, and the grand total is the sum of the item totals |
| `TaxEngine.GrandTotalIndependentOfJurisdiction` | app/page.tsx:76-108 | the jurisdiction only moves tax between IGST and CGST/SGST: taxable total, total tax and grand total are the same either way |
| `TaxEngine.NonNegativeAmounts` | app/page.tsx:73-100 | with non-negative quantities, prices and rates, every per-item amount and every total is non-negative and the grand total is at least the taxable total |
| `TaxEngine.AddItemKeepsTotals` | app/page.tsx:54 | appending the blank item adds one processed item at the end and changes no total |
| `TaxEngine.TextEditKeepsItemAmounts` | app/page.tsx:50 | editing the description or HSN of an item changes none of its computed amounts |
| `TaxEngine.TextEditKeepsTotals` | app/page.tsx:49-51 | editing a description or HSN leaves every processed amount and every total unchanged |
| `TaxEngine.InitialInvoice` | app/page.tsx:20-45 | the starting page (Maharashtra seller, Karnataka buyer, items of 50000 and 15000 at 18%) is inter-state with taxable 65000, IGST 11700, no CGST or SGST, grand total 76700 |
| `TaxEngine.IntraStateExample` | app/page.tsx:76-86 | within one state, 10 × 7 at 18% and 6 × 130 at 5% split into 6.3 + 6.3 and 19.5 + 19.5, with taxable 850, tax 51.6 and grand total 901.6 |

## Left out

- Rendering, styling, the tab switch, and the lists of states and GST rates offered by the form (app/page.tsx:6-17): presentation only. Rates are not restricted to 0, 5, 12, 18 and 28, as the calculation itself does not restrict them.
- Text-to-number parsing: a numeric input's value is represented by what `Number` makes of it (`Numeric(x)` or `NotANumber`); the parsing of the typed text is not modelled, and `Infinity` is not representable.
- Field names other than the five the edit table passes (description, hsn, qty, price, gstRate): the handler would also accept any other key, but no caller uses one.
- Id generation with `Date.now()` (app/page.tsx:54): the new id is a parameter of `AddItem`; that it is fresh is an assumption, not something the page guarantees.
- React state and memoisation: a handler's result replaces the `items` field, and the calculation is recomputed from the current items and jurisdiction.
- The seller, buyer and invoice-metadata edit handlers and the invoice date (`new Date()`, `toLocaleDateString`): host and locale calls with no computation on them.
- `window.print()` (app/page.tsx:114): a host side effect.
- `toFixed(2)` display formatting and floating-point rounding: amounts are exact reals.
- Heading rows, a discount, rounding of the grand total with a round-off line, conversion of the total to words, and a variant that always splits into CGST and SGST: none of these appear in app/page.tsx, which this model follows; the other page variants of the application are not part of this model.
