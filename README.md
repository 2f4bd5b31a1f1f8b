# Pakistan FBR tax engine for ERPNext invoices — a Dafny model

This project models the tax computation and aggregation engine of the
`taxcompliancepakistan` ERPNext app, and proves properties of that model.
The engine has seven parts. Each is a Dafny module:

| module | file | what it models |
|---|---|---|
| `Base` | base.dfy | `Option`, `Result` with a missing-record error, map lookup, `abs`, and Python's `int()` on a real |
| `Records` | records.dfy | the records the engine reads and writes: item tax rows, templates, items, FBR Transaction Types, the invoice header, an item row (a class whose tax fields are updated in place), and the invoice form (a class holding the `taxes` child table) |
| `Taxation` | taxation.dfy | the line-item tax calculator of the shared form script. It covers the early exits, the template-driven normal flow, the three manual overrides, the 3rd-Schedule path, the template resolution chain and the per-item template cache |
| `TaxSummary` | summary.dfy | `apply_tax_summary`. It sums the line fields and rebuilds the invoice's `taxes` table: Sales Tax and Further Tax rows, a 236G row, or re-added Purchase 236G rows. It also sets `total_taxes_and_charges` |
| `PurchaseInvoiceScript` | purchase.dfy | the older Purchase Invoice line calculator. Its template comes from the first Item Group entry, its quantity is clamped, and its further tax comes from the Purchase Taxes and Charges Template |
| `SalesInvoiceScript` | events.dfy | the Sales Invoice event handlers and the `manual_override_in_progress_sales` flag, as a state machine with an explicit `Settled` event for the 50 ms timer |
| `ServerSummary` | server.dfy | the server-side `apply_item_level_tax_summary`. It builds rows from company accounts, the Sales template's first 236G row, copied Purchase 236G rows and freight, then replaces `doc.taxes` |
| `Withholding` | withholding.dfy | withholding tax on a Payment Entry. It fills default sections, selects the rate by FBR status, computes and records each reference's WHT, sums per section, and rebuilds the Deduct rows |
| `AnnexA` | annex_a.dfy | the Annex-A purchase report: per invoice, the items grouped by HS code, one row per group |

Money and rates are `real`. Each fetch of a remote record is a lookup in a
map passed in as a parameter. On the client, a record that the map lacks
takes the callback branch for an empty response; a failed call does the
same. On the server, a missing record for `frappe.get_doc` is
`Err(MissingRecord(doctype, name))`, matching the exception the call raises.
Where the source updates objects in place, the model uses classes:
- the item row, the invoice form and the template cache;
- the payment entry and its references;
- the server-side invoice document.

Their methods are proved against reference functions over values. The
lemmas state the promised properties of those functions.

### Behaviour of the code worth knowing

These points are easy to miss when reading the code. The model follows
the code in each of them.

- **Sign.** The shared script's `getMultiplier` returns -1 for a return
  invoice and also when the row's qty is negative. It tests
  `is_return === 1` exactly (taxation.js:566-572).
- **Template rates.** Only the Sales Tax rates of the normal flow are summed
  over matching template rows. Elsewhere the last matching row wins:
  - the further-tax rate written to the row (taxation.js:1271);
  - the 3rd-Schedule rates (taxation.js:631-635, 654-664);
  - the accounts (taxation.js:53-73, 113-124);
  - the 236G rate and account read from templates (taxation.js:406-411, 535-541).
- **Missing records.** A missing record does not always zero the fields:
  - A failed Item or template fetch on the 3rd-Schedule path returns
    without writing the row (taxation.js:912-915, 949-952).
  - A failed template fetch in the normal flow writes nothing
    (taxation.js:1250-1299).
  - The server side raises on a missing Company, Sales template or Supplier.
- **236G base row in the summary.** The summary's accounts come from the
  first item whose ST or FT is strictly positive (taxation.js:706-708), not
  from the first item with any non-zero tax.
- **Unregistered early exit.** Only `custom_supplier_st_status` is read for
  it (taxation.js:1013), on sales and purchase documents alike. Further-tax
  gating reads `custom_sales_tax_status`.
- **Positive versus truthy totals.** The client adds the ST and FT rows only
  for positive totals. The server adds them for any non-zero ("truthy")
  total, so a negative total gets a row (tax_overrides.py:33, 45).
- **purchase_invoice.js.** It computes taxes on the clamped quantity
  (1 when qty ≤ 0) but the total on the raw quantity (purchase_invoice.js:83).
  It ignores `is_return`.
- **Client total.** The client's `total_taxes_and_charges` includes ST and
  FT totals that got no row for lack of an account (taxation.js:871).

## Model

| member | source | states |
|---|---|---|
| Base.Abs | taxcompliancepakistan/taxcompliancepakistan/report/annex_a/annex_a.py:90-94 | `abs(x)` is non-negative and equals `x` or `-x` |
| Base.Trunc | taxcompliancepakistan/utilities/tax_overrides.py:109 | Python `int()` on a real truncates toward zero: the result lies within one of `x`, between 0 and `x` |
| Taxation.Multiplier | taxcompliancepakistan/public/js/js_overrides/taxation.js:566-572 | the multiplier is 1 or -1, and -1 exactly when `is_return` is 1 or the row's qty is negative |
| Taxation.Max | taxcompliancepakistan/public/js/js_overrides/taxation.js:609 | the taxable base is at least both the notified value and the retail price, and is one of them |
| Taxation.FirstSalesTaxTemplate | taxcompliancepakistan/public/js/js_overrides/taxation.js:327-336 | a template found in the Item's taxes table is never empty |
| Taxation.FirstSalesTaxTemplateAt | taxcompliancepakistan/public/js/js_overrides/taxation.js:327-336 | the first Sales Tax entry that carries a template wins; earlier Sales Tax entries without one are skipped |
| Taxation.FirstSalesTaxTemplateNone | taxcompliancepakistan/public/js/js_overrides/taxation.js:327-336 | the taxes table yields nothing exactly when no Sales Tax entry carries a template |
| Taxation.ResolveTemplate | taxcompliancepakistan/public/js/js_overrides/taxation.js:299-376 | a resolved template name is never empty |
| Taxation.ResolveTemplateOrder | taxcompliancepakistan/public/js/js_overrides/taxation.js:299-376 | resolution order, first match wins: the row's template; else the first Sales Tax entry of the Item with a template; else the FBR Transaction Type of the row's (else the Item's) classification; else none. An unknown Item gives none |
| Taxation.FindSalesTaxTemplate | taxcompliancepakistan/public/js/js_overrides/taxation.js:327-336 | the loop with early return finds the first matching entry |
| Taxation.FetchItemTaxTemplate | taxcompliancepakistan/public/js/js_overrides/taxation.js:299-376 | the fetch chain returns the resolved template |
| Taxation.LastOf | taxcompliancepakistan/public/js/js_overrides/taxation.js:631-635 | a row found for a category is in the template and has that category |
| Taxation.LastOfAt | taxcompliancepakistan/public/js/js_overrides/taxation.js:631-635 | the last row of the category is the one read |
| Taxation.LastOfNone | taxcompliancepakistan/public/js/js_overrides/taxation.js:631-635 | nothing is read exactly when the template has no row of the category |
| Taxation.RateSumWithoutCategory | taxcompliancepakistan/public/js/js_overrides/taxation.js:1258-1262 | a template without Sales Tax rows gives a summed rate of 0 |
| Taxation.EarlyExits | taxcompliancepakistan/public/js/js_overrides/taxation.js:1009-1063 | Import leaves the row untouched. An Unregistered supplier or a non-sales-tax invoice zeroes every tax field and sets the total to `m × |qty| × rate` |
| Taxation.ThirdScheduleLineIdentity | taxcompliancepakistan/public/js/js_overrides/taxation.js:897-972 | on the 3rd-Schedule path a written row's total is `m × |qty| × rate + st + ft` and `at` is 0 |
| Taxation.TotalInclTaxIdentity | taxcompliancepakistan/public/js/js_overrides/taxation.js:1008-1318 | in every mode a written row has `total_incl_tax = m × base + st + ft` and `custom_at = 0` |
| Taxation.FurtherTaxGating | taxcompliancepakistan/public/js/js_overrides/taxation.js:1265-1272 | except for the further-tax-rate override, further tax is 0 unless the invoice is a Sales Invoice with Unregistered sales-tax status |
| Taxation.NormalFlow | taxcompliancepakistan/public/js/js_overrides/taxation.js:1236-1318 | without a template all fields are 0 and the total is `m × base`. With one, `st_rate` is the sum of the Sales Tax rates, `st = m × Σ rate × 0.01 × base`, further tax is gated, the total is `m × base + st + ft`, and the template is cached |
| Taxation.OverrideAmountThenRate | taxcompliancepakistan/public/js/js_overrides/taxation.js:1080-1205 | for a non-zero base, overriding the ST amount and then re-applying the derived rate gives back the same row |
| Taxation.OverrideRateThenAmount | taxcompliancepakistan/public/js/js_overrides/taxation.js:1080-1205 | for a non-zero base, overriding the ST rate and then re-applying the derived amount gives back the same row |
| Taxation.OverrideAmountWithZeroBase | taxcompliancepakistan/public/js/js_overrides/taxation.js:1084-1093 | with a zero base, the ST amount override keeps the entered amount and sets the rate to 0 |
| Taxation.ReturnNegatesSalesTax | taxcompliancepakistan/public/js/js_overrides/taxation.js:1236-1281 | turning an invoice into a return negates the computed sales tax and keeps its rate |
| Taxation.ThirdScheduleRules | taxcompliancepakistan/public/js/js_overrides/taxation.js:594-689 | the taxable base is max(notified, retail). If it is ≤ 0, all taxes are 0 and the total is `m × qty × rate`. Otherwise the ST rate is the last Sales Tax rate, `st = m × qty × base × rate / 100` when the rate is positive, further tax is gated, `ex_sales_tax_value = m × qty × base`, and the total uses `qty × rate` |
| Taxation.ThirdScheduleExample | taxcompliancepakistan/public/js/js_overrides/taxation.js:594-689 | notified 100, retail 150, qty 2, rate 120 and 18% ST on a Purchase Invoice give st 54, ex-sales-tax value 300 and total 294 |
| Taxation.NormalFlowStep | taxcompliancepakistan/public/js/js_overrides/taxation.js:1258-1272 | one template row adds its share to ST and its rate to the ST rate. A Further Sales Tax row, when further tax applies, adds its share and becomes the FT rate |
| Taxation.NormalFlowRates | taxcompliancepakistan/public/js/js_overrides/taxation.js:1256-1273 | the loop yields the summed ST rate and its share. When further tax applies, it also yields the summed FT share and the last FT rate; otherwise those are 0 |
| Taxation.FurtherTaxOnBase | taxcompliancepakistan/public/js/js_overrides/taxation.js:1108-1118 | the override loop's further tax is the gated share of the summed Further Sales Tax rates |
| Taxation.LastSalesTaxRate | taxcompliancepakistan/public/js/js_overrides/taxation.js:630-636 | the 3rd-Schedule loop reads the last Sales Tax rate |
| Taxation.ThirdScheduleFurtherTax | taxcompliancepakistan/public/js/js_overrides/taxation.js:651-665 | the 3rd-Schedule further tax uses the last gated FT rate on the taxable amount |
| Taxation.CalculateThirdScheduleTaxes | taxcompliancepakistan/public/js/js_overrides/taxation.js:594-689 | the method computes the 3rd-Schedule result |
| Taxation.ApplyThirdScheduleTaxesToRow | taxcompliancepakistan/public/js/js_overrides/taxation.js:981-1006 | the row's rates, amounts and total become the result's, `at` becomes 0, and the inputs are unchanged |
| Taxation.HandleThirdScheduleItem | taxcompliancepakistan/public/js/js_overrides/taxation.js:897-972 | the row is written exactly as the 3rd-Schedule reference says, or left alone when a fetch fails |
| Taxation.TemplateCache.constructor | taxcompliancepakistan/public/js/js_overrides/taxation.js:7-9 | the cache starts empty |
| Taxation.TemplateCache.Put | taxcompliancepakistan/public/js/js_overrides/taxation.js:16-19 | caching overwrites one key and keeps all others |
| Taxation.TemplateCache.Get | taxcompliancepakistan/public/js/js_overrides/taxation.js:26-32 | a lookup returns the cached template exactly when the key is cached |
| Taxation.ClearRow | taxcompliancepakistan/public/js/js_overrides/taxation.js:1021-1026 | every tax field becomes 0, the total is set, and the inputs are unchanged |
| Taxation.FetchOverrideFurtherTax | taxcompliancepakistan/public/js/js_overrides/taxation.js:1096-1141 | the further tax of an ST override, from the resolved template when it can be fetched |
| Taxation.OverrideSalesTax | taxcompliancepakistan/public/js/js_overrides/taxation.js:1080-1144 | the `custom_st` override writes the row as its reference says: the rate is `st / (m × base) × 100`, or 0 for a zero base |
| Taxation.OverrideSalesTaxRate | taxcompliancepakistan/public/js/js_overrides/taxation.js:1146-1205 | the `custom_st_rate` override writes `st = m × rate × 0.01 × base` and the re-fetched further tax |
| Taxation.OverrideFurtherTaxRate | taxcompliancepakistan/public/js/js_overrides/taxation.js:1207-1233 | the `custom_ft_rate` override writes `ft = m × rate × 0.01 × base` and keeps ST |
| Taxation.NormalCalculation | taxcompliancepakistan/public/js/js_overrides/taxation.js:1236-1318 | the template-driven flow writes the row and caches the fetched template under `template_<item>`, or leaves both alone when the fetch fails |
| Taxation.CalculateTaxes | taxcompliancepakistan/public/js/js_overrides/taxation.js:1008-1318 | `calculate_taxes` changes the row and the cache exactly as the line reference says for each mode and exit |
| TaxSummary.RowTotalsAppend | taxcompliancepakistan/public/js/js_overrides/taxation.js:274-297 | the three totals of a concatenation are the sums of the parts' totals |
| TaxSummary.RowTotalsRotate | taxcompliancepakistan/public/js/js_overrides/taxation.js:274-297 | moving the first row to the end leaves the totals unchanged |
| TaxSummary.FirstTaxed | taxcompliancepakistan/public/js/js_overrides/taxation.js:706-720 | the chosen row is one of the items and has positive ST or FT |
| TaxSummary.FirstTaxedNone | taxcompliancepakistan/public/js/js_overrides/taxation.js:706-717 | no row is chosen exactly when no item has positive ST or FT |
| TaxSummary.FirstTaxedAt | taxcompliancepakistan/public/js/js_overrides/taxation.js:706-720 | the first such item is chosen |
| TaxSummary.LastAccountIsLastRow | taxcompliancepakistan/public/js/js_overrides/taxation.js:53-73 | an account comes from the last template row of its category |
| TaxSummary.LastAccountWithoutCategory | taxcompliancepakistan/public/js/js_overrides/taxation.js:40-49 | a category with no row gives the empty account |
| TaxSummary.RowClassification | taxcompliancepakistan/public/js/js_overrides/taxation.js:163-215 | a classification used for the lookup is never empty |
| TaxSummary.FbrTemplate | taxcompliancepakistan/public/js/js_overrides/taxation.js:249-272 | an FBR Transaction Type yields its template exactly when it exists and names one |
| TaxSummary.AccountsIgnoreRowTemplate | taxcompliancepakistan/public/js/js_overrides/taxation.js:159-242 | the summary's accounts depend only on the classification chain, not on the row's own template |
| TaxSummary.LastCharge236G | taxcompliancepakistan/public/js/js_overrides/taxation.js:406-411 | a 236G row read from a Taxes and Charges template is one of its rows |
| TaxSummary.LastCharge236GAt | taxcompliancepakistan/public/js/js_overrides/taxation.js:406-411 | the last 236G row wins |
| TaxSummary.PreservedMembers | taxcompliancepakistan/public/js/js_overrides/taxation.js:750-766 | the preserved rows are exactly the copies of the current 236G rows |
| TaxSummary.PreservedAppend | taxcompliancepakistan/public/js/js_overrides/taxation.js:750-766 | preservation works row by row and keeps order |
| TaxSummary.PreservedIdempotent | taxcompliancepakistan/public/js/js_overrides/taxation.js:750-766 | preserving preserved rows changes nothing |
| TaxSummary.AmountSumAppend | taxcompliancepakistan/public/js/js_overrides/taxation.js:860-864 | the summed amount of re-added rows is additive |
| TaxSummary.SummaryCases | taxcompliancepakistan/public/js/js_overrides/taxation.js:700-717 | no items leaves the table unchanged. Items with no positive ST or FT clear the table. Otherwise the table is rebuilt |
| TaxSummary.ReturnInvoiceClearsTable | taxcompliancepakistan/public/js/js_overrides/taxation.js:706-717 | when every line's ST and FT are ≤ 0 (as on a return), the summary only clears the table |
| TaxSummary.RebuildTotal | taxcompliancepakistan/public/js/js_overrides/taxation.js:773-871 | the total is `st + ft + advance`. It equals the rows' amounts plus every total that got no row |
| TaxSummary.AdvanceRowsAmount | taxcompliancepakistan/public/js/js_overrides/taxation.js:815-867 | when advance rows are added, their amounts sum to the advance tax |
| TaxSummary.SummaryRowsNotPreserved | taxcompliancepakistan/public/js/js_overrides/taxation.js:773-812 | the ST and FT summary rows are never taken for 236G rows |
| TaxSummary.RebuildIdempotent | taxcompliancepakistan/public/js/js_overrides/taxation.js:743-886 | rebuilding from a rebuilt table gives the same table and total |
| TaxSummary.TaxSummaryIdempotent | taxcompliancepakistan/public/js/js_overrides/taxation.js:691-886 | with unchanged lines and templates, re-running the summary reproduces its result |
| TaxSummary.SalesInvoiceTable | taxcompliancepakistan/public/js/js_overrides/taxation.js:769-837 | on a Sales Invoice the old table is ignored and there are at most three rows. ST, FT and 236G rows appear exactly when their amount is positive and their account is set. The total is `st + ft + rate × 0.01 × inclusive` |
| TaxSummary.RebuildTaxRows | taxcompliancepakistan/public/js/js_overrides/taxation.js:773-812 | for any doctype, the table opens with the ST row exactly when the ST total is positive and has an account, then the FT row under the same rule; each carries its total. Every later row is a 236G row. The total counts both tax totals whether or not they got a row |
| TaxSummary.AdvanceRowsAre236G | taxcompliancepakistan/public/js/js_overrides/taxation.js:814-871 | every advance row of any doctype is a 236G row |
| TaxSummary.PurchaseInvoice236G | taxcompliancepakistan/public/js/js_overrides/taxation.js:838-871 | on a Purchase Invoice with a template rate and account, the only 236G row is the computed one. Otherwise the 236G rows are exactly the re-added earlier ones, and their sum enters the total. Never both |
| TaxSummary.CalculateRowTaxTotals | taxcompliancepakistan/public/js/js_overrides/taxation.js:274-297 | the loop computes the three totals |
| TaxSummary.FindFirstTaxed | taxcompliancepakistan/public/js/js_overrides/taxation.js:706-720 | the filter picks the first taxed item |
| TaxSummary.ExtractAccounts | taxcompliancepakistan/public/js/js_overrides/taxation.js:39-77 | the loop extracts the per-category accounts |
| TaxSummary.ExtractAccountsFromTemplate | taxcompliancepakistan/public/js/js_overrides/taxation.js:84-146 | the accounts of a fetched Item Tax Template, or empty accounts |
| TaxSummary.FetchRowFbrTemplate | taxcompliancepakistan/public/js/js_overrides/taxation.js:159-242 | the template named by the row's classification chain |
| TaxSummary.GetTaxAccountsForRow | taxcompliancepakistan/public/js/js_overrides/taxation.js:159-242 | the accounts of that template, or empty accounts |
| TaxSummary.ExtractAdvanceTaxFromTemplate | taxcompliancepakistan/public/js/js_overrides/taxation.js:521-563 | the last 236G rate and account of an Item Tax Template, or 0 and "" |
| TaxSummary.GetAdvanceTaxForRow | taxcompliancepakistan/public/js/js_overrides/taxation.js:440-513 | the 236G rate and account through the classification chain |
| TaxSummary.GetAdvanceTaxFromTemplate | taxcompliancepakistan/public/js/js_overrides/taxation.js:379-432 | the last 236G rate and account of the Sales or Purchase Taxes and Charges template |
| TaxSummary.PreserveRows | taxcompliancepakistan/public/js/js_overrides/taxation.js:750-766 | the loop collects the 236G rows of a Purchase Invoice |
| TaxSummary.RestoreRows | taxcompliancepakistan/public/js/js_overrides/taxation.js:858-866 | the preserved rows are appended and their amounts summed |
| TaxSummary.AddAdvanceRows | taxcompliancepakistan/public/js/js_overrides/taxation.js:815-867 | the 236G step appends the advance rows and returns the advance tax |
| TaxSummary.PerformTaxSummaryUpdate | taxcompliancepakistan/public/js/js_overrides/taxation.js:743-886 | the table and total become the rebuilt ones |
| TaxSummary.SummaryInputs | taxcompliancepakistan/public/js/js_overrides/taxation.js:720-746 | the accounts come from the cached template when there is one, else from the classification chain; the 236G data from the chain |
| TaxSummary.ApplyTaxSummary | taxcompliancepakistan/public/js/js_overrides/taxation.js:691-886 | `apply_tax_summary` leaves, clears or rebuilds the table (and sets the total) exactly as the reference summary says |
| TaxSummary.RecalculateRow | taxcompliancepakistan/public/js/js_overrides/taxation.js:1290-1297 | the row changes as the line reference says, and the cache gains the template the calculator fetched. When the row is written, the summary then runs on the updated lines and the updated cache, and it can only clear or rebuild the table. When it is not written, the row, cache, table and total stay as they were |
| PurchaseInvoiceScript.ReturnMultiplier | taxcompliancepakistan/public/js/js_overrides/purchase_invoice.js:30-38 | -1 exactly on a return invoice, else 1 |
| PurchaseInvoiceScript.GroupTemplate | taxcompliancepakistan/public/js/js_overrides/purchase_invoice.js:105-143 | the row's template first; otherwise only the first Item Group entry's template, never empty |
| PurchaseInvoiceScript.TaxQty | taxcompliancepakistan/public/js/js_overrides/purchase_invoice.js:42-45 | the taxed quantity is the qty when it is positive, else 1 |
| PurchaseInvoiceScript.SalesTaxIsSummedRate | taxcompliancepakistan/public/js/js_overrides/purchase_invoice.js:169-175 | summing each Sales Tax row's share equals taking the summed rate's share |
| PurchaseInvoiceScript.FurtherTaxIsSummedRate | taxcompliancepakistan/public/js/js_overrides/purchase_invoice.js:65-76 | summing each Further Sales Tax row's share equals the summed rate's share; 236G rows add nothing |
| PurchaseInvoiceScript.PurchaseRowTaxesMeaning | taxcompliancepakistan/public/js/js_overrides/purchase_invoice.js:41-185 | a written row has the ST rate summed from the template (or 0), ST and FT as the summed rates' shares of the clamped base, `at = 0`, and total `qty × rate + st + ft` on the raw qty |
| PurchaseInvoiceScript.PurchaseRowWrittenWhen | taxcompliancepakistan/public/js/js_overrides/purchase_invoice.js:41-185 | the row is written exactly when the invoice is not Import, the Purchase template is named and found, and any resolved item template is found |
| PurchaseInvoiceScript.ReturnIgnored | taxcompliancepakistan/public/js/js_overrides/purchase_invoice.js:146-185 | the result does not depend on `is_return` |
| PurchaseInvoiceScript.NonPositiveQtyTaxedAsOne | taxcompliancepakistan/public/js/js_overrides/purchase_invoice.js:41-185 | with qty ≤ 0 the taxes are those of qty 1, while the total still uses the raw qty |
| PurchaseInvoiceScript.SalesTaxFromTemplate | taxcompliancepakistan/public/js/js_overrides/purchase_invoice.js:169-175 | the loop computes the ST sum and the summed rate |
| PurchaseInvoiceScript.FurtherTaxFromTemplate | taxcompliancepakistan/public/js/js_overrides/purchase_invoice.js:65-76 | the loop computes the FT sum |
| PurchaseInvoiceScript.FetchGroupTemplate | taxcompliancepakistan/public/js/js_overrides/purchase_invoice.js:105-143 | the fetch returns the Item Group template |
| PurchaseInvoiceScript.CalculateAdditionalTaxes | taxcompliancepakistan/public/js/js_overrides/purchase_invoice.js:41-103 | without a Purchase template (or when its fetch fails) the row is unchanged; otherwise its tax fields are written as the reference says and the FT rate is kept |
| PurchaseInvoiceScript.CalculateTaxes | taxcompliancepakistan/public/js/js_overrides/purchase_invoice.js:146-185 | the row changes exactly as the purchase-row reference says; Import leaves it unchanged |
| SalesInvoiceScript.Step | taxcompliancepakistan/public/js/js_overrides/sales_invoice.js:7-70 | an override edit always sets the flag and recalculates in its mode. A guarded edit is ignored exactly when the flag is set, else recalculates with no override. The template change always summarises. The timer clears the flag |
| SalesInvoiceScript.Run | taxcompliancepakistan/public/js/js_overrides/sales_invoice.js:9-70 | one dispatch per event |
| SalesInvoiceScript.RunAppend | taxcompliancepakistan/public/js/js_overrides/sales_invoice.js:9-70 | handling two event sequences in turn is handling their concatenation |
| SalesInvoiceScript.SuppressedWhileFlagSet | taxcompliancepakistan/public/js/js_overrides/sales_invoice.js:11-33 | while the flag is set and the timer does not fire, the flag stays set and every guarded handler does nothing |
| SalesInvoiceScript.IdleRecalculates | taxcompliancepakistan/public/js/js_overrides/sales_invoice.js:11-33 | with the flag clear, guarded edits each call `calculate_taxes` with no override field |
| SalesInvoiceScript.OverrideSuppressesUntilSettled | taxcompliancepakistan/public/js/js_overrides/sales_invoice.js:35-63 | after an override edit, whatever the earlier flag, no guarded edit recalculates until the timer fires |
| SalesInvoiceScript.SettleRestoresRecalculation | taxcompliancepakistan/public/js/js_overrides/sales_invoice.js:44-47 | after the timer fires, the next guarded edit recalculates |
| SalesInvoiceScript.OverrideGuard.constructor | taxcompliancepakistan/public/js/js_overrides/sales_invoice.js:7 | the flag starts clear |
| SalesInvoiceScript.OverrideGuard.Handle | taxcompliancepakistan/public/js/js_overrides/sales_invoice.js:9-70 | the flag follows `Step`. An ignored event changes nothing. A recalculation writes the row and the cache as the line reference says, then clears or rebuilds the table from the updated lines; when the row is left alone, the cache, table and total are too. A template change leaves the row and cache alone and applies the summary; when the summary leaves the table or only clears it, the total is kept |
| ServerSummary.Multiplier | taxcompliancepakistan/utilities/tax_overrides.py:15 | -1 exactly when `is_return` is truthy, else 1 |
| ServerSummary.OrDefault | taxcompliancepakistan/utilities/tax_overrides.py:96-98 | `x or d`: a non-empty value is kept and an empty one takes the default. A copied 236G row gets this for its cost center, `category` ("Total") and `add_deduct_tax` ("Add") |
| ServerSummary.SumItemsAppend | taxcompliancepakistan/utilities/tax_overrides.py:12-20 | the three sums are additive over the items |
| ServerSummary.FirstAdvanceRow | taxcompliancepakistan/utilities/tax_overrides.py:65-69 | none exactly when the template has no 236G row; a found row is a 236G row of the template |
| ServerSummary.FirstAdvanceRowAt | taxcompliancepakistan/utilities/tax_overrides.py:65-69 | the first 236G row wins (`break`) |
| ServerSummary.AdvanceRowFor | taxcompliancepakistan/utilities/tax_overrides.py:71-83 | at most one row. There is a row exactly when the rate and account are set. Its amount is `m × rate × 0.01 × inclusive` on the template's account |
| ServerSummary.CopyRow | taxcompliancepakistan/utilities/tax_overrides.py:89-100 | copying keeps a row's 236G category |
| ServerSummary.SummaryFails | taxcompliancepakistan/utilities/tax_overrides.py:23-64 | the summary fails exactly when the Company, or the named Sales template of a Sales Invoice, is missing |
| ServerSummary.CopiedAdvanceRowsMembers | taxcompliancepakistan/utilities/tax_overrides.py:86-100 | the copied rows are exactly the copies, with defaults filled in, of the current 236G rows |
| ServerSummary.CopiedAdvanceRowsAppend | taxcompliancepakistan/utilities/tax_overrides.py:86-100 | copying works row by row and keeps order |
| ServerSummary.CopiedAdvanceRowsNone | taxcompliancepakistan/utilities/tax_overrides.py:86-100 | a table without 236G rows copies nothing |
| ServerSummary.CopiedAdvanceRowsIdempotent | taxcompliancepakistan/utilities/tax_overrides.py:86-100 | copying copied rows changes nothing |
| ServerSummary.FreightTruncated | taxcompliancepakistan/utilities/tax_overrides.py:103-126 | a freight row's amount is the `int()` of the freight amount, non-negative and within 1 below it |
| ServerSummary.FreightRowRule | taxcompliancepakistan/utilities/tax_overrides.py:103-126 | at most one freight row. On a Sales Invoice it is present exactly when the rule is "Paid By Customer", the amount is positive and the freight account is set. On a Purchase Invoice it is present exactly when the amount is positive and the freight-on-purchase account is set. No other doctype gets one. The row has category Freight, that account and the company cost center |
| ServerSummary.SummaryShape | taxcompliancepakistan/utilities/tax_overrides.py:31-126 | the list starts with the ST/FT rows; every later row is a 236G or freight row |
| ServerSummary.SummaryOrder | taxcompliancepakistan/utilities/tax_overrides.py:31-126 | the rows come in this order: the ST row, the FT row, the 236G rows, then the freight row last. The 236G rows are at most one from the Sales template, or the Purchase Invoice's copied 236G rows in their order. No row before the last is a freight row |
| ServerSummary.ItemTaxRowsOrder | taxcompliancepakistan/utilities/tax_overrides.py:33-55 | at most two rows: an ST row, then an FT row |
| ServerSummary.SalesAdvanceRowsShape | taxcompliancepakistan/utilities/tax_overrides.py:62-83 | the Sales template adds at most one row, a 236G row; other doctypes get none from it |
| ServerSummary.MiddleRowsShape | taxcompliancepakistan/utilities/tax_overrides.py:62-100 | the rows between the FT row and the freight row are 236G rows: on a Purchase Invoice exactly the copied rows, otherwise at most one |
| ServerSummary.CopiedAdvanceRowsAreAdvance | taxcompliancepakistan/utilities/tax_overrides.py:86-100 | every copied row is a 236G row |
| ServerSummary.SalesTaxRowRule | taxcompliancepakistan/utilities/tax_overrides.py:33-43 | an ST row exists exactly when the ST total is non-zero and the VAT account is set. It is first and carries `multiplier × total` |
| ServerSummary.FurtherTaxRowRule | taxcompliancepakistan/utilities/tax_overrides.py:45-55 | an FT row exists exactly when the FT total is non-zero and the account is set. It carries `multiplier × total` |
| ServerSummary.SalesAdvanceFromFirstRow | taxcompliancepakistan/utilities/tax_overrides.py:62-83 | a Sales Invoice's 236G rows come from the template's first 236G row |
| ServerSummary.SalesAdvanceWithoutRow | taxcompliancepakistan/utilities/tax_overrides.py:62-83 | a template without a 236G row adds no 236G row |
| ServerSummary.SalesInvoiceIgnoresTable | taxcompliancepakistan/utilities/tax_overrides.py:86-100 | a Sales Invoice's result does not depend on its current table |
| ServerSummary.SummaryIdempotent | taxcompliancepakistan/utilities/tax_overrides.py:6-133 | re-running on the replaced table reproduces it |
| ServerSummary.SumItemFields | taxcompliancepakistan/utilities/tax_overrides.py:12-20 | the loop computes the sums |
| ServerSummary.FindAdvanceRow | taxcompliancepakistan/utilities/tax_overrides.py:65-69 | the loop with `break` reads the first 236G row's rate and account, or 0 and "" |
| ServerSummary.CopyAdvanceRows | taxcompliancepakistan/utilities/tax_overrides.py:86-100 | the loop copies the 236G rows |
| ServerSummary.BuildSummary | taxcompliancepakistan/utilities/tax_overrides.py:6-127 | the method builds the summary list or reports the missing record |
| ServerSummary.ApplyItemLevelTaxSummary | taxcompliancepakistan/utilities/tax_overrides.py:128-133 | `doc.taxes` becomes exactly the returned list; on a missing record it is unchanged |
| Withholding.FillSection | taxcompliancepakistan/utilities/wht_overrides.py:19-25 | only a Purchase Invoice reference with no section gets the non-empty default |
| Withholding.FillSections | taxcompliancepakistan/utilities/wht_overrides.py:19-25 | each reference is filled in place, and the count and order of references are kept |
| Withholding.SectionsMap | taxcompliancepakistan/utilities/wht_overrides.py:57-70 | keys are exactly the fetched sections named on PI/SI references; with no names the map is empty |
| Withholding.ApplicableRate | taxcompliancepakistan/utilities/wht_overrides.py:72-77 | the active rate for "Active", the inactive rate for "InActive", else 0 |
| Withholding.RefWht | taxcompliancepakistan/utilities/wht_overrides.py:30-49 | a reference withholds exactly when it is a PI/SI reference with a known section and a non-zero rate. The amount is `allocated × rate / 100` |
| Withholding.AccumulateKeys | taxcompliancepakistan/utilities/wht_overrides.py:53 | `+=` on the dictionary: the keys become the old keys plus the new one; a new key is added last; distinct keys stay distinct |
| Withholding.AccumulateInPlace | taxcompliancepakistan/utilities/wht_overrides.py:53 | `+=` never moves a key: every entry keeps its key in its place, and the dictionary grows by one entry exactly when the key is new |
| Withholding.AccumulateValue | taxcompliancepakistan/utilities/wht_overrides.py:53 | `+=` adds the amount to its key's value and leaves the others alone |
| Withholding.SummaryMeaning | taxcompliancepakistan/utilities/wht_overrides.py:28-53 | the summary has one distinct key per section some reference withholds in. Each value is the sum of that section's WHT |
| Withholding.SummaryFirstOccurrence | taxcompliancepakistan/utilities/wht_overrides.py:28-53 | the summary's keys, in order, are the withholding sections in the order each first occurs among the references |
| Withholding.WhtRowsComplete | taxcompliancepakistan/utilities/wht_overrides.py:79-94 | with every section known, one row per summary entry, in order |
| Withholding.OneRowPerSection | taxcompliancepakistan/utilities/wht_overrides.py:28-94 | one Actual/Deduct row per withholding section, for those sections alone. Its description is the section, its amount `int()` of the section total, and its account the receivable head for Pay, else the account head |
| Withholding.PartyFilter | taxcompliancepakistan/utilities/wht_overrides.py:11-12 | only Supplier and Customer payments are processed |
| Withholding.NothingWithheld | taxcompliancepakistan/utilities/wht_overrides.py:43-47 | with an FBR status other than Active/InActive the rebuilt table is empty |
| Withholding.FillDefaultSections | taxcompliancepakistan/utilities/wht_overrides.py:19-25 | the loop fills each reference's section in place and touches nothing else |
| Withholding.ReferenceWht | taxcompliancepakistan/utilities/wht_overrides.py:31-53 | one reference: its WHT amount and rate are recorded, and the summary accumulated, exactly when it withholds |
| Withholding.ComputeReferenceWht | taxcompliancepakistan/utilities/wht_overrides.py:30-53 | the loop records each reference's WHT and returns the reference summary; sections are untouched |
| Withholding.UpdateTaxes | taxcompliancepakistan/utilities/wht_overrides.py:79-94 | the table is cleared and rebuilt with one row per known summary section |
| Withholding.ApplyWithholding | taxcompliancepakistan/utilities/wht_overrides.py:19-55 | once the default is known, the references and table end as the reference functions say |
| Withholding.CalculateWithholdingTax | taxcompliancepakistan/utilities/wht_overrides.py:5-55 | other parties leave the entry unchanged, and a missing Supplier is reported with nothing changed: the table and every reference field (section, WHT amount, WHT rate) keep their values. Otherwise sections are filled, WHT recorded and the table rebuilt |
| AnnexA.GroupedMeaning | taxcompliancepakistan/taxcompliancepakistan/report/annex_a/annex_a.py:56-68 | one group per distinct HS code (None included), each listed once. A group's four sums are the sums over its items |
| AnnexA.OrderCodes | taxcompliancepakistan/taxcompliancepakistan/report/annex_a/annex_a.py:56-68 | the group order lists exactly the HS codes that occur among the items |
| AnnexA.GroupAttributesFirstSeen | taxcompliancepakistan/taxcompliancepakistan/report/annex_a/annex_a.py:59-63 | a group's rate, UOM and classification are those of the first item with its code |
| AnnexA.GroupOrderFirstSeen | taxcompliancepakistan/taxcompliancepakistan/report/annex_a/annex_a.py:70 | groups come out in the order their codes first occur |
| AnnexA.SupplierTaxId | taxcompliancepakistan/taxcompliancepakistan/report/annex_a/annex_a.py:49 | registered suppliers by tax id, others by CNIC |
| AnnexA.DocType | taxcompliancepakistan/taxcompliancepakistan/report/annex_a/annex_a.py:77 | "Debit Note" exactly when `is_return == 1`, else "Purchase Invoice" |
| AnnexA.HsDescription | taxcompliancepakistan/taxcompliancepakistan/report/annex_a/annex_a.py:71-76 | "Missing HS Code" for a None code, `tariff: description` for a fetched one, a missing-record error otherwise |
| AnnexA.GroupRowsMeaning | taxcompliancepakistan/taxcompliancepakistan/report/annex_a/annex_a.py:70-95 | rows are produced exactly when every code's description can be produced, then one row per group in order |
| AnnexA.InvoiceRowsCodes | taxcompliancepakistan/taxcompliancepakistan/report/annex_a/annex_a.py:56-95 | an invoice yields one row per distinct HS code among its items |
| AnnexA.InvoiceRowsColumns | taxcompliancepakistan/taxcompliancepakistan/report/annex_a/annex_a.py:77-94 | each row has the invoice's document type and name. Its qty, amount, further tax and ST are absolute values of its group's sums. A None code gives "Missing HS Code" |
| AnnexA.ReportMeaning | taxcompliancepakistan/taxcompliancepakistan/report/annex_a/annex_a.py:42-97 | the report succeeds exactly when every invoice's rows can be built |
| AnnexA.ReportAppend | taxcompliancepakistan/taxcompliancepakistan/report/annex_a/annex_a.py:42-97 | reporting two batches of invoices at once succeeds exactly when both batches do, and lists the first batch's rows before the second's |
| AnnexA.GroupItems | taxcompliancepakistan/taxcompliancepakistan/report/annex_a/annex_a.py:56-68 | the in-place `grouped_items` loop builds the reference grouping |
| AnnexA.EmitRows | taxcompliancepakistan/taxcompliancepakistan/report/annex_a/annex_a.py:70-95 | the output loop builds one invoice's group rows or stops at the first missing tariff |
| AnnexA.InvoiceReport | taxcompliancepakistan/taxcompliancepakistan/report/annex_a/annex_a.py:46-95 | one invoice's rows, or the missing Supplier, Address or tariff |
| AnnexA.Execute | taxcompliancepakistan/taxcompliancepakistan/report/annex_a/annex_a.py:36-97 | the invoice loop builds the report or stops at the first missing record |

## Left out

- `flt(x, precision)` rounding: the model computes exactly on reals. Every amount and every round trip holds before rounding.
- Floating point: JavaScript and Python float behaviour is not modelled.
- Asynchronous sequencing: `frappe.call` callbacks and `setTimeout(…, 50)` run as sequential calls. Races between overlapping callbacks are not modelled. The timer that clears the override flag is the `Settled` event.
- Remote fetches are map lookups. A failed call (the `error:` callbacks) is treated like a record not found. The data does not change between fetches.
- UI side effects: `frm.refresh_field`, `frm.dirty`, `frappe.msgprint` and `console.*` logging.
- Load order: purchase_invoice.js and taxation.js both define global `calculate_taxes`, `fetch_item_tax_template` and `getMultiplier`. They are two separate modules here, and which definition a page ends up with is not modelled.
- The Purchase Invoice Item handlers (purchase_invoice.js:5-28) only call `calculate_taxes`. They are covered by `PurchaseInvoiceScript.CalculateTaxes` and have no state of their own.
- `get_advance_tax_from_template` (taxation.js:379-432) and the purchase script's `getMultiplier` are never called in the source. They are modelled anyway as `TaxSummary.GetAdvanceTaxFromTemplate` and `PurchaseInvoiceScript.ReturnMultiplier`.
- The server hooks `sales_invoice_on_update`, `purchase_invoice_on_update` and `on_payment_entry_update`: they only call the modelled functions and then the ERPNext methods `calculate_taxes_and_totals` and `calculate_taxes`, which are not part of this model.
- `payment_entry_build_gl_map` is left out: it wraps ERPNext ledger methods that are not part of this model.
- Files with no logic to model: hooks.py (configuration), app_install_hooks.py (an SQL insert), wht_exemption.js (a UI query filter), and annex_c.py (a per-item projection of lookups).
- annex_a.py's column definitions and database query filters are left out, and so is its company address query. The selected invoices and the company province are inputs. The report's other columns are copied fields.
- Taxation.NormalFlow: states further tax only through its gate. The exact further-tax sum and last rate are stated by `Taxation.NormalFlowRates`.
- Taxation.ThirdScheduleRules: states further tax only through its gate. The exact value is stated by `Taxation.ThirdScheduleFurtherTax`.
- Withholding.CalculateWithholdingTax: requires that the references table lists each row object once. A child table always does, so this excludes no real input.
- Withholding.NothingWithheld: covers an unknown FBR status only. References without sections are covered by `Withholding.OneRowPerSection`.
