# eBay research dashboard — a Dafny model of its calculation core

This project models the logic behind a small dashboard for researching
eBay products, and proves properties of that model:

- the **pricing calculator**: the markup and fee formula, its rounding to
  cents, the bar-chart widths, and the saved-scenario list with its
  "editing" selection;
- the **portfolio statistics** over the product list;
- the **dashboard list pipeline**: title search, sort by units sold or by
  creation time, and the CSV export;
- the **edit-product form**: its initial values, the change handler that
  derives the USD cost from the MYR cost and the exchange rate, and the
  record the save sends.

JavaScript values are modelled in module `Js`. A number field is a
`JsNumber`: a real number, `null`, `undefined` or `NaN`, with JavaScript's
coercions (`null` counts as 0 in arithmetic, `undefined` and `NaN` give
`NaN`) and its truthiness (only a non-zero number is truthy). `toFixed(2)`
is `Round2`, which rounds halves away from zero on exact reals. Reading
text as a number (`parseFloat`, `parseInt`) and writing a number as text
are parameters of the functions that need them.

Files:

- `js.dfy`: JavaScript values and rounding.
- `pricing.dfy`: `calculatePricing`, `defaultValues` and the bar-chart
  width rule.
- `scenarios.dfy`: the calculator's state and handlers. They are given
  twice. First as functions on a `Session` value, where the lemmas live.
  Then as class `PricingCalculator`, whose fields the handler methods
  update and whose every method is proved to follow the matching function.
- `products.dfy`: the product record.
- `stats.dfy`: the statistics folds.
- `dashboard.dfy`: the filter and the in-place sort.
- `csv_export.dfy`: the CSV text.
- `edit_form.dfy`: the edit form.

Where the code and its design description differ, the model follows the
code:

- `calculatePricing` does not reject a zero conversion rate. The model
  requires a non-zero rate rather than inventing an error result.
- The bar chart does not guard against a zero maximum. The model requires
  a non-zero maximum.
- The statistics compute profit as `(price − (cost_price || 0)) × (sold || 0)`.
  They use no MYR or exchange-rate conversion, subtract no postage and
  compute no margin.

## Model

| member | source | states |
|---|---|---|
| Pricing.Compute | components/PricingCalculator.jsx:12-19 | total MYR cost is product cost plus shipping; USD cost times the rate is the MYR cost; suggested price is USD cost × (1 + markup%/100); markup is markup% of the USD cost; each fee is its own percent of the suggested price; net profit is markup minus both fees, and equals USD cost × (markup%/100 − (1 + markup%/100)(eBay% + ad%)/100) |
| Pricing.CalculatePricing | components/PricingCalculator.jsx:12-29 | the returned MYR total is exact; every other field is a whole number of cents within half a cent of the exact value |
| Pricing.ProfitableIff | components/PricingCalculator.jsx:14-19 | for a positive rate and cost, net profit is positive exactly when markup% exceeds (1 + markup%/100)(eBay% + ad%) |
| Pricing.DefaultExample | components/PricingCalculator.jsx:3-29 | on the default inputs (3, 40, 4, 60, 13, 0) the exact values are 43, 10.75, 6.45, 17.2, 2.236, 0, 4.214 and the returned values are 43, 10.75, 6.45, 17.2, 2.24, 0, 4.21 |
| Pricing.Max | components/PricingCalculator.jsx:33-39 | `Math.max` returns one of its arguments and is at least each of them |
| Pricing.Widths | components/PricingCalculator.jsx:40-47 | one width per value, each its share of the maximum in percent |
| Pricing.BarWidths | components/PricingCalculator.jsx:32-58 | the chart draws five bars: suggested price, total cost, eBay fee, ad fee and net profit in that order, each as its percent share of the largest of the five |
| Pricing.WidthsFit | components/PricingCalculator.jsx:33-47 | the largest value's bar is 100% wide; when the maximum is positive, every bar is at most 100% and a non-negative value's bar is at least 0% |
| Js.Round2 | components/PricingCalculator.jsx:22-27 | `toFixed(2)` gives a whole number of cents within half a cent of its argument, and keeps a non-negative argument non-negative |
| Js.Round2OfCents | components/PricingCalculator.jsx:22-27 | rounding a value already in whole cents leaves it unchanged |
| Js.Round2Idempotent | components/PricingCalculator.jsx:22-27 | rounding twice is rounding once |
| Js.ArithmeticIsNumeric | components/ProductStats.jsx:2-12 | JavaScript `+`, `-`, `*` and `/` on these values give a number or NaN, never null or undefined |
| Scenarios.WithField | components/PricingCalculator.jsx:81-84 | a change to one input field overwrites that field and no other |
| Scenarios.Initial | components/PricingCalculator.jsx:66-69 | the calculator opens on `defaultValues` (3, 40, 4, 60, 13, 0), their results, an empty list and no selection |
| Scenarios.Change | components/PricingCalculator.jsx:81-86 | the inputs take the new field value, the results are recomputed from them, and the list and the selection are untouched |
| Scenarios.RemoveAt | components/PricingCalculator.jsx:103 | the filter drops exactly the element at the index, shifts later ones down by one, and leaves the list unchanged for an index out of range |
| Scenarios.Save | components/PricingCalculator.jsx:88-96 | with no selection a copy of the inputs is appended at the end; with selection i only position i is replaced and the length is kept; either way the selection is cleared and inputs and results stay |
| Scenarios.Load | components/PricingCalculator.jsx:97-101 | the inputs become scenario idx, the results are recomputed from it, the selection becomes idx and the list is untouched |
| Scenarios.Delete | components/PricingCalculator.jsx:102-105 | exactly position idx is removed, in order; the selection is cleared only if it equals idx and is otherwise kept as the same number |
| Scenarios.Clear | components/PricingCalculator.jsx:106-110 | the inputs and results return to the defaults, the selection is cleared and the list is untouched |
| Scenarios.SaveThenLoadLast | components/PricingCalculator.jsx:93-101 | loading the position an append just filled gives back the saved inputs |
| Scenarios.LoadThenSaveUnchanged | components/PricingCalculator.jsx:89-100 | loading a scenario and saving it straight away leaves the list as it was |
| Scenarios.DeleteKeepsOrder | components/PricingCalculator.jsx:103 | deletion keeps the remaining scenarios in their original relative order |
| Scenarios.DeleteBeforeSelectionMisdirectsSave | components/PricingCalculator.jsx:89-105 | for any three scenarios with position 1 selected, deleting position 0 and then saving overwrites the scenario that moved into position 1, not the one being edited; the list then differs from saving first and deleting after whenever the edit differs from the selected scenario |
| Scenarios.DeleteFirstThenSave | components/PricingCalculator.jsx:89-105 | with three scenarios and position 1 selected, deleting position 0 then saving gives the old second scenario followed by the edit |
| Scenarios.SaveThenDeleteFirst | components/PricingCalculator.jsx:89-105 | with three scenarios and position 1 selected, saving then deleting position 0 gives the edit followed by the third scenario |
| Scenarios.DeleteTracked | components/PricingCalculator.jsx:102-105 | the corrected delete: the same list change; no selection stays none, the deleted position's selection is cleared, a selection above an existing idx moves down by one, and any other selection is kept |
| Scenarios.TrackedDeleteCommutesWithSave | components/PricingCalculator.jsx:89-105 | with the corrected delete, deleting then saving gives the same list as saving then deleting |
| Scenarios.PricingCalculator.constructor | components/PricingCalculator.jsx:66-69 | the object starts in the initial session |
| Scenarios.PricingCalculator.HandleChange | components/PricingCalculator.jsx:81-86 | the fields change as `Change` says, and the results stay those of the current inputs |
| Scenarios.PricingCalculator.SaveScenario | components/PricingCalculator.jsx:88-96 | the fields change as `Save` says, and the results stay those of the current inputs |
| Scenarios.PricingCalculator.LoadScenario | components/PricingCalculator.jsx:97-101 | the fields change as `Load` says, and the results stay those of the current inputs |
| Scenarios.PricingCalculator.DeleteScenario | components/PricingCalculator.jsx:102-105 | the fields change as `Delete` says: the handler as written, keeping the selection's number unless it is idx |
| Scenarios.PricingCalculator.DeleteScenarioTracked | components/PricingCalculator.jsx:102-105 | the fields change as `DeleteTracked` says: the corrected delete of the finding below |
| Scenarios.PricingCalculator.ClearForm | components/PricingCalculator.jsx:106-110 | the fields change as `Clear` says, and the results stay those of the current inputs |
| Stats.SumByAppend | components/ProductStats.jsx:2-12 | a fold over two lists joined is the sum of the folds over each |
| Stats.SumByPermutation | components/ProductStats.jsx:2-12 | a fold does not depend on the order of the products |
| Stats.JsSumCoerced | components/ProductStats.jsx:2-3 | a JavaScript `+` fold from 0 is the real sum, with null as 0, when every term is a number or null, and NaN otherwise |
| Stats.SumByWithout | components/ProductStats.jsx:2-12 | taking one product out of a fold takes out exactly its contribution |
| Stats.SumByBounds | components/ProductStats.jsx:4-5 | a fold of terms between lo and hi lies between n·lo and n·hi |
| Stats.ProfitOf | components/ProductStats.jsx:10-11 | one product's profit is (price − (cost_price or 0)) × (sold or 0) when the price is a number or null, and 0 when it is NaN |
| Stats.TotalSold | components/ProductStats.jsx:2 | 0 for an empty list |
| Stats.TotalSoldIsSum | components/ProductStats.jsx:2 | the sum of `sold` when every `sold` is a number or null, NaN otherwise |
| Stats.TotalValue | components/ProductStats.jsx:3 | 0 for an empty list |
| Stats.AverageRating | components/ProductStats.jsx:4-5 | 0 for an empty list; otherwise times the count it is the sum of (rating or 0) |
| Stats.AverageRatingInRange | components/ProductStats.jsx:4-5 | with every rating between 0 and 5, the average is between 0 and 5 |
| Stats.TotalProfitUsesPriceCostSold | components/ProductStats.jsx:9-12 | two lists that agree position by position on price, cost_price and sold have the same total profit, whatever their other fields |
| Stats.ProfitIgnoresMyrCostAndPostage | components/ProductStats.jsx:9-12 | an item priced 20 with 5 sold, MYR cost 47 and postage 1 contributes 100; with cost_price 10 it contributes 50 |
| Stats.Mean | components/ProductStats.jsx:4-5 | a total shared over n items gives back the total when multiplied by n |
| Stats.AvgProfit | components/ProductStats.jsx:15 | 0 for an empty list; otherwise the total profit shared over the products (`Mean`, so times the count it is the total profit) |
| Stats.TopSellerIndex | components/ProductStats.jsx:6 | the index of a product with the largest `sold`, and the first such |
| Stats.TopSeller | components/ProductStats.jsx:6 | none exactly for an empty list; otherwise a listed product whose `sold` is largest, the first such in list order |
| Stats.Summarize | components/ProductStats.jsx:1-21 | the product count is the list length; the empty list gives all zeros and no top seller |
| Stats.SummaryIgnoresOrder | components/ProductStats.jsx:1-21 | reordering the products changes none of the figures, and the top seller's `sold` stays the same |
| Stats.SamePermutationSums | components/ProductStats.jsx:2-3 | a JavaScript `+` fold, NaN included, does not depend on the order of the products |
| Dashboard.LowerChar | pages/dashboard.js:114 | `toLowerCase` maps each of A–Z to its own lower-case letter and leaves other characters alone |
| Dashboard.Lower | pages/dashboard.js:114 | lower-casing keeps the length and maps each character |
| Dashboard.Includes | pages/dashboard.js:114 | `includes` is true exactly when the needle occurs at some position of the text |
| Dashboard.Keep | pages/dashboard.js:113-115 | the filter keeps every matching product, as often as it occurs, and drops every other one |
| Dashboard.Search | pages/dashboard.js:112-116 | an empty search keeps the list as it is; any other keeps exactly the products whose lower-cased title contains the lower-cased search |
| Dashboard.SortDescending | pages/dashboard.js:118-122 | sorting in place leaves the array in non-increasing key order and holds the same products |
| Dashboard.InsertDescending | pages/dashboard.js:118-122 | one insertion step extends the ordered prefix by one element and keeps the same products |
| Dashboard.FilterAndSort | pages/dashboard.js:109-125 | the result holds exactly the searched products, each as often as in the input, in non-increasing `sold` order for "highest" and non-increasing creation time otherwise; the input list is a value and is not changed |
| CsvExport.Join | pages/dashboard.js:95-96 | joining one piece gives that piece |
| CsvExport.Split | pages/dashboard.js:95-96 | splitting text always gives at least one piece |
| CsvExport.SplitJoin | pages/dashboard.js:95-96 | splitting a join gives back the pieces, when no piece contains the separator |
| CsvExport.Row | pages/dashboard.js:82-93 | each row has ten cells, as many as the header, and the last is the profit |
| CsvExport.Lines | pages/dashboard.js:69-95 | one line more than there are products: the header line, then each product's line in list order |
| CsvExport.ExportShape | pages/dashboard.js:69-96 | when no cell holds a comma or line break, the text splits into the header and then each product's ten cells, in list order |
| CsvExport.ExportProfitMatchesStats | pages/dashboard.js:92 | the profit column uses the statistics' formula without its NaN guard: it is always a number or NaN, agrees with the statistics and prints the number where the profit is a number, and writes "NaN" where they count 0 |
| EditForm.InitialForm | components/EditProductModal.jsx:6-18 | the form has the eleven fields; a missing rating becomes 0 and a missing rate "4.70"; each optional number field holds the product's value when truthy and empty text otherwise; each optional text field holds the product's text, or empty text when missing |
| EditForm.ParseFloat | components/EditProductModal.jsx:43-49 | `parseFloat` gives a number or NaN |
| EditForm.ParseInt | components/EditProductModal.jsx:44 | `parseInt` gives a whole number or NaN |
| EditForm.Truncate | components/EditProductModal.jsx:44 | rounding toward zero lands within one of its argument, on the side of zero |
| EditForm.HandleChange | components/EditProductModal.jsx:20-32 | the named field takes the typed text and every other field is copied; after a change to the MYR cost or the rate that leaves both set, the USD cost is recomputed as their quotient to two places; otherwise it keeps its earlier value |
| EditForm.SubmitPayload | components/EditProductModal.jsx:41-53 | each optional number is null exactly when its field is empty, otherwise its parsed value; each text field is null exactly when empty, otherwise the raw value |
| EditForm.UntouchedSubmit | components/EditProductModal.jsx:6-18 | saving the form untouched writes back the loaded values (title, price, a whole `sold`, rating, both costs, postage, rate, supplier link and name, notes), with empty optional fields as null, a missing rate as 4.70, a missing rating as 0, a fractional `sold` truncated and a non-numeric one as NaN |
| EditForm.DerivedUsdSaved | components/EditProductModal.jsx:27-47 | a derived USD cost is saved as MYR cost ÷ rate rounded to cents when both read as numbers and the rate is non-zero, and as NaN otherwise |

## Left out

- Data-service calls (loading, inserting, updating and deleting products, sign-in and sign-out) are network I/O and are not part of this model. The error and alert paths around them are left out too.
- The `localStorage` effects that load and persist the scenario list, with their JSON encoding, are storage I/O.
- The Blob, object-URL and anchor download at the end of the CSV export is browser I/O.
- All rendering, styling and the markup-only components are left out. So are `confirm`, `alert`, `console` and router redirects.
- The add-product modal is left out: its field copy and payload add nothing beyond the edit form's.
- Number formatting and parsing are parameters: `Export`'s `show`, and `EditForm.Parsers` for `parseFloat` and `parseInt` on typed text. No decimal-string round trip is modelled.
- `Number(...)` on the calculator's input text is left out: the calculator's inputs are reals.
- IEEE floating point is left out: numbers are exact reals. Division by zero gives NaN, so Infinity is not modelled separately.
- `toLowerCase` maps only A–Z. Unicode case mapping is not modelled.
- `new Date(created_at)` is left out: the creation time is already a real.
- Stats.TopSeller, Stats.Summarize: require every `sold` to be a number or null. With NaN the sort's comparator is inconsistent, and JavaScript leaves the order implementation-defined.
- Dashboard.FilterAndSort: with "highest" it requires every `sold` to be a number or null, for the same reason. It does not state that equal keys keep their input order.
- Pricing.Compute, Pricing.CalculatePricing, Scenarios.Change, Scenarios.Load: require a non-zero conversion rate, because the code does not guard against dividing by it.
- Pricing.Widths, Pricing.BarWidths: require a non-zero maximum, because the code does not guard against dividing by it.
- Dashboard.Keep: does not state that the kept products stay in their original relative order; it states which products are kept and how often.
- Scenarios.Load: requires an index inside the list, because the code reads `scenarios[idx]` unguarded.
- CsvExport.ExportShape: is stated only for cells holding no comma or line break. The export writes cells unquoted, so such a cell changes the row's shape.

## Findings

| source | as written | input that shows it | evidently intended | confidence | as-written member | corrected member |
|---|---|---|---|---|---|---|
| components/PricingCalculator.jsx:102-105 | deleting a scenario before the one being edited leaves `editIdx` at the same number, which then points at the scenario that moved into that slot | three scenarios, editing position 1, delete position 0, then save: the save overwrites the scenario that was at position 2, and the edited one is lost | shift `editIdx` down by one when a scenario before it is removed, so that a later save overwrites the scenario being edited | not executed | Scenarios.DeleteBeforeSelectionMisdirectsSave | Scenarios.TrackedDeleteCommutesWithSave |

`Scenarios.Delete` and the class method `DeleteScenario` follow the code as
written. `Scenarios.DeleteTracked` is the corrected delete, and the class
method `DeleteScenarioTracked` follows it.
