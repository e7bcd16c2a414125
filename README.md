# Controle Financeiro — a verified model of the item store, its queries and its aggregations

Controle Financeiro is a personal-finance dashboard. Incomes and expenses
("financial items") are stored either in Firestore or, when Firebase is not
configured, as one JSON array in the browser's `localStorage` slot
`financialItems`. The dashboard lists them under a filter panel, splits
them into incomes and expenses, shows three balance cards, draws category
and monthly charts, and exports the list as CSV.

This Dafny project models the parts of that system that compute something:

- `types.dfy` (`Types`): item types, the 13 categories with their income
  and expense lists, recurrences, budget periods, the label and icon
  tables, and the string keys of each enumeration.
- `seqs.dfy` (`Seqs`), `sorting.dfy` (`Sorting`): `Array.prototype.filter`
  as a function with its laws, and an in-place sort of an array, newest
  first, proved sorted and a permutation.
- `financial_service.dfy` (`FinancialService`): the `localStorage` branch
  of `financialService` as the class `LocalStore`, whose field `slot` is
  the storage slot. It covers `create`, `update`, `delete`, `getAll` and
  `getById`. The same file holds the filter and search semantics, the JSON
  round trip and the backend selector.
- `schemas.dfy` (`Schemas`): `financialItemSchema` and `budgetSchema` as
  validation functions that accept or report every failing field.
- `currency.dfy` (`Currency`): `parseCurrency`, which cleans, normalises
  the first comma and reads a decimal prefix the way `parseFloat` does.
- `financial_items_hook.dfy` (`FinancialItemsHook`): the
  `useFinancialItems` hook as the class `ItemsState`, and the
  income/expense split.
- `balance_summary.dfy` (`BalanceSummary`): the three balance-card totals
  and the sign rule.
- `financial_charts.dfy` (`FinancialCharts`): the category breakdowns
  (the grouping loop, the sort, the five-slice cut) and the monthly rows.
- `financial_filters.dfy` (`FinancialFilters`): the filter panel as the
  class `FilterPanel`, with its handlers and the queries they emit.
- `export_csv.dfy` (`ExportCsv`): the CSV text of the export, and a reader
  in the manner of RFC 4180 that states what that text means.

Amounts are integers (cents) and instants are integers (milliseconds).
Every calendar instant is taken to be a valid date.

Where the behaviour the code has differs from a plain-language description
of the system, the model follows the code:

- A search for "ALU" does not find an item named "Salário": the lowered
  name is "salário", which contains "alá" and not "alu". The search
  compares code points after `toLowerCase` and folds no accents.
  `FinancialService.SearchIgnoresCase` proves that "SALÁ" matches and
  "ALU" does not.
- Names are not trimmed before the length check, so a name of one blank is
  accepted (`Schemas.NameBoundaries`).

## Model

| member | source | states |
|---|---|---|
| Types.Stamp | src/lib/services/financialService.ts:93-114 | a created item carries the fresh id, `createdAt == updatedAt == now`, and exactly the draft's fields |
| Types.ParseType | src/types/index.ts:1 | a recognised type key is the key of the type it yields |
| Types.ParseCategory | src/types/index.ts:3-16 | a recognised category key is the key of the category it yields |
| Types.ParseRecurrence | src/types/index.ts:18 | a recognised recurrence key is the key of the recurrence it yields |
| Types.ParsePeriod | src/types/index.ts:40 | a recognised budget period key is the key of the period it yields |
| Types.KeysRoundTrip | src/types/index.ts:1-18 | every type, category, recurrence and period is recognised from its own key |
| Types.CategoryListsPartition | src/types/index.ts:62-79 | the income list (4) and the expense list (9) have no duplicates and nothing in common, and together hold every category exactly once |
| Types.CategoryIndex | src/types/index.ts:62-79 | every category sits at a position below 13 of the income list followed by the expense list |
| Types.TablesTotalAndInjective | src/types/index.ts:81-111 | every category has a non-empty label and icon, and distinct categories have distinct labels and icons |
| Sorting.SortDescending | src/lib/services/financialService.ts:235 | the array ends sorted by the key, largest first, and is a permutation of what it held |
| FinancialService.IsFirebaseConfigured | src/lib/services/financialService.ts:86-89 | the local store serves exactly when the API key is absent, empty or 'demo-key' |
| FinancialService.Includes | src/lib/services/financialService.ts:229-231 | the empty text is included in every text |
| FinancialService.SearchMatches | src/lib/services/financialService.ts:227-232 | the empty term matches every item, and a match in the lowered name alone is enough |
| FinancialService.Matches | src/lib/services/financialService.ts:214-232 | with no filter every item passes, and an item that passes has the chosen type |
| FinancialService.Select | src/lib/services/financialService.ts:211-233 | the selected items are exactly the stored ones that pass every filter, and never more than are stored |
| FinancialService.SelectSoundComplete | src/lib/services/financialService.ts:211-233 | an item is selected exactly when it is stored and passes every present filter (inclusive dates, search), as often as it is stored |
| FinancialService.NoFiltersSelectAll | src/lib/services/financialService.ts:214-233 | with no filter, or only an empty search, every stored item is selected in order |
| FinancialService.NameOnlySearch | src/lib/services/financialService.ts:226-232 | an item with no description and no tags is found exactly when its lowered name contains the lowered term |
| FinancialService.SearchIgnoresCase | src/lib/services/financialService.ts:226-232 | "SALÁ" finds "Salário" and "ALU" does not |
| FinancialService.FirstIndex | src/lib/services/financialService.ts:140 | the first position holding the id, or -1 exactly when no item has it |
| FinancialService.FindIndex | src/lib/services/financialService.ts:140 | the linear scan returns that first position, or -1 |
| FinancialService.Merge | src/lib/services/financialService.ts:142 | the merged item's `updatedAt` is the fresh timestamp |
| FinancialService.MergeFields | src/lib/services/financialService.ts:142 | every field the patch names, on all eleven fields, takes the patch's value (a cleared description becomes absent), and every other field keeps the item's |
| FinancialService.WithoutId | src/lib/services/financialService.ts:160 | the kept items are exactly the stored ones whose id differs, never more than were stored |
| FinancialService.AmountOnlyUpdate | src/lib/services/financialService.ts:142 | an amount-only patch changes only the amount and the stamp; an empty patch changes only the stamp |
| FinancialService.MergeIdempotent | src/lib/services/financialService.ts:142 | applying the same patch twice equals applying it once at the later time |
| FinancialService.DeletionRemovesExactlyTheId | src/lib/services/financialService.ts:160 | after deletion no item has the id, every other item keeps its multiplicity, and order is kept |
| FinancialService.UniqueIdsPreserved | src/lib/services/financialService.ts:112-116 | appending an item with a fresh id, or deleting, keeps ids pairwise distinct |
| FinancialService.Load | src/lib/services/financialService.ts:60-75 | reading gives [] outside a browser, for an absent or empty slot, or for a blob that does not parse, and otherwise one item per parsed record |
| FinancialService.Revive | src/lib/services/financialService.ts:66-71 | rebuilding dates keeps one item per record |
| FinancialService.LoadAfterSave | src/lib/services/financialService.ts:60-80 | reading the slot back gives exactly the list last written, dates included |
| FinancialService.Encode | src/lib/services/financialService.ts:77-80 | under a lossless JSON, the written blob is never empty and parses back to one record per item |
| FinancialService.LocalStore.GetItems | src/lib/services/financialService.ts:60-75 | outside the browser, or with the slot absent or empty, the list is empty |
| FinancialService.LocalStore.SaveItems | src/lib/services/financialService.ts:77-80 | outside a browser nothing is written; a refused write throws and leaves the slot; otherwise the slot holds the list |
| FinancialService.LocalStore.Create | src/lib/services/financialService.ts:111-117 | the stamped item is appended at the end and everything before it is unchanged; a refused write changes nothing |
| FinancialService.LocalStore.Update | src/lib/services/financialService.ts:138-144 | an absent id writes nothing; otherwise only the first item with the id becomes its merge with the patch |
| FinancialService.LocalStore.Delete | src/lib/services/financialService.ts:159-161 | the stored list becomes the list without the id, even when the id is absent |
| FinancialService.LocalStore.GetAll | src/lib/services/financialService.ts:210-235 | the result is a permutation of the selected stored items, sorted by date, newest first |
| FinancialService.LocalStore.GetById | src/lib/services/financialService.ts:255-257 | None exactly when no stored item has the id, otherwise the first such item |
| FinancialService.ApplyFilterChain | src/lib/services/financialService.ts:214-233 | the chain of per-filter `filter` calls selects exactly what the conjunction of the filters selects |
| Schemas.ValidateItem | src/lib/schemas.ts:4-17 | accepted exactly when every item rule holds; the form has the payload's fields, recurrence defaulting to 'none'; a rejection reports each failing field with its reason |
| Schemas.ItemIssuesComplete | src/lib/schemas.ts:4-17 | every report names a failing field with its reason, every failing field is reported, and there is no report exactly when no field fails |
| Schemas.ValidateBudget | src/lib/schemas.ts:19-28 | accepted exactly when name, category, amount and period rules hold; a rejection reports only failing fields, and every failing field |
| Schemas.BudgetIssuesComplete | src/lib/schemas.ts:19-28 | every budget report names a failing field with its reason, and every failing field of the four is reported |
| Schemas.Message | src/lib/schemas.ts:5-27 | the messages the schemas set are non-empty |
| Schemas.NameBoundaries | src/lib/schemas.ts:5 | empty and 101-character names fail, names of 1 to 100 characters pass, blanks are not trimmed |
| Schemas.AmountMustBePositive | src/lib/schemas.ts:6 | zero and negative amounts reject an item (with the positive-amount issue) and a budget |
| Schemas.CategoryIndependentOfType | src/lib/schemas.ts:7-12 | an income payload with the expense category 'food' is accepted |
| Currency.CleanProperties | src/lib/utils/currency.ts:10 | cleaning keeps exactly the digits, ',', '.' and '-', with their multiplicities and order, and is idempotent |
| Currency.FirstComma | src/lib/utils/currency.ts:12 | the position of the first comma, or -1 exactly when there is none |
| Currency.Normalize | src/lib/utils/currency.ts:12 | only the first comma becomes '.'; text without a comma is unchanged |
| Currency.LaterCommasRemain | src/lib/utils/currency.ts:12 | the text before the first comma and everything after it are unchanged |
| Currency.OneCommaReplaced | src/lib/utils/currency.ts:12 | normalising removes exactly one comma |
| Currency.LeadingDigits | src/lib/utils/currency.ts:13 | the length of the maximal run of digits at the start |
| Currency.ParseDecimal | src/lib/utils/currency.ts:13 | a number is read only from text holding a digit |
| Currency.ParseCurrency | src/lib/utils/currency.ts:8-14 | input with no digit gives 0 |
| Currency.NoDigitsParseToZero | src/lib/utils/currency.ts:10-13 | cleaning and normalising introduce no digit |
| Currency.WholeNumber | src/lib/utils/currency.ts:13 | a run of digits reads as its integer value |
| Currency.PointFraction | src/lib/utils/currency.ts:13 | digits, '.', digits and a non-digit read as the decimal those digits spell |
| Currency.DecimalComma | src/lib/utils/currency.ts:8-14 | "12,50" parses to 12.5 |
| Currency.ThousandsPointEndsNumber | src/lib/utils/currency.ts:8-14 | "1.234,56" parses to 1.234, because the thousands point stays a decimal point |
| FinancialItemsHook.SplitByType | src/hooks/use-financial-items.ts:114-115 | incomes and expenses hold exactly the items of their type, are disjoint, add up to the list in length and multiset, and keep order |
| FinancialItemsHook.Incomes | src/hooks/use-financial-items.ts:114 | the incomes are exactly the listed items of type income |
| FinancialItemsHook.Expenses | src/hooks/use-financial-items.ts:115 | the expenses are exactly the listed items of type expense |
| FinancialItemsHook.ItemsState.constructor | src/hooks/use-financial-items.ts:17-20 | empty list, loading, no error, the initial filters or none |
| FinancialItemsHook.ItemsState.LoadItems | src/hooks/use-financial-items.ts:23-41 | the list is replaced by the newest-first selection for the given filters, or else the stored ones |
| FinancialItemsHook.ItemsState.UpdateFilters | src/hooks/use-financial-items.ts:47-50 | the new filters are stored and the list shows their selection |
| FinancialItemsHook.ItemsState.Refresh | src/hooks/use-financial-items.ts:52-54 | the list shows the selection for the stored filters |
| FinancialItemsHook.ItemsState.AddItem | src/hooks/use-financial-items.ts:56-74 | on success the item is appended and the list reloaded; on a thrown error the list and slot are unchanged |
| FinancialItemsHook.ItemsState.UpdateItem | src/hooks/use-financial-items.ts:76-93 | on success the first item with the id is merged and the list reloaded; an absent id leaves the store unchanged; on a thrown error nothing changes |
| FinancialItemsHook.ItemsState.DeleteItem | src/hooks/use-financial-items.ts:95-112 | on success the id is gone and the list reloaded; on a thrown error nothing changes |
| BalanceSummary.FoldIsSum | src/components/dashboard/BalanceSummary.tsx:12-13 | the left fold of the amounts from a start value is that value plus the amounts' sum |
| BalanceSummary.AmountTotal | src/components/dashboard/BalanceSummary.tsx:12-13 | the `reduce` total of incomes and of expenses is the sum of the amounts, 0 for none |
| BalanceSummary.NetBalance | src/components/dashboard/BalanceSummary.tsx:14 | the net balance is the income sum minus the expense sum, non-negative exactly when the incomes cover the expenses |
| BalanceSummary.NetBalanceOfSplit | src/components/dashboard/BalanceSummary.tsx:14 | the net balance of the split list is its signed sum |
| BalanceSummary.BalanceTone | src/components/dashboard/BalanceSummary.tsx:39-42 | the positive style exactly when the balance is at least zero |
| BalanceSummary.BalanceNote | src/components/dashboard/BalanceSummary.tsx:46 | "Saldo positivo!" exactly when the tone is positive |
| BalanceSummary.PositiveAmounts | src/components/dashboard/BalanceSummary.tsx:12-14 | with positive amounts a total is zero only for an empty list, and incomes alone never show a negative balance |
| FinancialCharts.CategoryTotalSnoc | src/components/dashboard/FinancialCharts.tsx:40 | one more item adds its amount to its own category's total only |
| FinancialCharts.FirstAppearance | src/components/dashboard/FinancialCharts.tsx:39-44 | the keys hold each present category once and no other |
| FinancialCharts.Totals | src/components/dashboard/FinancialCharts.tsx:44-50 | one slice per key, holding that key's total |
| FinancialCharts.GroupStep | src/components/dashboard/FinancialCharts.tsx:39-42 | one reduce step keeps the accumulator equal to the totals of the items seen, with keys in order of first appearance |
| FinancialCharts.GroupByCategory | src/components/dashboard/FinancialCharts.tsx:39-50 | the grouping loop yields the breakdown: each present category once, with its total |
| FinancialCharts.BreakdownAddsUp | src/components/dashboard/FinancialCharts.tsx:39-42 | before the cut, the slices add up to the total of the items grouped |
| FinancialCharts.SortByAmount | src/components/dashboard/FinancialCharts.tsx:51 | the slices sorted largest first, as a permutation |
| FinancialCharts.TopCut | src/components/dashboard/FinancialCharts.tsx:51-52 | the cut keeps a sub-multiset of the breakdown, in order, and no slice dropped is larger than one kept |
| FinancialCharts.ExpensesByCategory | src/components/dashboard/FinancialCharts.tsx:37-53 | at most five expense slices, largest first, each a true category total taken at most once, no two of the same category, none dropped larger than one kept |
| FinancialCharts.IncomeByCategory | src/components/dashboard/FinancialCharts.tsx:56-71 | every income category total exactly once, largest first, nothing cut |
| FinancialCharts.BreakdownDistinct | src/components/dashboard/FinancialCharts.tsx:39-42 | the grouping yields one slice per category |
| FinancialCharts.DistinctKept | src/components/dashboard/FinancialCharts.tsx:51-52 | slices taken from the breakdown, none more often than there, again have one slice per category |
| FinancialCharts.SliceForCategory | src/components/dashboard/FinancialCharts.tsx:39-50 | a breakdown has a slice for a category exactly when some item has it |
| FinancialCharts.BreakdownCategories | src/components/dashboard/FinancialCharts.tsx:38-50 | a type's breakdown has slices for exactly the categories of that type's items |
| FinancialCharts.MonthItems | src/components/dashboard/FinancialCharts.tsx:84-87 | an item is in a month exactly when its date lies between the month's bounds, both included |
| FinancialCharts.MonthRowOf | src/components/dashboard/FinancialCharts.tsx:89-102 | Receitas and Despesas are the month's income and expense sums and Saldo is their difference |
| FinancialCharts.MonthlyData | src/components/dashboard/FinancialCharts.tsx:80-103 | one row per month, in order |
| FinancialCharts.MonthSaldo | src/components/dashboard/FinancialCharts.tsx:89-101 | a month's Saldo is the signed sum of its items, the balance the cards would show for them |
| FinancialFilters.PanelFilters | src/components/dashboard/FinancialFilters.tsx:44-52 | the emitted query has a search exactly when the text is non-empty |
| FinancialFilters.PanelSelects | src/components/dashboard/FinancialFilters.tsx:44-52 | the emitted query selects the items of the chosen type and category, inside the period, found by the text |
| FinancialFilters.CategoryOptionsCover | src/components/dashboard/FinancialFilters.tsx:64-68 | options never repeat; a type offers exactly its own categories; 'all' offers every category |
| FinancialFilters.CategoryOptions | src/components/dashboard/FinancialFilters.tsx:64-68 | the options never repeat, and there are 4 for income, 9 for expense and all 13 otherwise |
| FinancialFilters.ClearButtonShown | src/components/dashboard/FinancialFilters.tsx:220 | a hidden clear button means no filter is emitted; without a period, no filter means the button is hidden |
| FinancialFilters.RangeEmissionAsWritten | src/components/dashboard/FinancialFilters.tsx:203-209 | a query is emitted exactly when both ends are set, and its dates are those of the previous period |
| FinancialFilters.StaleRangeEmitted | src/components/dashboard/FinancialFilters.tsx:203-209 | completing a period emits a query without the new end date |
| FinancialFilters.RangeEmission | src/components/dashboard/FinancialFilters.tsx:203-209 | corrected: once both ends are set, the query carries the selected period, type and category |
| FinancialFilters.RangeEmissionSelects | src/components/dashboard/FinancialFilters.tsx:203-209 | corrected: the query emitted selects only items inside the selected period |
| FinancialFilters.FilterPanel.constructor | src/components/dashboard/FinancialFilters.tsx:39-42 | every control starts at its default, no filter, no clear button |
| FinancialFilters.FilterPanel.OnSearchChange | src/components/dashboard/FinancialFilters.tsx:88-90 | typing changes only the text |
| FinancialFilters.FilterPanel.OnSearchCommit | src/components/dashboard/FinancialFilters.tsx:91-96 | blur or Enter emits the current query |
| FinancialFilters.FilterPanel.OnTypeChange | src/components/dashboard/FinancialFilters.tsx:107-120 | the type is set, the category reset to 'all', and the query emitted has the new type and no category |
| FinancialFilters.FilterPanel.OnCategoryChange | src/components/dashboard/FinancialFilters.tsx:138-151 | the category is set, the type kept, and both emitted |
| FinancialFilters.FilterPanel.OnRangeSelect | src/components/dashboard/FinancialFilters.tsx:203-210 | the period is stored; a query is emitted only when both ends are set, and it is built from the previous period |
| FinancialFilters.FilterPanel.ClearFilters | src/components/dashboard/FinancialFilters.tsx:54-62 | every control reset, the empty query emitted, the clear button hidden |
| ExportCsv.TypeLabel | src/components/dashboard/ExportButton.tsx:25 | 'Receita' exactly for an income |
| ExportCsv.Cells | src/components/dashboard/ExportButton.tsx:23-31 | seven cells, one per header |
| ExportCsv.CellColumns | src/components/dashboard/ExportButton.tsx:23-31 | the columns hold the name, the type label, the raw category key, the formatted amount and date, the description or '', and the tags joined by "; " or '' |
| ExportCsv.Rows | src/components/dashboard/ExportButton.tsx:23 | one row per item, in item order |
| ExportCsv.Escape | src/components/dashboard/ExportButton.tsx:35 | corrected: a cell without a quote is written as it is |
| ExportCsv.QuoteAsWritten | src/components/dashboard/ExportButton.tsx:35 | as written: two characters longer than the cell, and equal to the corrected quoting when the cell has no quote |
| ExportCsv.Quote | src/components/dashboard/ExportButton.tsx:35 | corrected: opens with a quote, and the reader takes it back as exactly the cell |
| ExportCsv.QuotedRoundTrip | src/components/dashboard/ExportButton.tsx:35 | corrected: a cell with its quotes doubled reads back as itself |
| ExportCsv.RecordRoundTrip | src/components/dashboard/ExportButton.tsx:35 | corrected: a line of quoted cells reads back as those cells |
| ExportCsv.RecordsRoundTrip | src/components/dashboard/ExportButton.tsx:33-36 | corrected: lines joined by '\n' read back as the records, in order |
| ExportCsv.DocumentShape | src/components/dashboard/ExportButton.tsx:33-38 | the text is U+FEFF, the header, then '\n' and the record lines, with no trailing line break |
| ExportCsv.ExportRoundTrip | src/components/dashboard/ExportButton.tsx:22-38 | corrected: the export reads back as exactly the items' cells, in order |
| ExportCsv.AsWrittenWithoutQuotes | src/components/dashboard/ExportButton.tsx:22-38 | when no cell holds a quote the export as written is the corrected one and reads back as the cells |
| ExportCsv.DocumentsAgree | src/components/dashboard/ExportButton.tsx:33-38 | without a quote in any cell both quotings write the same text |
| ExportCsv.CsvAsWritten | src/components/dashboard/ExportButton.tsx:22-38 | as written: equal to the corrected export when no cell holds a quote |
| ExportCsv.Csv | src/components/dashboard/ExportButton.tsx:22-38 | corrected: the export reads back as exactly the items' cells |
| ExportCsv.QuoteBreaksRecord | src/components/dashboard/ExportButton.tsx:35 | as written, the cell `a"b` gives the line `"a"b"`, which reads as `a` plus stray text and is no record |

## Left out

- The Firestore branch of every service operation (`addDoc`, `updateDoc`, `deleteDoc`, `getDocs`, `getDoc`, the query constraints and their converters) is network I/O and is not modelled; `IsFirebaseConfigured` decides only that the local branch runs.
- `JSON.stringify`/`JSON.parse` and the ISO 8601 date conversions are an abstract pair of functions (`Json`), assumed lossless through the `Lossless` predicate; `crypto.randomUUID` is a fresh-id parameter whose freshness is a precondition; `typeof window` is the `inBrowser` flag; a `setItem` that throws (storage quota) is the `writable` flag.
- FinancialService.LocalStore.Update: the source reads the clock twice (`updateData.updatedAt` and again in the merge); the model uses one `now`, which is what the item ends with either way.
- FinancialCharts.ExpensesByCategory: which of several slices with equal totals survives the cut to five is not stated; the source's sort is stable, so the one whose category appeared first in the items is kept.
- FinancialService.LocalStore.GetAll: the tie order among items with equal dates (stable in the source) is not stated.
- FinancialService.Patch: a required field explicitly set to `undefined` in the patch is not representable; optional fields may be cleared.
- FinancialService.LowerChar: `toLowerCase` is modelled for ASCII and Latin-1 capitals only; other scripts are left unchanged. Lengths are counted in code points, not UTF-16 units.
- Amounts are exact integers (cents) and `parseFloat` is exact decimal arithmetic (`Currency.Value`); double rounding is not modelled.
- Currency.ParseDecimal: models `parseFloat` only on the cleaned alphabet (digits, ',', '.', '-'), where blanks, '+', exponents and 'Infinity' cannot occur.
- `formatCurrency` (`Intl.NumberFormat`) and the date-fns `format` of the export are function parameters of `ExportCsv.Cells`; the month labels and bounds (`eachMonthOfInterval`, `startOfMonth`, `endOfMonth`, `new Date()`) are inputs of `FinancialCharts.MonthlyData`.
- Schemas: zod's coercion (`z.coerce.number`, `z.coerce.date`) is taken as done: a payload holds the coerced values. Zod's own default messages are not modelled (`Message` gives None there).
- Schemas.Message: states only that each message set by the schemas is non-empty; the texts themselves are in its body.
- React's scheduling (`setTimeout(…, 0)`, state batching, the `useEffect` that loads on mount and after filter changes), toasts and rendering are not modelled; each handler is one atomic state change.
- A `localStorage.getItem` that the browser refuses (storage blocked) throws out of the local `getAll` (financialService.ts:62 reads outside the `try`) into the `loadItems` catch of the hook; the model has no refused read, as it has the `writable` flag for a refused write, so that error path of `LoadItems` is not modelled.
- Concurrent read-modify-write of the single blob is not modelled.
- ExportCsv.ParseRecords: the reader separates records by LF, as the export writes them, not by the CRLF that rule 1 of section 2 of RFC 4180 names.
- The download (Blob, anchor element, click) and the JSON export are DOM and I/O, and are not modelled.
- `src/app/page.tsx`, `FinancialList.tsx`, `FinancialItemModal.tsx`, `AppHeader.tsx`, `Logo.tsx` and the Android WebView shell are rendering and wiring only.

## Findings

| source | as written | input that shows it | evidently intended | confidence | as-written member | corrected member |
|---|---|---|---|---|---|---|
| src/components/dashboard/FinancialFilters.tsx:203-209 | the range handler's delayed `applyFilters` is the one captured before `setDateRange`, so it emits the previous period | the start of a period is picked (`{from: d1}`), then its end (`{from: d1, to: d2}`): the query emitted has no end date | emit the query with the selected period | high (not executed) | FinancialFilters.StaleRangeEmitted | FinancialFilters.RangeEmissionSelects |
| src/components/dashboard/ExportButton.tsx:35 | each cell is wrapped in quotes without doubling its own quotes (rule 7 of section 2 of RFC 4180) | an item named `a"b` gives the line `"a"b"`, which a reader takes as the field `a` followed by stray text | double every quote inside a cell | high (not executed) | ExportCsv.QuoteBreaksRecord | ExportCsv.ExportRoundTrip |
