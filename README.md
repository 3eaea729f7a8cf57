# Rider ledger: a Dafny model

A model of the ledger logic of a delivery rider's earnings dashboard. The
dashboard takes transactions that an external AI service extracts from a statement
screenshot. It normalizes each transaction's free-text type into one of four
categories and keeps the results in an ordered transaction store. It also
keeps manually entered expenses in a second ordered store, and it shows four
totals: earnings, collections, expenses and take-home profit.

Modules, one per part of the program:

- `Types` (types.ts): the `TransactionType` enumeration with its string labels, and the
  `Transaction`, `Expense` and `LedgerState` records. The source field `type`
  is named `kind`, because `type` is a Dafny keyword.
- `Folds`: `Filter` (the array `filter`) and `Sum` (the summing `reduce`), which
  the stores and the totals are built from, with their algebra (concatenation,
  permutation).
- `Normalizer` (services/geminiService.ts): `Normalize` is `normalizeType`, built on
  `Lower` (`toLowerCase`) and `Contains` (`includes`). `NormalizeItem` and
  `NormalizeBatch` are the per-item map that applies it to an extracted batch.
- `Ledger` (the `totals` memo of App.tsx): `ComputeTotals` builds the four totals
  from `Earnings` and `Collections` (both a `TypeTotal`) and `ExpenseTotal`. Lemmas
  say how each store edit moves them.
- `App` (the state of App.tsx): class `Session` holds the two stores as `seq`
  fields. It has one method per handler, and the removal functions are defined here too.
- `ExpenseInput` (components/ExpenseInput.tsx): class `ExpenseForm` with its two text
  fields, and `Submit`, the guarded hand-off to the session.

Like the code, the model does not validate the amounts of extracted transactions:
zero and negative amounts are stored and summed as given. Amounts are `real`, so sums are exact. Each sum is a left fold, added up in
the order `reduce` uses. Letter case is ASCII only.

Two behaviours of the code are easy to misread; the model follows the code:

- Removal is a `filter`, so it drops every entry carrying the id, not only the
  first one (`App.RemoveDropsDuplicates`). Only when the id is unique does the
  store shrink by exactly one (`App.RemoveUniqueTransaction`).
- `addExpense` itself does not validate. Only the form checks the description and
  amount, so `ValidExpense` is preserved by `ExpenseForm.Submit` and not by
  `Session.AddExpense`.

## Model

| member | source | states |
|---|---|---|
| `Types.Label` | types.ts:2-7 | every category has a non-empty string label |
| `Types.LabelsDistinct` | types.ts:3-6 | two categories have the same label if and only if they are the same category |
| `Types.FourCategories` | types.ts:2-7 | every category is one of Collection, DeliveryCharge, Payment, Other |
| `Normalizer.Lower` | services/geminiService.ts:74 | lower-casing keeps the length and lower-cases each character in place |
| `Normalizer.ContainsOccurs` | services/geminiService.ts:75-77 | when the `includes` search succeeds, the keyword occurs at some index |
| `Normalizer.OccursContains` | services/geminiService.ts:75-77 | when the keyword occurs at some index, the `includes` search succeeds |
| `Normalizer.ContainsIffOccurs` | services/geminiService.ts:75-77 | the left-to-right `includes` search succeeds exactly when the keyword occurs at some index |
| `Normalizer.NormalizeSpec` | services/geminiService.ts:73-79 | each of the four categories is chosen exactly when its keyword group is the first to occur in the lower-cased label (collect; else charge or earn; else pay; else nothing), so the classifier is total and first-match-wins |
| `Normalizer.NormalizeIgnoresCase` | services/geminiService.ts:74 | a label, its lower-case form and its upper-case form get the same category |
| `Normalizer.FoundIgnoringCase` | services/geminiService.ts:74-77 | a case-insensitive match at some index is found in the lower-cased label |
| `Normalizer.MissingLetter` | services/geminiService.ts:74-77 | a keyword with a letter missing from the label in both cases is not found |
| `Normalizer.NormalizeLabel` | services/geminiService.ts:73-79 | each category's own label ("Collection", "Delivery Charge", "Payment", "Other") normalizes back to that category |
| `Normalizer.CollectionPaymentIsCollection` | services/geminiService.ts:75-77 | "Collection Payment" is a Collection: "collect" outranks "pay" |
| `Normalizer.EarningPaymentIsDeliveryCharge` | services/geminiService.ts:76-77 | "Earning Payment" is a DeliveryCharge: with no "collect", "earn" outranks "pay" |
| `Normalizer.EmptyIsOther` | services/geminiService.ts:78 | the empty label is Other |
| `Normalizer.NormalizeBatch` | services/geminiService.ts:63-66 | the batch map keeps length and order; each item keeps date, id and amount and gets the normalized category of its own type text |
| `Normalizer.NormalizeBatchAppend` | services/geminiService.ts:63-66 | normalizing a concatenation equals concatenating the normalized parts |
| `Folds.Filter` | App.tsx:78 | a filter keeps only elements that pass, and keeps each passing element as often as the input has it |
| `Folds.FilterAppend` | App.tsx:62 | filtering a concatenation concatenates the filtered parts, so the relative order is kept |
| `Folds.SumAppend` | App.tsx:79 | the reduce-sum of a concatenation is the sum of the parts |
| `Folds.FilterPermutation` | App.tsx:77-83 | filtering two permutations of a store gives two permutations of each other |
| `Folds.SumPermutation` | App.tsx:85 | the reduce-sum does not depend on element order |
| `Ledger.TotalsOfEmpty` | App.tsx:76-93 | empty stores give four zero totals |
| `Ledger.TypeTotalCountsOnlyType` | App.tsx:77-83 | the filtered sum for a category equals the sum over all transactions in which other categories count zero, so earnings counts only delivery charges and collections only collections |
| `Ledger.TotalsAppendTransactions` | App.tsx:76-93 | appending a batch adds its earnings and collections, leaves the expense total, and raises profit by the batch's earnings only |
| `Ledger.TotalsInsertTransaction` | App.tsx:91 | inserting one transaction anywhere moves earnings and profit only if it is a delivery charge, and collections only if it is a collection; a payment or other moves no total |
| `Ledger.TotalsAppendExpense` | App.tsx:85-91 | a new expense raises the expense total and lowers profit by its amount, and leaves earnings and collections alone |
| `Ledger.TotalsRemoveExpense` | App.tsx:85-91 | removing one expense from anywhere raises profit by its amount |
| `Ledger.TypeTotalPermutation` | App.tsx:77-83 | the total of one category does not depend on the order of the transactions |
| `Ledger.TotalsPermutation` | App.tsx:76-93 | permuting either store changes none of the four totals |
| `Ledger.TotalsBounds` | App.tsx:76-93 | with non-negative amounts, earnings, collections and expense total are non-negative and profit is at most earnings |
| `Ledger.ExampleTotals` | App.tsx:76-93 | delivery charge 120, collection 500, payment 50 and expense 40 give 120 / 500 / 40 / 80 |
| `App.WithoutTransaction` | App.tsx:61-63 | removal keeps no entry with the id, and keeps every other entry as often as before |
| `App.WithoutExpense` | App.tsx:65-67 | the same for expenses |
| `App.RemoveAbsentTransaction` | App.tsx:62 | removing an id no transaction has leaves the store unchanged |
| `App.RemoveAbsentExpense` | App.tsx:66 | removing an id no expense has leaves the store unchanged |
| `App.RemoveUniqueTransaction` | App.tsx:62 | removing a unique id takes out exactly that entry, keeps the others in order, and shrinks the store by one |
| `App.RemoveUniqueExpense` | App.tsx:66 | the same for expenses |
| `App.RemoveTransactionAppend` | App.tsx:62 | removal distributes over concatenation, so the relative order of survivors is kept |
| `App.RemoveExpenseAppend` | App.tsx:66 | expense removal distributes over concatenation, so surviving expenses keep their order even when ids collide |
| `App.RemoveDropsDuplicates` | App.tsx:62 | two entries with the same id are both removed |
| `App.RemoveNonEarningKeepsProfit` | App.tsx:61-93 | removing transactions that are not delivery charges leaves earnings, expense total and profit unchanged |
| `App.ExampleRemoveCollection` | App.tsx:61-93 | in the worked example, removing the collection makes collections 0 and keeps earnings 120 and profit 80 |
| `App.Session.constructor` | App.tsx:22-23 | both stores start empty |
| `App.Session.AppendExtracted` | App.tsx:42 | the normalized batch goes after the old transactions in order, expenses are untouched, and earnings grow by the batch's earnings |
| `App.Session.AddExpense` | App.tsx:52-59 | the expense list grows by exactly the new record at the end, transactions are untouched, and profit drops by the amount |
| `App.Session.RemoveTransaction` | App.tsx:61-63 | the transaction store becomes the filtered store and expenses are untouched; profit stays the same when no removed entry is a delivery charge |
| `App.Session.RemoveExpense` | App.tsx:65-67 | the expense store becomes the filtered store and transactions are untouched |
| `App.Session.ClearAll` | App.tsx:69-74 | when confirmed, both stores are empty and all totals are 0; when not confirmed, both stores are unchanged |
| `ExpenseInput.Validate` | components/ExpenseInput.tsx:15-16 | an entry is accepted if and only if the description is non-empty and the parsed amount is a number greater than 0; the accepted amount is the parsed one |
| `ExpenseInput.ValidateRejects` | components/ExpenseInput.tsx:16 | an empty description, NaN, 0 and negative amounts are all rejected |
| `ExpenseInput.ExpenseForm.constructor` | components/ExpenseInput.tsx:10-11 | both fields start empty |
| `ExpenseInput.ExpenseForm.Submit` | components/ExpenseInput.tsx:13-21 | `onAdd` is called exactly when the guard accepts, and then gets the entered description and parsed amount, and both fields are cleared; on rejection the fields and the stores are unchanged; transactions are never touched; if every stored expense was valid, every one still is |

## Left out

- The call to the extraction service is not modelled: the prompt, the response schema, `generateContent`, `JSON.parse` and the error it raises (services/geminiService.ts:5-61, 67-70). It is a network call into a foreign library. An extraction is modelled as its result, a sequence of `Extracted` items.
- The object spread `...item` copies any extra fields the service returns. Only the four declared fields are modelled. An item whose type is missing would make `toLowerCase` throw, and the service's schema rules that out.
- The file upload is not modelled: `FileReader`, base64 splitting, and the `isLoading`/`error` flags (App.tsx:27-50). These are asynchronous I/O and UI flags. `LedgerState` declares both flags, but no operation updates them.
- Expense ids come from `Math.random()` (App.tsx:54). That is nondeterministic and the ids are not guaranteed unique, so the id is a parameter of `AddExpense` and `Submit`.
- `window.confirm` (App.tsx:70) is user interaction; it is the `confirmed` parameter of `ClearAll`.
- `parseFloat` and floating point are not modelled (components/ExpenseInput.tsx:15). The parser is a parameter of type `string -> Option<real>`, with `None` standing for NaN. Infinity, which passes the `> 0` check, has no counterpart. Sums are exact, with no rounding.
- `toLowerCase` is modelled on ASCII letters only; Unicode case mapping is not.
- The form's `onChange` setters and `preventDefault` are not modelled. They are UI plumbing.
- components/SummaryCards.tsx and components/TransactionTable.tsx are pure presentation, including the `getTypeBadge` display switch.
