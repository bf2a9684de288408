# Budget ledger model

A Dafny model of the in-memory budget ledger of the money-planner expense
tracker, and of the per-category breakdown that its summary chart draws from
the ledger.

- `types.dfy` (module `Types`, from `lib/types.ts`): the `Expense` and
  `MonthlyBudget` records, the string union `ExpenseCategory` (a subset type of
  `string`), the list `EXPENSE_CATEGORIES` and the map `CATEGORY_COLORS`.
  `Expense.category` stays an unconstrained `string`, as in the source.
- `store.dfy` (module `Store`, from `lib/store.ts`): the class `BudgetStore`.
  Its fields `expenses` and `budgets` are sequences. The methods `AddExpense`,
  `UpdateExpense`, `DeleteExpense` and `SetBudget` reassign those fields. The
  reads `GetMonthlyBudget`, `GetMonthlyExpenses`, `GetDailyExpenses` and
  `GetTotalExpenses` are functions. Each operation is specified by a pure
  function on sequences (`UpdateWhere`, `Delete`, `WithBudget`,
  `LookupBudget`, `MonthlyExpenses`, `DailyExpenses`, `MonthlyTotal`), and the
  lemmas about those functions carry the laws: no-op on an absent id,
  idempotence, upsert-by-key, key uniqueness, subsequence, and the sum.
- `summary.dfy` (module `ExpenseSummary`, from `components/expense-summary.tsx`):
  the `categoryData` computation.
  - The two `forEach` loops become the methods `InitialTotals` and
    `CategoryTotals`. They work on the record `categoryTotals`, modelled as an
    insertion-ordered list of properties.
  - The `filter`/`map` step becomes the function `ChartData`.
  - `Breakdown` is an independent statement of the expected result. The method
    `CategoryBreakdown` is proved equal to it.
  - The main law: with no negative amounts and only known categories, the
    slices add up to the store's monthly total.
- `sequences.dfy` (module `Sequences`): order-preserving `Filter`, the model of
  `Array.prototype.filter`, with the index characterisation `KeptIndices`.
- `wrappers.dfy` (module `Wrappers`): `Option`, for `undefined` results and
  for the fields of a partial record.
- `scenarios.dfy` (module `Scenarios`): client-side uses of the store's
  contracts on small concrete ledgers.

Representation choices:
- A date is `CalendarDate(year, month, day)`, with `month` zero-based. These
  are the three things the store reads through `getFullYear`, `getMonth` and
  `getDate`.
- Amounts are exact `real`s.
- A partial expense is `ExpensePatch`: one `Option` per field. The `id` field
  is included, since `{ ...expense, ...patch }` lets a patch rewrite it.
- A property of `categoryTotals` holds either a number or `NaN`, where the
  model's `NaN` stands for any value that is not a number.
  - For an ordinary name that was never set, the read yields `undefined`, and
    `undefined + amount` is NaN. So an expense whose category is outside the
    ten leaves a NaN property.
  - For a name inherited from `Object.prototype` (`toString`, `valueOf`,
    `constructor`, `hasOwnProperty`, …), the read yields a function, and
    `+= amount` stores a string. That is not a number either.
  - Neither NaN nor such a string passes `value > 0`, so such a property never
    reaches the chart.

Where a reader might expect otherwise, the model follows the code:
- `updateExpense` patches every expense carrying the id, not only one.
- `deleteExpense` removes every expense carrying the id.
  `Store.DeleteRemovesOne` shows that this is exactly one when ids are unique.
- The category of an expense is any string, not one of the ten.

## Model

| member | source | states |
|---|---|---|
| `Types.CategoriesListedOnce` | lib/types.ts:15-38 | the category list has ten entries, no two equal, and a string is in it exactly when it belongs to the `ExpenseCategory` union |
| `Types.CategoryColorsTotal` | lib/types.ts:40-51 | the colour table's keys are exactly the ten categories: every category has a colour class and nothing else has one |
| `Types.CategoryColorsDistinct` | lib/types.ts:40-51 | distinct categories have distinct colour classes |
| `Sequences.Filter` | lib/store.ts:36-39 | the result is no longer than the input |
| `Sequences.FilterMembers` | lib/store.ts:36-39 | filtering keeps exactly the elements that pass the test: every kept element comes from the input and passes, and every passing element is kept |
| `Sequences.FilterSnoc` | lib/store.ts:62-69 | filtering a sequence extended by one element is filtering the old sequence, then adding the new element exactly when it passes |
| `Sequences.FilterAt` | lib/store.ts:62-81 | the filtered sequence is the input read at the increasing positions of all passing elements, so it preserves order and drops nothing that passes |
| `Sequences.KeptIndices` | lib/store.ts:62-81 | the positions of the passing elements, strictly increasing, each in range, none missing |
| `Sequences.FilterNarrow` | lib/store.ts:71-81 | filtering by a stronger test equals filtering the result of a weaker test, so the narrower result is a subsequence of the wider one |
| `Store.MergeFields` | lib/store.ts:32 | each field present in the patch is set, each absent field is kept; the empty patch changes nothing; merging twice equals merging once |
| `Store.UpdateWhere` | lib/store.ts:29-34 | same length; every entry with the id becomes the merged entry; every other entry is unchanged |
| `Store.UpdateAbsent` | lib/store.ts:29-34 | updating an id no expense carries leaves the sequence unchanged |
| `Store.UpdateIdempotent` | lib/store.ts:29-34 | applying the same update twice equals applying it once, even when the patch rewrites the id |
| `Store.Delete` | lib/store.ts:36-39 | no survivor carries the id, and every expense with another id survives |
| `Store.DeleteAbsent` | lib/store.ts:36-39 | deleting an absent id changes nothing |
| `Store.DeleteIdempotent` | lib/store.ts:36-39 | deleting twice equals deleting once |
| `Store.DeleteRemovesOne` | lib/store.ts:36-39 | with unique ids, deleting the id at position i removes exactly that entry and keeps the rest in order |
| `Store.MonthlyExpenses` | lib/store.ts:62-69 | the result holds exactly the expenses whose month and year both match; the day is ignored |
| `Store.DailyExpenses` | lib/store.ts:71-81 | the result holds exactly the expenses matching on day, month and year |
| `Store.DailyWithinMonthly` | lib/store.ts:62-81 | a day's expenses are the day-filter of that month's expenses, hence a subsequence of them |
| `Store.SumAppend` | lib/store.ts:85-88 | the left-fold sum of amounts distributes over concatenation |
| `Store.MonthlyTotal` | lib/store.ts:83-89 | the total is 0 when the month has no expenses |
| `Store.MonthlyTotalNonNegative` | lib/store.ts:83-89 | with no negative amount recorded, no month's total is negative |
| `Store.TotalAfterAdd` | lib/store.ts:83-89 | appending an expense dated in (m, y) raises that month's total by its amount; other months' totals do not change |
| `Store.FindBudgetIndex` | lib/store.ts:43-45 | returns the first position whose (month, year) equals the key, or none when no budget has that key |
| `Store.FindIgnoresAmount` | lib/store.ts:43-45 | changing the amount of a stored budget changes no key lookup, so the amount is not part of the key |
| `Store.LookupBudget` | lib/store.ts:56-60 | returns none exactly when no budget has the key; otherwise it returns the budget at the first position with the key |
| `Store.WithBudget` | lib/store.ts:41-54 | with an existing key, replaces the first entry with that key in place and keeps the length; otherwise appends |
| `Store.FindFirst` | lib/store.ts:43-45 | the first position holding a key is the position the search returns |
| `Store.WithBudgetFound` | lib/store.ts:41-60 | after the upsert, the lookup of the budget's key returns that budget |
| `Store.WithBudgetOthers` | lib/store.ts:41-60 | the upsert leaves the lookup of every other key unchanged |
| `Store.WithBudgetUnique` | lib/store.ts:41-54 | if keys were unique before the upsert, they are unique after it |
| `Store.WithBudgetTwice` | lib/store.ts:41-54 | two upserts with the same key equal the second one alone: one entry for the key, holding the later amount |
| `Store.BudgetStore.constructor` | lib/store.ts:20-22 | the store starts with no expenses and no budgets |
| `Store.BudgetStore.AddExpense` | lib/store.ts:24-27 | the expense is appended; earlier entries keep their positions; budgets are untouched |
| `Store.BudgetStore.UpdateExpense` | lib/store.ts:29-34 | same length and order; entries with the id get the patch merged over their own fields; others unchanged; absent id changes nothing; budgets untouched |
| `Store.BudgetStore.DeleteExpense` | lib/store.ts:36-39 | expenses become the order-preserving filter of the old ones by "id differs"; absent id changes nothing; budgets untouched |
| `Store.BudgetStore.SetBudget` | lib/store.ts:41-54 | budgets become the upsert of the old ones; the new budget is what its key now looks up; unique keys stay unique; expenses untouched |
| `Store.BudgetStore.GetMonthlyBudget` | lib/store.ts:56-60 | none exactly when no budget has the key; otherwise a stored budget with that key, namely the first one, as `LookupBudget` states |
| `Store.BudgetStore.GetMonthlyExpenses` | lib/store.ts:62-69 | exactly the stored expenses with that month and year, in stored order, as the ordered filter `MonthlyExpenses` (see `Sequences.FilterAt`) |
| `Store.BudgetStore.GetDailyExpenses` | lib/store.ts:71-81 | every result lies in the same month's expenses and has the same day; every stored expense on that date is in the result |
| `Store.BudgetStore.GetTotalExpenses` | lib/store.ts:83-89 | 0 for a month with no expenses; never negative when no amount is negative |
| `Scenarios.MonthBoundary` | lib/store.ts:62-69 | expenses on 28 February and 1 March fall in different months |
| `ExpenseSummary.Put` | components/expense-summary.tsx:36 | assigning a property keeps property names distinct; an existing property keeps its place; a new one goes last; other properties are unchanged |
| `ExpenseSummary.GetAt` | components/expense-summary.tsx:41 | reading a property finds the one stored under that name |
| `ExpenseSummary.CategorySumAppend` | components/expense-summary.tsx:40-42 | counting one more expense adds its amount to its own category's sum and to no other |
| `ExpenseSummary.TotalsFor` | components/expense-summary.tsx:34-42 | one property per listed category, in list order, holding that category's sum |
| `ExpenseSummary.InitialTotals` | components/expense-summary.tsx:34-37 | the ten categories, in list order, each start at 0 |
| `ExpenseSummary.AccumulateStep` | components/expense-summary.tsx:40-42 | one `+=` step keeps every category's property equal to its running sum and every unknown key at a non-number (`NaN`) |
| `ExpenseSummary.AccumulatedHead` | components/expense-summary.tsx:34-42 | once all expenses are counted, the record's keys are distinct, its first ten properties are the category sums in list order, and every other property is an unknown category holding a non-number (`NaN`) |
| `ExpenseSummary.CategoryTotals` | components/expense-summary.tsx:31-42 | the first ten properties are the categories with their sums over the month; every later property is a name outside the ten holding a non-number (`NaN`); every unknown category used is present with a non-number |
| `ExpenseSummary.DisplayName` | components/expense-summary.tsx:48 | same length; everything after the first character unchanged; a lower-case first letter becomes its own capital (code point minus 32); any other first character stays as it is |
| `ExpenseSummary.DisplayNameInjective` | components/expense-summary.tsx:48 | two names starting with lower-case letters get equal display names only when they are equal |
| `ExpenseSummary.DisplayNamesDistinct` | components/expense-summary.tsx:48 | distinct categories get distinct display names |
| `ExpenseSummary.DisplayNameIdempotent` | components/expense-summary.tsx:48 | capitalising twice equals capitalising once |
| `ExpenseSummary.ChartData` | components/expense-summary.tsx:45-51 | every output value is positive, so NaN and zero totals are dropped |
| `ExpenseSummary.SlicesFor` | components/expense-summary.tsx:47-51 | one slice per listed category, holding its display name and its sum |
| `ExpenseSummary.ChartDataOfTotals` | components/expense-summary.tsx:45-51 | filtering and mapping the category properties gives the slices of exactly the categories with positive spending |
| `ExpenseSummary.CategoryBreakdown` | components/expense-summary.tsx:31-52 | the loops plus the filter/map equal the reference breakdown |
| `ExpenseSummary.BreakdownShape` | components/expense-summary.tsx:35-46 | the breakdown lists, in category-list order and at most once each, exactly the categories with positive sum, each with its display name and sum; all values positive |
| `ExpenseSummary.SumCategoriesSpent` | components/expense-summary.tsx:46 | with no negative amounts, dropping the categories with nothing spent does not change the sum of the category sums |
| `ExpenseSummary.SumCategoriesAppend` | components/expense-summary.tsx:40-42 | one more expense adds its amount to the sum of category sums exactly once when its category is listed once, and not at all otherwise |
| `ExpenseSummary.CategoriesCoverAll` | components/expense-summary.tsx:34-42 | when every expense's category appears once in a category list, that list's category sums add up to the sum of all amounts |
| `ExpenseSummary.SumValuesOfSlices` | components/expense-summary.tsx:47-51 | the slice values add up to the sums of their categories |
| `ExpenseSummary.BreakdownSumsToTotal` | components/expense-summary.tsx:31-52 | with no negative amounts and only known categories in the month, the breakdown's values add up to the month's total as the store computes it |
| `ExpenseSummary.SummaryData` | components/expense-summary.tsx:25-52 | the component's data for the month of the given date is the breakdown of the store's expenses of that month, and under the same conditions it adds up to the store's monthly total |

## Left out

- The zustand plumbing (`create`, `set`, `get`, subscriber notification). The store is a plain class with an explicit empty initial state. `persist` is imported but never applied, so there is no persistence to model.
- JavaScript `Date` construction and local-time-zone conversion. Dates are calendar triples, and nothing checks that a triple is a real date.
- Floating-point behaviour of amounts (rounding, `parseFloat`, `toFixed`, the tooltip percentage). Amounts are exact reals, so the sum laws hold exactly.
- `uuidv4` id generation. The store never checks ids; uniqueness appears only as a hypothesis (`UniqueIds`) where a lemma needs it.
- All React rendering: dialogs, toasts, the budget header and its `remaining`/`isOverBudget` display, the calendar grid, month navigation, page layout, and the summary's "render nothing for an empty month" branch.
- `getCategoryColor` and the `color` field of each chart entry. This is substring matching on class names, used only for drawing.
- `Store.ExpensePatch`: a patch property present but explicitly `undefined` is not modelled. In JavaScript it would overwrite the field with `undefined`; here a field is either present with a value or absent.
- `ExpenseSummary.ChartData`: JavaScript orders integer-like property names first in `Object.entries`. Such names could only come from unknown categories, and those hold NaN and are filtered out, so the output is unaffected.
- `ExpenseSummary.CategoryTotals`: the kind of non-number an unknown category leaves is not distinguished. A name inherited from `Object.prototype` (`toString`, `valueOf`, `constructor`, `hasOwnProperty`, `isPrototypeOf`, `propertyIsEnumerable`, `toLocaleString`, `__defineGetter__`, …) reads a function rather than `undefined`, so `+=` stores a string rather than NaN; the model's `NaN` covers both. For `__proto__`, the assignment of that string is ignored and no own property appears, whereas the model lists the key with `NaN`. None of these values passes `value > 0`, so the chart data is the same.
- `ExpenseSummary.DisplayName`: only the ASCII letters a-z are upper-cased; full Unicode `toUpperCase` is not modelled. Only the ten all-ASCII category names reach the chart.
