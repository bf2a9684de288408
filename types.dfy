/** The data shapes of the ledger (`lib/types.ts`): expense and budget records,
    the closed set of category tags, the category list and the colour table. */
module Types {

  /** A calendar date as the ledger observes it through `getFullYear`,
      `getMonth` (zero-based, 0..11) and `getDate` (day of the month).
      Time of day and time zone play no part in any query. */
  datatype CalendarDate = CalendarDate(year: int, month: int, day: int)

  /** An expense record. The category is an unconstrained string, as in the
      original type: nothing forces it to be one of the ten category tags. */
  datatype Expense = Expense(
    id: string,
    date: CalendarDate,
    description: string,
    amount: real,
    category: string)

  /** A monthly budget; `(month, year)` is its key and `amount` is its payload. */
  datatype MonthlyBudget = MonthlyBudget(amount: real, month: int, year: int)

  /** The string-literal union `ExpenseCategory`. */
  predicate IsExpenseCategory(s: string) {
    || s == "food" || s == "transportation" || s == "entertainment"
    || s == "shopping" || s == "utilities" || s == "housing" || s == "health"
    || s == "education" || s == "travel" || s == "other"
  }

  type ExpenseCategory = s: string | IsExpenseCategory(s) witness "food"

  /** `EXPENSE_CATEGORIES`: the categories in the order the summary uses. */
  const ExpenseCategories: seq<ExpenseCategory> := [
    "food", "transportation", "entertainment", "shopping", "utilities",
    "housing", "health", "education", "travel", "other"
  ]

  /** `CATEGORY_COLORS`: a display class for each category (the lemma
      `CategoryColorsTotal` shows the keys are exactly the ten categories). */
  const CategoryColors: map<string, string> := map[
    "food" := "bg-red-200 text-red-800",
    "transportation" := "bg-blue-200 text-blue-800",
    "entertainment" := "bg-purple-200 text-purple-800",
    "shopping" := "bg-pink-200 text-pink-800",
    "utilities" := "bg-yellow-200 text-yellow-800",
    "housing" := "bg-green-200 text-green-800",
    "health" := "bg-teal-200 text-teal-800",
    "education" := "bg-indigo-200 text-indigo-800",
    "travel" := "bg-orange-200 text-orange-800",
    "other" := "bg-gray-200 text-gray-800"
  ]

  /** The category list enumerates the union type: ten entries, no repeats,
      and every member of the union among them. */
  lemma CategoriesListedOnce()
    ensures |ExpenseCategories| == 10
    ensures forall i, j :: 0 <= i < j < |ExpenseCategories| ==> ExpenseCategories[i] != ExpenseCategories[j]
    ensures forall s :: IsExpenseCategory(s) <==> s in ExpenseCategories
  {
  }

  /** Every category has a colour class, and nothing else has one. */
  lemma CategoryColorsTotal()
    ensures forall s :: s in CategoryColors <==> IsExpenseCategory(s)
  {
  }

  /** Distinct categories have distinct colour classes. */
  lemma CategoryColorsDistinct()
    ensures forall c, d :: c in CategoryColors && d in CategoryColors && c != d ==> CategoryColors[c] != CategoryColors[d]
  {
  }
}
