/** The in-memory budget ledger of `lib/store.ts`: two ordered collections,
    expenses and budgets, their four mutators and four linear-scan queries. */
module Store {
  import opened Wrappers
  import opened Types
  import opened Sequences

  // ---------------------------------------------------------------------------
  // Updating expenses

  /** `Partial<Expense>`: each field is either present (`Some`) or absent. */
  datatype ExpensePatch = ExpensePatch(
    id: Option<string>,
    date: Option<CalendarDate>,
    description: Option<string>,
    amount: Option<real>,
    category: Option<string>)

  const NoChanges := ExpensePatch(None, None, None, None, None)

  function Override<T>(patch: Option<T>, own: T): T {
    match patch
    case Some(v) => v
    case None => own
  }

  /** `{ ...expense, ...patch }`: the patch's present fields over the expense's own. */
  function Merge(e: Expense, p: ExpensePatch): Expense {
    Expense(
      Override(p.id, e.id),
      Override(p.date, e.date),
      Override(p.description, e.description),
      Override(p.amount, e.amount),
      Override(p.category, e.category))
  }

  /** A patch that names a field sets it; a field the patch leaves out keeps its value. */
  lemma MergeFields(e: Expense, p: ExpensePatch)
    ensures Merge(e, p).amount == if p.amount.Some? then p.amount.value else e.amount
    ensures Merge(e, p).id == if p.id.Some? then p.id.value else e.id
    ensures Merge(e, p).date == if p.date.Some? then p.date.value else e.date
    ensures Merge(e, p).description == if p.description.Some? then p.description.value else e.description
    ensures Merge(e, p).category == if p.category.Some? then p.category.value else e.category
    ensures Merge(e, NoChanges) == e
    ensures Merge(Merge(e, p), p) == Merge(e, p)
  {
  }

  /** `expenses.map(e => e.id === id ? { ...e, ...patch } : e)`. */
  function UpdateWhere(s: seq<Expense>, id: string, p: ExpensePatch): (r: seq<Expense>)
    ensures |r| == |s|
    ensures forall i :: 0 <= i < |s| ==> r[i] == if s[i].id == id then Merge(s[i], p) else s[i]
  {
    if s == [] then []
    else UpdateWhere(s[..|s| - 1], id, p) + [if s[|s| - 1].id == id then Merge(s[|s| - 1], p) else s[|s| - 1]]
  }

  predicate HasId(s: seq<Expense>, id: string) {
    exists i :: 0 <= i < |s| && s[i].id == id
  }

  /** Updating an id that no expense carries changes nothing. */
  lemma {:induction false} UpdateAbsent(s: seq<Expense>, id: string, p: ExpensePatch)
    requires !HasId(s, id)
    ensures UpdateWhere(s, id, p) == s
  {
    if s != [] {
      assert !HasId(s[..|s| - 1], id);
      UpdateAbsent(s[..|s| - 1], id, p);
    }
  }

  /** Applying the same update twice is applying it once, even when the patch
      rewrites the id. */
  lemma UpdateIdempotent(s: seq<Expense>, id: string, p: ExpensePatch)
    ensures UpdateWhere(UpdateWhere(s, id, p), id, p) == UpdateWhere(s, id, p)
  {
    var once := UpdateWhere(s, id, p);
    var twice := UpdateWhere(once, id, p);
    forall i | 0 <= i < |s|
      ensures twice[i] == once[i]
    {
      MergeFields(s[i], p);
    }
  }

  // ---------------------------------------------------------------------------
  // Selecting expenses

  /** The test kept by `deleteExpense`. */
  function IdIsNot(id: string): Expense -> bool {
    (e: Expense) => e.id != id
  }

  /** The test of `getMonthlyExpenses`: calendar month and year, day ignored. */
  function InMonth(month: int, year: int): Expense -> bool {
    (e: Expense) => e.date.month == month && e.date.year == year
  }

  /** The test of `getDailyExpenses`: day, month and year all equal. */
  function OnDay(d: CalendarDate): Expense -> bool {
    (e: Expense) => e.date.day == d.day && e.date.month == d.month && e.date.year == d.year
  }

  /** `expenses.filter(e => e.id !== id)`. */
  function Delete(s: seq<Expense>, id: string): (r: seq<Expense>)
    ensures forall k :: 0 <= k < |r| ==> r[k].id != id
    ensures forall i :: 0 <= i < |s| && s[i].id != id ==> s[i] in r
  {
    FilterMembers(s, IdIsNot(id));
    Filter(s, IdIsNot(id))
  }

  /** Deleting an id that no expense carries changes nothing. */
  lemma DeleteAbsent(s: seq<Expense>, id: string)
    requires !HasId(s, id)
    ensures Delete(s, id) == s
  {
    FilterAll(s, IdIsNot(id));
  }

  /** Deleting twice is deleting once. */
  lemma DeleteIdempotent(s: seq<Expense>, id: string)
    ensures Delete(Delete(s, id), id) == Delete(s, id)
  {
    FilterIdempotent(s, IdIsNot(id));
  }

  predicate UniqueIds(s: seq<Expense>) {
    forall i, j :: 0 <= i < j < |s| ==> s[i].id != s[j].id
  }

  /** With unique ids, deleting the id of entry `i` removes exactly that entry. */
  lemma DeleteRemovesOne(s: seq<Expense>, i: nat)
    requires UniqueIds(s)
    requires i < |s|
    ensures Delete(s, s[i].id) == s[..i] + s[i + 1..]
  {
    var id, keep := s[i].id, IdIsNot(s[i].id);
    var before, after := s[..i], s[i + 1..];
    assert s == (before + [s[i]]) + after;
    FilterAppend(before + [s[i]], after, keep);
    assert Filter(before + [s[i]], keep) == Filter(before, keep) by {
      assert (before + [s[i]])[..i] == before;
    }
    assert forall k :: 0 <= k < |before| ==> keep(before[k]) by {
      forall k | 0 <= k < |before| ensures keep(before[k]) {
        assert before[k] == s[k];
      }
    }
    FilterAll(before, keep);
    assert forall k :: 0 <= k < |after| ==> keep(after[k]) by {
      forall k | 0 <= k < |after| ensures keep(after[k]) {
        assert after[k] == s[i + 1 + k];
      }
    }
    FilterAll(after, keep);
  }

  /** `getMonthlyExpenses`: the order-preserving subsequence of the expenses in
      the given month and year. */
  function MonthlyExpenses(s: seq<Expense>, month: int, year: int): (r: seq<Expense>)
    ensures forall k :: 0 <= k < |r| ==> r[k] in s && r[k].date.month == month && r[k].date.year == year
    ensures forall i :: 0 <= i < |s| && s[i].date.month == month && s[i].date.year == year ==> s[i] in r
  {
    FilterMembers(s, InMonth(month, year));
    Filter(s, InMonth(month, year))
  }

  /** `getDailyExpenses`: the order-preserving subsequence of the expenses on
      the given calendar day. */
  function DailyExpenses(s: seq<Expense>, d: CalendarDate): (r: seq<Expense>)
    ensures forall k :: 0 <= k < |r| ==> r[k] in s && r[k].date.day == d.day && r[k].date.month == d.month && r[k].date.year == d.year
    ensures forall i :: 0 <= i < |s| && s[i].date.day == d.day && s[i].date.month == d.month && s[i].date.year == d.year ==> s[i] in r
  {
    FilterMembers(s, OnDay(d));
    Filter(s, OnDay(d))
  }

  /** A day's expenses are a subsequence of that day's month's expenses. */
  lemma DailyWithinMonthly(s: seq<Expense>, d: CalendarDate)
    ensures DailyExpenses(s, d) == Filter(MonthlyExpenses(s, d.month, d.year), OnDay(d))
  {
    FilterNarrow(s, OnDay(d), InMonth(d.month, d.year));
  }

  // ---------------------------------------------------------------------------
  // Totals

  /** `reduce((total, e) => total + e.amount, 0)`, folding from the left. */
  function SumAmounts(s: seq<Expense>): real {
    if s == [] then 0.0 else SumAmounts(s[..|s| - 1]) + s[|s| - 1].amount
  }

  lemma {:induction false} SumAppend(s: seq<Expense>, t: seq<Expense>)
    ensures SumAmounts(s + t) == SumAmounts(s) + SumAmounts(t)
    decreases |t|
  {
    if t == [] {
      assert s + t == s;
    } else {
      assert (s + t)[..|s + t| - 1] == s + t[..|t| - 1];
      SumAppend(s, t[..|t| - 1]);
    }
  }

  lemma {:induction false} SumNonNegative(s: seq<Expense>)
    requires forall i :: 0 <= i < |s| ==> s[i].amount >= 0.0
    ensures SumAmounts(s) >= 0.0
  {
    if s != [] {
      SumNonNegative(s[..|s| - 1]);
    }
  }

  /** `getTotalExpenses`: the sum of the month's amounts; 0 for an empty month. */
  function MonthlyTotal(s: seq<Expense>, month: int, year: int): (r: real)
    ensures MonthlyExpenses(s, month, year) == [] ==> r == 0.0
  {
    SumAmounts(MonthlyExpenses(s, month, year))
  }

  /** With no negative amounts recorded, no month's total is negative. */
  lemma MonthlyTotalNonNegative(s: seq<Expense>, month: int, year: int)
    ensures (forall i :: 0 <= i < |s| ==> s[i].amount >= 0.0) ==> MonthlyTotal(s, month, year) >= 0.0
  {
    if forall i :: 0 <= i < |s| ==> s[i].amount >= 0.0 {
      SumNonNegative(MonthlyExpenses(s, month, year));
    }
  }

  /** Adding an expense raises the total of its own month by exactly its amount
      and leaves every other month's total unchanged. */
  lemma TotalAfterAdd(s: seq<Expense>, e: Expense, month: int, year: int)
    ensures MonthlyTotal(s + [e], month, year)
         == MonthlyTotal(s, month, year) + (if e.date.month == month && e.date.year == year then e.amount else 0.0)
  {
    FilterSnoc(s, e, InMonth(month, year));
    SumAppend(MonthlyExpenses(s, month, year), if InMonth(month, year)(e) then [e] else []);
  }

  // ---------------------------------------------------------------------------
  // Budgets

  predicate HasKey(b: MonthlyBudget, month: int, year: int) {
    b.month == month && b.year == year
  }

  /** `findIndex` on the budget key: the first position holding that (month, year). */
  function FindBudgetIndex(bs: seq<MonthlyBudget>, month: int, year: int): (r: Option<nat>)
    ensures r.Some? ==> r.value < |bs| && HasKey(bs[r.value], month, year)
    ensures r.Some? ==> forall j :: 0 <= j < r.value ==> !HasKey(bs[j], month, year)
    ensures r.None? ==> forall j :: 0 <= j < |bs| ==> !HasKey(bs[j], month, year)
  {
    if bs == [] then None
    else if HasKey(bs[0], month, year) then Some(0)
    else match FindBudgetIndex(bs[1..], month, year)
      case None => None
      case Some(i) => Some(i + 1)
  }

  /** `getMonthlyBudget`: the first budget with that key, or none. */
  function LookupBudget(bs: seq<MonthlyBudget>, month: int, year: int): (r: Option<MonthlyBudget>)
    ensures r.None? <==> forall j :: 0 <= j < |bs| ==> !HasKey(bs[j], month, year)
    ensures r.Some? ==> exists i :: 0 <= i < |bs| && bs[i] == r.value && HasKey(bs[i], month, year)
                                    && forall j :: 0 <= j < i ==> !HasKey(bs[j], month, year)
  {
    match FindBudgetIndex(bs, month, year)
    case Some(i) => Some(bs[i])
    case None => None
  }

  /** `setBudget` on the collection: replace the first budget with the same key
      in place, or append when there is none. */
  function WithBudget(bs: seq<MonthlyBudget>, b: MonthlyBudget): (r: seq<MonthlyBudget>)
    ensures FindBudgetIndex(bs, b.month, b.year).Some? ==>
      var i := FindBudgetIndex(bs, b.month, b.year).value;
      |r| == |bs| && r[i] == b && forall j :: 0 <= j < |bs| && j != i ==> r[j] == bs[j]
    ensures FindBudgetIndex(bs, b.month, b.year).None? ==> r == bs + [b]
  {
    match FindBudgetIndex(bs, b.month, b.year)
    case Some(i) => bs[i := b]
    case None => bs + [b]
  }

  /** At most one budget per (month, year). */
  predicate UniqueKeys(bs: seq<MonthlyBudget>) {
    forall i, j :: 0 <= i < j < |bs| ==> !HasKey(bs[j], bs[i].month, bs[i].year)
  }

  /** After `setBudget(b)` the lookup for b's key returns b. */
  lemma WithBudgetFound(bs: seq<MonthlyBudget>, b: MonthlyBudget)
    ensures LookupBudget(WithBudget(bs, b), b.month, b.year) == Some(b)
  {
    var r := WithBudget(bs, b);
    match FindBudgetIndex(bs, b.month, b.year)
    case Some(i) =>
      assert r[i] == b;
      assert FindBudgetIndex(r, b.month, b.year) == Some(i) by {
        FindFirst(r, b.month, b.year, i);
      }
    case None =>
      assert r[|bs|] == b;
      FindFirst(r, b.month, b.year, |bs|);
  }

  /** The first position holding a key is what `findIndex` returns. */
  lemma {:induction false} FindFirst(bs: seq<MonthlyBudget>, month: int, year: int, i: nat)
    requires i < |bs| && HasKey(bs[i], month, year)
    requires forall j :: 0 <= j < i ==> !HasKey(bs[j], month, year)
    ensures FindBudgetIndex(bs, month, year) == Some(i)
  {
    if i > 0 {
      FindFirst(bs[1..], month, year, i - 1);
    }
  }

  /** `setBudget(b)` does not change what any other key looks up. */
  lemma WithBudgetOthers(bs: seq<MonthlyBudget>, b: MonthlyBudget, month: int, year: int)
    requires !HasKey(b, month, year)
    ensures LookupBudget(WithBudget(bs, b), month, year) == LookupBudget(bs, month, year)
  {
    var r := WithBudget(bs, b);
    match FindBudgetIndex(bs, month, year)
    case Some(i) =>
      FindFirst(r, month, year, i);
    case None =>
      assert LookupBudget(r, month, year).None?;
  }

  /** The amount takes no part in the key: changing the amount of any stored
      budget changes no lookup position. */
  lemma {:induction false} FindIgnoresAmount(bs: seq<MonthlyBudget>, i: nat, amount: real, month: int, year: int)
    requires i < |bs|
    ensures FindBudgetIndex(bs[i := bs[i].(amount := amount)], month, year) == FindBudgetIndex(bs, month, year)
  {
    if i > 0 {
      FindIgnoresAmount(bs[1..], i - 1, amount, month, year);
      assert bs[i := bs[i].(amount := amount)][1..] == bs[1..][i - 1 := bs[i].(amount := amount)];
    }
  }

  /** `setBudget` keeps budget keys unique. */
  lemma WithBudgetUnique(bs: seq<MonthlyBudget>, b: MonthlyBudget)
    requires UniqueKeys(bs)
    ensures UniqueKeys(WithBudget(bs, b))
  {
  }

  /** Setting two budgets for the same key leaves the collection as if only the
      later had been set: one entry for the key, holding the later amount. */
  lemma WithBudgetTwice(bs: seq<MonthlyBudget>, b1: MonthlyBudget, b2: MonthlyBudget)
    requires b1.month == b2.month && b1.year == b2.year
    ensures WithBudget(WithBudget(bs, b1), b2) == WithBudget(bs, b2)
  {
    var r := WithBudget(bs, b1);
    match FindBudgetIndex(bs, b1.month, b1.year)
    case Some(i) =>
      FindFirst(r, b1.month, b1.year, i);
    case None =>
      FindFirst(r, b1.month, b1.year, |bs|);
  }

  // ---------------------------------------------------------------------------
  // The store

  /** The ledger: an explicitly constructed instance starting empty. */
  class BudgetStore {
    var expenses: seq<Expense>
    var budgets: seq<MonthlyBudget>

    constructor ()
      ensures expenses == [] && budgets == []
    {
      expenses := [];
      budgets := [];
    }

    /** `addExpense`: append; no check that the id is new. */
    method AddExpense(expense: Expense)
      modifies this
      ensures expenses == old(expenses) + [expense]
      ensures budgets == old(budgets)
    {
      expenses := expenses + [expense];
    }

    /** `updateExpense`: merge the patch into every expense with that id. */
    method UpdateExpense(id: string, patch: ExpensePatch)
      modifies this
      ensures |expenses| == |old(expenses)|
      ensures forall i :: 0 <= i < |expenses| ==>
        expenses[i] == if old(expenses)[i].id == id then Merge(old(expenses)[i], patch) else old(expenses)[i]
      ensures !HasId(old(expenses), id) ==> expenses == old(expenses)
      ensures budgets == old(budgets)
    {
      if !HasId(expenses, id) {
        UpdateAbsent(expenses, id, patch);
      }
      expenses := UpdateWhere(expenses, id, patch);
    }

    /** `deleteExpense`: keep every expense whose id differs. */
    method DeleteExpense(id: string)
      modifies this
      ensures expenses == Delete(old(expenses), id)
      ensures !HasId(old(expenses), id) ==> expenses == old(expenses)
      ensures budgets == old(budgets)
    {
      if !HasId(expenses, id) {
        DeleteAbsent(expenses, id);
      }
      expenses := Delete(expenses, id);
    }

    /** `setBudget`: upsert by (month, year). */
    method SetBudget(budget: MonthlyBudget)
      modifies this
      ensures budgets == WithBudget(old(budgets), budget)
      ensures LookupBudget(budgets, budget.month, budget.year) == Some(budget)
      ensures UniqueKeys(old(budgets)) ==> UniqueKeys(budgets)
      ensures expenses == old(expenses)
    {
      var existing := FindBudgetIndex(budgets, budget.month, budget.year);
      if existing.Some? {
        var updated := budgets;
        updated := updated[existing.value := budget];
        budgets := updated;
      } else {
        budgets := budgets + [budget];
      }
      WithBudgetFound(old(budgets), budget);
      if UniqueKeys(old(budgets)) {
        WithBudgetUnique(old(budgets), budget);
      }
    }

    function GetMonthlyBudget(month: int, year: int): (r: Option<MonthlyBudget>)
      reads this
      ensures r.None? <==> forall j :: 0 <= j < |budgets| ==> !HasKey(budgets[j], month, year)
      ensures r.Some? ==> r.value in budgets && HasKey(r.value, month, year)
      ensures r == LookupBudget(budgets, month, year)
    {
      LookupBudget(budgets, month, year)
    }

    function GetMonthlyExpenses(month: int, year: int): (r: seq<Expense>)
      reads this
      ensures forall k :: 0 <= k < |r| ==> r[k] in expenses && r[k].date.month == month && r[k].date.year == year
      ensures forall i :: 0 <= i < |expenses| && expenses[i].date.month == month && expenses[i].date.year == year ==> expenses[i] in r
      ensures r == MonthlyExpenses(expenses, month, year)
    {
      MonthlyExpenses(expenses, month, year)
    }

    function GetDailyExpenses(date: CalendarDate): (r: seq<Expense>)
      reads this
      ensures forall k :: 0 <= k < |r| ==> r[k] in GetMonthlyExpenses(date.month, date.year) && r[k].date.day == date.day
      ensures forall i :: 0 <= i < |expenses| && expenses[i].date == date ==> expenses[i] in r
    {
      DailyWithinMonthly(expenses, date);
      DailyExpenses(expenses, date)
    }

    function GetTotalExpenses(month: int, year: int): (r: real)
      reads this
      ensures GetMonthlyExpenses(month, year) == [] ==> r == 0.0
      ensures (forall i :: 0 <= i < |expenses| ==> expenses[i].amount >= 0.0) ==> r >= 0.0
    {
      MonthlyTotalNonNegative(expenses, month, year);
      MonthlyTotal(expenses, month, year)
    }
  }
}
