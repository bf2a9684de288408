/** Client scenarios: what a caller of the ledger can conclude from the
    contracts alone, on small concrete ledgers. */
module Scenarios {
  import opened Wrappers
  import opened Types
  import opened Sequences
  import opened Store
  import opened ExpenseSummary

  /** Two expenses on one day: both are that day's expenses, in insertion
      order, and the month's total is their sum. */
  method SameDayScenario() {
    var store := new BudgetStore();
    var day := CalendarDate(2024, 2, 5);
    var a := Expense("a", day, "lunch", 20.0, "food");
    var b := Expense("b", day, "bus pass", 30.0, "other");
    store.AddExpense(a);
    store.AddExpense(b);
    assert store.expenses == [a, b];
    FilterAll(store.expenses, OnDay(day));
    FilterAll(store.expenses, InMonth(2, 2024));
    assert store.GetDailyExpenses(day) == [a, b];
    assert MonthlyExpenses(store.expenses, 2, 2024) == [a, b];
    assert [a, b][..1] == [a] && [a][..0] == [];
    assert SumAmounts([a]) == 20.0;
    assert store.GetTotalExpenses(2, 2024) == 50.0;
  }

  /** Two budgets for one month leave one budget with the later amount; a
      month without a budget looks up to none. */
  method BudgetScenario() {
    var store := new BudgetStore();
    store.SetBudget(MonthlyBudget(500.0, 2, 2024));
    store.SetBudget(MonthlyBudget(600.0, 2, 2024));
    assert store.GetMonthlyBudget(2, 2024) == Some(MonthlyBudget(600.0, 2, 2024));
    assert |store.budgets| == 1;
    assert store.GetMonthlyBudget(5, 2024) == None;
  }

  /** Deleting the same id twice removes one expense once. */
  method DeleteScenario(a: Expense, b: Expense)
    requires a.id != b.id
  {
    var store := new BudgetStore();
    store.AddExpense(a);
    store.AddExpense(b);
    assert store.expenses == [a, b];
    DeleteRemovesOne([a, b], 0);
    assert [a, b][..0] + [a, b][1..] == [b];
    store.DeleteExpense(a.id);
    assert store.expenses == [b];
    assert !HasId([b], a.id);
    DeleteAbsent([b], a.id);
    store.DeleteExpense(a.id);
    assert store.expenses == [b];
  }

  /** Expenses on either side of a month boundary land in different months. */
  lemma MonthBoundary()
    ensures var late := Expense("x", CalendarDate(2024, 1, 28), "late", 1.0, "food");
            var early := Expense("y", CalendarDate(2024, 2, 1), "early", 2.0, "food");
            MonthlyExpenses([late, early], 1, 2024) == [late]
            && MonthlyExpenses([late, early], 2, 2024) == [early]
  {
  }
}
