/**
 * What the expenses page derives from the store: the visible expenses
 * (description search and category filter, newest first), the spending and
 * budget totals, the remaining amount, and the draft built by the add form.
 */
module ExpensesPage {
  import opened Wrappers
  import Seqs
  import Text
  import Expenses
  import DashboardPage

  /** The filter callback of `filteredExpenses`. */
  function Shown(query: string, category: string): Expenses.Expense -> bool {
    (e: Expenses.Expense) => Text.IncludesIgnoringCase(e.description, query) && (category == "all" || category == e.category)
  }

  /** The sort callback: the latest date first. */
  function CompareExpenses(a: Expenses.Expense, b: Expenses.Expense): int {
    b.date - a.date
  }

  function ExpenseOrder(): (Expenses.Expense, Expenses.Expense) -> int {
    (a, b) => CompareExpenses(a, b)
  }

  /** `filteredExpenses`. */
  function FilteredExpenses(expenses: seq<Expenses.Expense>, query: string, category: string): seq<Expenses.Expense> {
    Seqs.SortBy(Seqs.Filter(expenses, Shown(query, category)), ExpenseOrder())
  }

  /** `totalThisMonth`: despite its name, the sum over every expense. */
  function TotalThisMonth(expenses: seq<Expenses.Expense>): real {
    Seqs.Sum(expenses, DashboardPage.Amount)
  }

  /** The remaining card: `Math.max(0, totalBudget - totalThisMonth)`. */
  function Remaining(totalBudget: real, spent: real): real {
    if totalBudget - spent > 0.0 then totalBudget - spent else 0.0
  }

  /**
   * `handleAddExpense`: nothing when the amount, category or description
   * field is empty (white space counts as filled); otherwise an untagged
   * expense dated now with the parsed amount.
   */
  function ExpenseFromForm(amount: string, category: string, description: string,
                           parseAmount: string -> real, now: int): Option<Expenses.ExpenseDraft>
  {
    if amount == "" || category == "" || description == "" then None
    else Some(Expenses.ExpenseDraft(parseAmount(amount), category, description, now, None, None, []))
  }

  /** The expense comparator is a consistent order. */
  lemma ExpenseOrderConsistent()
    ensures Seqs.Consistent(ExpenseOrder())
  {
  }

  /**
   * An expense is listed exactly when it is in the store, its description
   * contains the query, and the category filter admits it.
   */
  lemma FilteredExpensesMembers(expenses: seq<Expenses.Expense>, query: string, category: string, e: Expenses.Expense)
    ensures e in FilteredExpenses(expenses, query, category) <==>
      e in expenses && Text.IncludesIgnoringCase(e.description, query) && (category == "all" || category == e.category)
  {
    var keep := Shown(query, category);
    Seqs.SortByMembers(Seqs.Filter(expenses, keep), ExpenseOrder(), e);
    if e in expenses && keep(e) {
      Seqs.FilterKeeps(expenses, keep, e);
    }
  }

  /** The list runs from the latest date to the earliest. */
  lemma FilteredExpensesNewestFirst(expenses: seq<Expenses.Expense>, query: string, category: string)
    ensures var r := FilteredExpenses(expenses, query, category);
      forall i, j :: 0 <= i < j < |r| ==> r[i].date >= r[j].date
  {
    ExpenseOrderConsistent();
    Seqs.SortBySorted(Seqs.Filter(expenses, Shown(query, category)), ExpenseOrder());
    var r := FilteredExpenses(expenses, query, category);
    forall i, j | 0 <= i < j < |r| ensures r[i].date >= r[j].date {
      assert ExpenseOrder()(r[i], r[j]) <= 0;
    }
  }

  /**
   * The "this month" total counts expenses of every month: it is the
   * dashboard's month total plus the amounts dated in other months.
   */
  lemma TotalThisMonthCountsEveryMonth(expenses: seq<Expenses.Expense>, now: int, monthOf: int -> int, yearOf: int -> int)
    ensures TotalThisMonth(expenses) ==
      DashboardPage.ThisMonthSpending(expenses, now, monthOf, yearOf)
      + Seqs.Sum(Seqs.Filter(expenses, Seqs.Not(DashboardPage.InMonthOf(now, monthOf, yearOf))), DashboardPage.Amount)
  {
    Seqs.SumPartition(expenses, DashboardPage.InMonthOf(now, monthOf, yearOf), DashboardPage.Amount);
    DashboardPage.ThisMonthIsMonthFilter(expenses, now, monthOf, yearOf);
  }

  /** One expense from another month is enough to make the two totals differ. */
  lemma TotalThisMonthIncludesOtherMonths(e: Expenses.Expense, now: int, monthOf: int -> int, yearOf: int -> int)
    requires monthOf(e.date) != monthOf(now)
    requires e.amount > 0.0
    ensures TotalThisMonth([e]) > DashboardPage.ThisMonthSpending([e], now, monthOf, yearOf)
  {
    var f := DashboardPage.MonthAmount(now, monthOf, yearOf);
    assert [e][1..] == [];
    assert Seqs.Sum([e], f) == f(e) + Seqs.Sum([], f);
    assert !DashboardPage.InMonthOf(now, monthOf, yearOf)(e);
    assert f(e) == 0.0;
    assert Seqs.Sum([e], DashboardPage.Amount) == DashboardPage.Amount(e) + Seqs.Sum([], DashboardPage.Amount);
  }

  /**
   * The remaining amount is never negative; it is the budget left while the
   * spending stays within it, and never more than the budget when spending
   * is not negative.
   */
  lemma RemainingBounds(totalBudget: real, spent: real)
    ensures Remaining(totalBudget, spent) >= 0.0
    ensures spent <= totalBudget ==> Remaining(totalBudget, spent) == totalBudget - spent
    ensures spent >= totalBudget ==> Remaining(totalBudget, spent) == 0.0
    ensures spent >= 0.0 && totalBudget >= 0.0 ==> Remaining(totalBudget, spent) <= totalBudget
  {
  }

  /**
   * The add form: nothing when a field is empty; otherwise an untagged
   * expense dated now, with the category and description as typed.
   */
  lemma ExpenseFromFormShape(amount: string, category: string, description: string, parseAmount: string -> real, now: int)
    ensures var r := ExpenseFromForm(amount, category, description, parseAmount, now);
      && (r.None? <==> amount == "" || category == "" || description == "")
      && (r.Some? ==>
            && r.value.category == category && r.value.description == description
            && r.value.date == now && r.value.tags == [] && r.value.amount == parseAmount(amount)
            && r.value.paymentMethod.None? && r.value.recurring.None?)
  {
  }
}
