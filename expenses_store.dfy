/**
 * The expenses store: the sequences `expenses` and `budgets` and the fixed
 * category list. Updates merge without touching any timestamp, a new budget
 * starts with nothing spent, and no operation derives a budget's `spent`
 * from the expenses.
 */
module Expenses {
  import opened Wrappers
  import Seqs
  import Collection

  /** An expense; `amount` is a JavaScript number, here a real. */
  datatype Expense = Expense(
    id: string,
    amount: real,
    category: string,
    description: string,
    date: int,
    paymentMethod: Option<string>,
    recurring: Option<bool>,
    tags: seq<string>,
    createdAt: int)

  datatype Period = Weekly | Monthly | Yearly

  datatype Budget = Budget(id: string, category: string, limit: real, period: Period, spent: real)

  /** `Omit<Expense, 'id' | 'createdAt'>`. */
  datatype ExpenseDraft = ExpenseDraft(
    amount: real,
    category: string,
    description: string,
    date: int,
    paymentMethod: Option<string>,
    recurring: Option<bool>,
    tags: seq<string>)

  /** `Omit<Budget, 'id' | 'spent'>`. */
  datatype BudgetDraft = BudgetDraft(category: string, limit: real, period: Period)

  /** `Partial<Expense>`; `Some(None)` clears an optional property. */
  datatype ExpensePatch = ExpensePatch(
    id: Option<string>,
    amount: Option<real>,
    category: Option<string>,
    description: Option<string>,
    date: Option<int>,
    paymentMethod: Option<Option<string>>,
    recurring: Option<Option<bool>>,
    tags: Option<seq<string>>,
    createdAt: Option<int>)

  /** `Partial<Budget>`. */
  datatype BudgetPatch = BudgetPatch(
    id: Option<string>,
    category: Option<string>,
    limit: Option<real>,
    period: Option<Period>,
    spent: Option<real>)

  const NoExpenseChanges: ExpensePatch :=
    ExpensePatch(None, None, None, None, None, None, None, None, None)

  const NoBudgetChanges: BudgetPatch := BudgetPatch(None, None, None, None, None)

  /** The categories offered for an expense, in display order. */
  const Categories: seq<string> :=
    ["Food", "Transport", "Entertainment", "Shopping", "Bills", "Health", "Education", "Other"]

  function ExpenseId(e: Expense): string {
    e.id
  }

  function BudgetId(b: Budget): string {
    b.id
  }

  /** `{...draft, id, createdAt: now}`. */
  function CreateExpense(d: ExpenseDraft, id: string, now: int): Expense {
    Expense(id, d.amount, d.category, d.description, d.date, d.paymentMethod, d.recurring,
            d.tags, now)
  }

  function DraftOf(e: Expense): ExpenseDraft {
    ExpenseDraft(e.amount, e.category, e.description, e.date, e.paymentMethod, e.recurring, e.tags)
  }

  /** `{...draft, id, spent: 0}`. */
  function CreateBudget(d: BudgetDraft, id: string): Budget {
    Budget(id, d.category, d.limit, d.period, 0.0)
  }

  /** `{...e, ...p}`: no timestamp is refreshed. */
  function MergeExpense(e: Expense, p: ExpensePatch): Expense {
    Expense(p.id.GetOr(e.id), p.amount.GetOr(e.amount), p.category.GetOr(e.category),
            p.description.GetOr(e.description), p.date.GetOr(e.date),
            p.paymentMethod.GetOr(e.paymentMethod), p.recurring.GetOr(e.recurring),
            p.tags.GetOr(e.tags), p.createdAt.GetOr(e.createdAt))
  }

  /** `{...b, ...p}`: `spent` changes only when the patch supplies it. */
  function MergeBudget(b: Budget, p: BudgetPatch): Budget {
    Budget(p.id.GetOr(b.id), p.category.GetOr(b.category), p.limit.GetOr(b.limit),
           p.period.GetOr(b.period), p.spent.GetOr(b.spent))
  }

  function ExpenseMerger(p: ExpensePatch): Expense -> Expense {
    e => MergeExpense(e, p)
  }

  function BudgetMerger(p: BudgetPatch): Budget -> Budget {
    b => MergeBudget(b, p)
  }

  function ExpenseAdded(expenses: seq<Expense>, d: ExpenseDraft, id: string, now: int): seq<Expense> {
    expenses + [CreateExpense(d, id, now)]
  }

  function ExpenseUpdated(expenses: seq<Expense>, id: string, p: ExpensePatch): seq<Expense> {
    Collection.Replace(expenses, ExpenseId, id, ExpenseMerger(p))
  }

  function ExpenseDeleted(expenses: seq<Expense>, id: string): seq<Expense> {
    Collection.Remove(expenses, ExpenseId, id)
  }

  function BudgetAdded(budgets: seq<Budget>, d: BudgetDraft, id: string): seq<Budget> {
    budgets + [CreateBudget(d, id)]
  }

  function BudgetUpdated(budgets: seq<Budget>, id: string, p: BudgetPatch): seq<Budget> {
    Collection.Replace(budgets, BudgetId, id, BudgetMerger(p))
  }

  class ExpensesStore {
    var expenses: seq<Expense>
    var budgets: seq<Budget>

    constructor (initialExpenses: seq<Expense>, initialBudgets: seq<Budget>)
      ensures expenses == initialExpenses && budgets == initialBudgets
    {
      expenses := initialExpenses;
      budgets := initialBudgets;
    }

    method AddExpense(draft: ExpenseDraft, freshId: string, now: int)
      requires Collection.IsFresh(expenses, ExpenseId, freshId)
      modifies this`expenses
      ensures expenses == ExpenseAdded(old(expenses), draft, freshId, now)
      ensures budgets == old(budgets)
    {
      expenses := ExpenseAdded(expenses, draft, freshId, now);
    }

    method UpdateExpense(id: string, updates: ExpensePatch)
      modifies this`expenses
      ensures expenses == ExpenseUpdated(old(expenses), id, updates)
      ensures budgets == old(budgets)
    {
      expenses := ExpenseUpdated(expenses, id, updates);
    }

    method DeleteExpense(id: string)
      modifies this`expenses
      ensures expenses == ExpenseDeleted(old(expenses), id)
      ensures budgets == old(budgets)
    {
      expenses := ExpenseDeleted(expenses, id);
    }

    method AddBudget(draft: BudgetDraft, freshId: string)
      requires Collection.IsFresh(budgets, BudgetId, freshId)
      modifies this`budgets
      ensures budgets == BudgetAdded(old(budgets), draft, freshId)
      ensures expenses == old(expenses)
    {
      budgets := BudgetAdded(budgets, draft, freshId);
    }

    method UpdateBudget(id: string, updates: BudgetPatch)
      modifies this`budgets
      ensures budgets == BudgetUpdated(old(budgets), id, updates)
      ensures expenses == old(expenses)
    {
      budgets := BudgetUpdated(budgets, id, updates);
    }
  }

  /** The category list has eight distinct entries, starting with food and ending with other. */
  lemma CategoriesFixed()
    ensures |Categories| == 8 && Seqs.Distinct(Categories)
    ensures Categories[0] == "Food" && Categories[7] == "Other"
  {
  }

  /**
   * `addExpense` appends one expense carrying the draft, the fresh id and the
   * clock as its creation time; a query by the fresh id finds exactly it.
   */
  lemma AddExpenseAppends(expenses: seq<Expense>, d: ExpenseDraft, id: string, now: int)
    requires Collection.IsFresh(expenses, ExpenseId, id)
    ensures var r := ExpenseAdded(expenses, d, id, now);
      && |r| == |expenses| + 1
      && r[..|expenses|] == expenses
      && DraftOf(r[|expenses|]) == d
      && r[|expenses|].id == id && r[|expenses|].createdAt == now
      && Collection.Find(r, ExpenseId, id) == [r[|expenses|]]
      && (Collection.UniqueIds(expenses, ExpenseId) ==> Collection.UniqueIds(r, ExpenseId))
  {
    Collection.AppendFresh(expenses, ExpenseId, CreateExpense(d, id, now));
    assert (expenses + [CreateExpense(d, id, now)])[..|expenses|] == expenses;
  }

  /**
   * `updateExpense` merges the patch into the expenses with the id and keeps
   * their creation time unless the patch itself supplies one.
   */
  lemma UpdateExpenseEffect(expenses: seq<Expense>, id: string, p: ExpensePatch)
    ensures var r := ExpenseUpdated(expenses, id, p);
      && |r| == |expenses|
      && (forall i :: 0 <= i < |expenses| && expenses[i].id != id ==> r[i] == expenses[i])
      && (forall i :: 0 <= i < |expenses| && expenses[i].id == id ==>
            r[i] == MergeExpense(expenses[i], p)
            && (p.createdAt.None? ==> r[i].createdAt == expenses[i].createdAt))
      && (Collection.IsFresh(expenses, ExpenseId, id) ==> r == expenses)
      && (p.id.None? && Collection.UniqueIds(expenses, ExpenseId) ==> Collection.UniqueIds(r, ExpenseId))
  {
    Collection.ReplaceEffect(expenses, ExpenseId, id, ExpenseMerger(p));
    if p.id.None? && Collection.UniqueIds(expenses, ExpenseId) {
      Collection.ReplaceKeepsUnique(expenses, ExpenseId, id, ExpenseMerger(p));
    }
  }

  /** The empty patch is the identity, so an update with no changes is not observable. */
  lemma NoChangesIdentity(expenses: seq<Expense>, budgets: seq<Budget>, id: string)
    ensures ExpenseUpdated(expenses, id, NoExpenseChanges) == expenses
    ensures BudgetUpdated(budgets, id, NoBudgetChanges) == budgets
  {
    Collection.ReplaceEffect(expenses, ExpenseId, id, ExpenseMerger(NoExpenseChanges));
    Collection.ReplaceEffect(budgets, BudgetId, id, BudgetMerger(NoBudgetChanges));
  }

  /** `deleteExpense` removes exactly the expenses with the id and keeps the rest. */
  lemma DeleteExpenseEffect(expenses: seq<Expense>, id: string)
    ensures var r := ExpenseDeleted(expenses, id);
      && Collection.IsFresh(r, ExpenseId, id)
      && (forall e :: e in expenses && e.id != id ==> e in r)
      && (forall e :: e in r ==> e in expenses)
      && |r| + |Collection.Find(expenses, ExpenseId, id)| == |expenses|
  {
    Collection.RemoveEffect(expenses, ExpenseId, id);
  }

  /** `addBudget` appends a budget with nothing spent under the fresh id. */
  lemma AddBudgetAppends(budgets: seq<Budget>, d: BudgetDraft, id: string)
    requires Collection.IsFresh(budgets, BudgetId, id)
    ensures var r := BudgetAdded(budgets, d, id);
      && |r| == |budgets| + 1
      && r[..|budgets|] == budgets
      && r[|budgets|] == Budget(id, d.category, d.limit, d.period, 0.0)
      && Collection.Find(r, BudgetId, id) == [r[|budgets|]]
  {
    Collection.AppendFresh(budgets, BudgetId, CreateBudget(d, id));
    assert (budgets + [CreateBudget(d, id)])[..|budgets|] == budgets;
  }

  /**
   * `updateBudget` merges the patch into the budgets with the id; `spent`
   * moves only when the patch supplies it.
   */
  lemma UpdateBudgetEffect(budgets: seq<Budget>, id: string, p: BudgetPatch)
    ensures var r := BudgetUpdated(budgets, id, p);
      && |r| == |budgets|
      && (forall i :: 0 <= i < |budgets| && budgets[i].id != id ==> r[i] == budgets[i])
      && (forall i :: 0 <= i < |budgets| && budgets[i].id == id ==>
            r[i] == MergeBudget(budgets[i], p)
            && (p.spent.None? ==> r[i].spent == budgets[i].spent))
      && (Collection.IsFresh(budgets, BudgetId, id) ==> r == budgets)
  {
    Collection.ReplaceEffect(budgets, BudgetId, id, BudgetMerger(p));
  }
}
