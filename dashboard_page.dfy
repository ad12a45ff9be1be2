/**
 * What the dashboard derives from all the stores: todo counts and the
 * completion rate, this week's workouts, the books being read, this month's
 * spending against the budgets, the greeting, the short lists of upcoming
 * tasks and recent ideas, and the markdown-free idea preview.
 *
 * The calendar (month, year and hour of a timestamp) is passed in as
 * functions, since the model has no time zone or calendar of its own.
 */
module DashboardPage {
  import opened Wrappers
  import Seqs
  import Todos
  import Books
  import Ideas
  import Expenses
  import Sports
  import Auth

  /** One day in milliseconds. */
  const DayMs: int := 86400000

  function IsCompleted(): Todos.Todo -> bool {
    (t: Todos.Todo) => t.completed
  }

  /** `pendingTodos`. */
  function PendingCount(todos: seq<Todos.Todo>): nat {
    |Seqs.Filter(todos, Seqs.Not(IsCompleted()))|
  }

  /** `completedTodos`. */
  function CompletedCount(todos: seq<Todos.Todo>): nat {
    |Seqs.Filter(todos, IsCompleted())|
  }

  /** `todoCompletionRate`: the percentage of todos done, 0 without todos. */
  function CompletionRate(todos: seq<Todos.Todo>): real {
    if |todos| > 0 then (CompletedCount(todos) as real / |todos| as real) * 100.0 else 0.0
  }

  /** The start of the week window: seven days before `now`. */
  function WeekAgo(now: int): int {
    now - 7 * DayMs
  }

  /** In this week's window: on or after a week ago, with no upper bound. */
  function InThisWeek(now: int): Sports.Activity -> bool {
    (a: Sports.Activity) => a.date >= WeekAgo(now)
  }

  /** `thisWeekActivities`. */
  function ThisWeekActivities(activities: seq<Sports.Activity>, now: int): seq<Sports.Activity> {
    Seqs.Filter(activities, InThisWeek(now))
  }

  function Duration(a: Sports.Activity): real {
    a.duration
  }

  /** The minutes of this week's workouts. */
  function WeekMinutes(activities: seq<Sports.Activity>, now: int): real {
    Seqs.Sum(ThisWeekActivities(activities, now), Duration)
  }

  /** `currentlyReading`. */
  function CurrentlyReading(books: seq<Books.Book>): seq<Books.Book> {
    Seqs.Filter(books, (b: Books.Book) => b.status == Books.Reading)
  }

  /** `currentlyReading[0]?.title || "No books in progress"`. */
  function ReadingHeadline(books: seq<Books.Book>): string {
    var reading := CurrentlyReading(books);
    if reading != [] && reading[0].title != "" then reading[0].title else "No books in progress"
  }

  /** The same calendar month and year as `now`. */
  function InMonthOf(now: int, monthOf: int -> int, yearOf: int -> int): Expenses.Expense -> bool {
    (e: Expenses.Expense) => monthOf(e.date) == monthOf(now) && yearOf(e.date) == yearOf(now)
  }

  /** The reducer's step: an expense adds its amount when it falls in `now`'s month. */
  function MonthAmount(now: int, monthOf: int -> int, yearOf: int -> int): Expenses.Expense -> real {
    e => if InMonthOf(now, monthOf, yearOf)(e) then e.amount else 0.0
  }

  function Amount(e: Expenses.Expense): real {
    e.amount
  }

  /** `thisMonthExpenses`. */
  function ThisMonthSpending(expenses: seq<Expenses.Expense>, now: int, monthOf: int -> int, yearOf: int -> int): real {
    Seqs.Sum(expenses, MonthAmount(now, monthOf, yearOf))
  }

  function Limit(b: Expenses.Budget): real {
    b.limit
  }

  /** `totalBudget`. */
  function TotalBudget(budgets: seq<Expenses.Budget>): real {
    Seqs.Sum(budgets, Limit)
  }

  /** `budgetUsage`: the month's spending as a percentage of all limits, 0 without a limit. */
  function BudgetUsage(spending: real, totalBudget: real): real {
    if totalBudget > 0.0 then (spending / totalBudget) * 100.0 else 0.0
  }

  /** A budget's bar: its filled percentage and whether it is shown as over budget. */
  datatype Bar = Bar(value: real, over: bool)

  /**
   * The bar of one budget: `spent / limit * 100`, shown cut off at 100 and
   * flagged when it exceeds 100. A zero limit divides by zero in the page.
   */
  function BudgetBar(b: Expenses.Budget): Bar
    requires b.limit != 0.0
  {
    var progress := (b.spent / b.limit) * 100.0;
    Bar(if progress < 100.0 then progress else 100.0, progress > 100.0)
  }

  /** The budgets the overview card shows: the first four. */
  function BudgetPreview(budgets: seq<Expenses.Budget>): seq<Expenses.Budget> {
    Seqs.Take(budgets, 4)
  }

  /** A goal's bar, `current / target * 100`, not cut off. */
  function GoalPercent(g: Sports.Goal): real
    requires g.target != 0.0
  {
    (g.current / g.target) * 100.0
  }

  /** `greeting()` for the hour of the day. */
  function Greeting(hour: int): string {
    if hour < 12 then "Good morning" else if hour < 18 then "Good afternoon" else "Good evening"
  }

  /** `user?.name || "there"`. */
  function DisplayName(user: Option<Auth.User>): string {
    if user.Some? && user.value.name != "" then user.value.name else "there"
  }

  /** The upcoming tasks card: the first five incomplete todos, in store order. */
  function UpcomingTasks(todos: seq<Todos.Todo>): seq<Todos.Todo> {
    Seqs.Take(Seqs.Filter(todos, Seqs.Not(IsCompleted())), 5)
  }

  function IsActiveIdea(): Ideas.Idea -> bool {
    (i: Ideas.Idea) => !i.archived
  }

  /** The recent ideas card: the first three ideas not archived, in store order. */
  function RecentIdeas(ideas: seq<Ideas.Idea>): seq<Ideas.Idea> {
    Seqs.Take(Seqs.Filter(ideas, IsActiveIdea()), 3)
  }

  predicate IsMarkup(c: char) {
    c == '#' || c == '*' || c == '_'
  }

  function KeepsText(): char -> bool {
    c => !IsMarkup(c)
  }

  /** `content.replace(/[#*_]/g, "")`. */
  function StripMarkdown(s: string): string {
    Seqs.Filter(s, KeepsText())
  }

  /** Every todo is either pending or completed. */
  lemma PendingPlusCompleted(todos: seq<Todos.Todo>)
    ensures PendingCount(todos) + CompletedCount(todos) == |todos|
  {
    Seqs.FilterPartition(todos, IsCompleted());
  }

  /**
   * The completion rate is 0 without todos, lies between 0 and 100, and is
   * 100 exactly when there are todos and none is pending.
   */
  lemma CompletionRateBounds(todos: seq<Todos.Todo>)
    ensures todos == [] ==> CompletionRate(todos) == 0.0
    ensures 0.0 <= CompletionRate(todos) <= 100.0
    ensures CompletionRate(todos) == 100.0 <==> todos != [] && PendingCount(todos) == 0
  {
    PendingPlusCompleted(todos);
    if todos != [] {
      var done, total := CompletedCount(todos) as real, |todos| as real;
      RatioAgainstOne(done, total);
      assert (done / total) * total == done;
    }
  }

  /** Dividing by a positive number keeps the sign and the comparison with 1. */
  lemma RatioAgainstOne(x: real, d: real)
    requires d > 0.0
    ensures x / d > 1.0 <==> x > d
    ensures x >= 0.0 ==> x / d >= 0.0
  {
    var q := x / d;
    assert q * d == x;
    assert (q - 1.0) * d == x - d;
    ProductSign(q - 1.0, d);
    ProductSign(q, d);
  }

  lemma ProductSign(a: real, d: real)
    requires d > 0.0
    ensures a > 0.0 <==> a * d > 0.0
    ensures a >= 0.0 <==> a * d >= 0.0
  {
  }

  /**
   * An activity counts for this week exactly when it is dated on or after a
   * week before `now`, however far in the future it lies.
   */
  lemma ThisWeekMembers(activities: seq<Sports.Activity>, now: int, a: Sports.Activity)
    ensures a in ThisWeekActivities(activities, now) <==> a in activities && a.date >= now - 604800000
  {
    if a in activities && a.date >= WeekAgo(now) {
      Seqs.FilterKeeps(activities, InThisWeek(now), a);
    }
  }

  /** Workout minutes are never negative when durations are not. */
  lemma WeekMinutesNonNegative(activities: seq<Sports.Activity>, now: int)
    requires forall a :: a in activities ==> a.duration >= 0.0
    ensures WeekMinutes(activities, now) >= 0.0
  {
    Seqs.SumNonNegative(ThisWeekActivities(activities, now), Duration);
  }

  /**
   * The headline names the first book being read, in store order, unless
   * there is none (or its title is empty).
   */
  lemma ReadingHeadlineFirst(before: seq<Books.Book>, b: Books.Book, after: seq<Books.Book>)
    requires forall x :: x in before ==> x.status != Books.Reading
    requires b.status == Books.Reading && b.title != ""
    ensures ReadingHeadline(before + [b] + after) == b.title
  {
    var keep := (x: Books.Book) => x.status == Books.Reading;
    Seqs.FilterConcat(before, [b] + after, keep);
    Seqs.FilterNoneKept(before, keep);
    assert before + [b] + after == before + ([b] + after);
  }

  /**
   * The month's spending is the sum of the amounts of exactly the expenses
   * dated in `now`'s month and year.
   */
  lemma {:induction false} ThisMonthIsMonthFilter(expenses: seq<Expenses.Expense>, now: int, monthOf: int -> int, yearOf: int -> int)
    ensures ThisMonthSpending(expenses, now, monthOf, yearOf) ==
            Seqs.Sum(Seqs.Filter(expenses, InMonthOf(now, monthOf, yearOf)), Amount)
  {
    if expenses != [] {
      ThisMonthIsMonthFilter(expenses[1..], now, monthOf, yearOf);
    }
  }

  /** Usage is 0 without a limit and not negative with non-negative spending. */
  lemma BudgetUsageBounds(spending: real, totalBudget: real)
    ensures totalBudget <= 0.0 ==> BudgetUsage(spending, totalBudget) == 0.0
    ensures spending >= 0.0 ==> BudgetUsage(spending, totalBudget) >= 0.0
    ensures totalBudget > 0.0 ==> (BudgetUsage(spending, totalBudget) > 100.0 <==> spending > totalBudget)
  {
    if totalBudget > 0.0 {
      RatioAgainstOne(spending, totalBudget);
    }
  }

  /**
   * A budget bar never shows more than 100; it is over budget exactly when
   * the spending passes a positive limit, and otherwise shows the plain
   * percentage.
   */
  lemma BudgetBarBounds(b: Expenses.Budget)
    requires b.limit != 0.0
    ensures BudgetBar(b).value <= 100.0
    ensures b.limit > 0.0 ==> (BudgetBar(b).over <==> b.spent > b.limit)
    ensures !BudgetBar(b).over ==> BudgetBar(b).value == (b.spent / b.limit) * 100.0
    ensures BudgetBar(b).over ==> BudgetBar(b).value == 100.0
  {
    if b.limit > 0.0 {
      BudgetUsageBounds(b.spent, b.limit);
    }
  }

  /** A goal bar passes 100 when the goal is exceeded: the dashboard does not cut it off. */
  lemma GoalPercentUncapped(g: Sports.Goal)
    requires g.target > 0.0
    ensures GoalPercent(g) > 100.0 <==> g.current > g.target
    ensures 0.0 <= g.current ==> 0.0 <= GoalPercent(g)
  {
    BudgetUsageBounds(g.current, g.target);
  }

  /** Morning before noon, afternoon until six, evening after. */
  lemma GreetingByHour(hour: int)
    ensures Greeting(hour) == "Good morning" <==> hour < 12
    ensures Greeting(hour) == "Good afternoon" <==> 12 <= hour < 18
    ensures Greeting(hour) == "Good evening" <==> hour >= 18
  {
  }

  /**
   * The upcoming tasks are the first incomplete todos in store order: at
   * most five, and fewer only when there are no more.
   */
  lemma UpcomingTasksShape(todos: seq<Todos.Todo>)
    ensures var r := UpcomingTasks(todos);
      && |r| == (if PendingCount(todos) < 5 then PendingCount(todos) else 5)
      && r == Seqs.Filter(todos, Seqs.Not(IsCompleted()))[..|r|]
      && (forall t :: t in r ==> t in todos && !t.completed)
  {
    var pending := Seqs.Filter(todos, Seqs.Not(IsCompleted()));
    var r := UpcomingTasks(todos);
    forall t | t in r ensures t in pending {
      var k :| 0 <= k < |r| && r[k] == t;
      assert pending[k] == t;
    }
  }

  /** The recent ideas are the first (at most three) ideas not archived, in store order. */
  lemma RecentIdeasShape(ideas: seq<Ideas.Idea>)
    ensures var active := Seqs.Filter(ideas, IsActiveIdea());
      var r := RecentIdeas(ideas);
      && |r| == (if |active| < 3 then |active| else 3)
      && r == active[..|r|]
      && (forall i :: i in r ==> i in ideas && !i.archived)
  {
    var active := Seqs.Filter(ideas, IsActiveIdea());
    var r := RecentIdeas(ideas);
    forall i | i in r ensures i in active {
      var k :| 0 <= k < |r| && r[k] == i;
      assert active[k] == i;
    }
  }

  /**
   * The preview drops every `#`, `*` and `_`, keeps every other character in
   * order, and leaves text without markup alone.
   */
  lemma StripMarkdownEffect(s: string, a: string, b: string)
    ensures forall i :: 0 <= i < |StripMarkdown(s)| ==> !IsMarkup(StripMarkdown(s)[i])
    ensures forall c :: c in s && !IsMarkup(c) ==> c in StripMarkdown(s)
    ensures StripMarkdown(a + b) == StripMarkdown(a) + StripMarkdown(b)
    ensures (forall i :: 0 <= i < |s| ==> !IsMarkup(s[i])) ==> StripMarkdown(s) == s
    ensures StripMarkdown(StripMarkdown(s)) == StripMarkdown(s)
  {
    var r := StripMarkdown(s);
    assert forall i :: 0 <= i < |r| ==> r[i] in r;
    forall c | c in s && !IsMarkup(c) ensures c in r {
      Seqs.FilterKeeps(s, KeepsText(), c);
    }
    Seqs.FilterConcat(a, b, KeepsText());
    Seqs.FilterAllKept(s, KeepsText());
    Seqs.FilterAllKept(r, KeepsText());
  }

  /** The signed-in user's name, or "there" for nobody or an empty name. */
  lemma DisplayNameFallback(user: Option<Auth.User>)
    ensures DisplayName(user) == "there" <==> user.None? || user.value.name in {"", "there"}
  {
  }
}
