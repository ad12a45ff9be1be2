# home-harmony, modelled in Dafny

home-harmony is a personal dashboard. Its state lives in seven client-side
stores (todos, books, ideas, expenses and budgets, activities and goals,
settings, the signed-in user). Each store keeps its records in an ordered list
that it replaces on every change: a record is appended with a fresh id and
timestamps, merged with a partial update by id, or dropped by id. The pages
derive their views from these lists: search and selection filters, sort
orders, counts, sums, percentages, a week window, a seven-day chart, tag
parsing, and "first N" previews. The sidebar's navigation item decides when
it is highlighted and what its badge shows.

The model has one Dafny module per source file, plus four shared modules:

- `Wrappers`: the `Option` type.
- `Seqs`: filter, sum, take, flatten, dedup and a stable insertion sort, each with its laws.
- `Text`: ASCII lower-casing, substring search, JavaScript's `trim`, split and join on one character, and decimal digits.
- `Collection`: the append, replace-by-id and remove-by-id shape that all the stores share.

Each store is a `class` with one `seq` field per list. Its methods reassign
the field to the value of a pure function of the old list (`Added`,
`Updated`, `Deleted`, and so on), and the properties are proved as lemmas
about those functions.

The page derivations are pure functions over the store lists. Each comes
with lemmas that state what it keeps, in which order, and what its totals
mean.

Conventions:

- Timestamps are integers in milliseconds.
- The clock is a parameter `now`, read once per action (see "## Left out").
- Calendar decomposition is passed in as functions: `dayOf` for `toDateString`, and `monthOf` and `yearOf` for `getMonth` and `getFullYear`.
- A generated id is a parameter that must not already be in the list.
- A `Partial<T>` update is a record of `Option` fields. An optional field gets `Option<Option<_>>`, so that an explicit `undefined` clears it.
- Money, minutes and kilometres are `real`.

## Model

| member | source | states |
|---|---|---|
| Todos.TodoStore.AddTodo | src/stores/todoStore.ts:65-75 | the new list is the old one with the created todo appended |
| Todos.TodoStore.UpdateTodo | src/stores/todoStore.ts:77-83 | the new list is the old one with the todos of that id merged with the update and stamped `now` |
| Todos.TodoStore.DeleteTodo | src/stores/todoStore.ts:85-87 | the new list is the old one without the todo and its direct children |
| Todos.TodoStore.ToggleComplete | src/stores/todoStore.ts:89-95 | the new list is the old one with `completed` negated on the todos of that id |
| Todos.AddTodoAppends | src/stores/todoStore.ts:65-75 | adding appends exactly one todo after the unchanged old ones; it carries the draft, the fresh id and `now` as both timestamps; a lookup by that id finds only it; unique ids stay unique |
| Todos.UpdateTodoEffect | src/stores/todoStore.ts:77-83 | only todos with the id change, each to the merge with `updatedAt = now`; an absent id changes nothing; an update without an id keeps ids unique |
| Todos.MergeLaws | src/stores/todoStore.ts:80 | an empty update only refreshes `updatedAt`; a full update yields its values; the clock overrides a supplied `updatedAt`; two merges equal one merge of the combined update; merging the same update twice is merging it once |
| Todos.DeleteTodoCascade | src/stores/todoStore.ts:85-87 | a todo survives if and only if it is neither the deleted todo nor one of its direct children; the list never grows; unique ids stay unique |
| Todos.DeleteTodoKeepsOrder | src/stores/todoStore.ts:86 | deletion distributes over concatenation, so the survivors keep their order |
| Todos.DeleteTodoOrphansGrandchildren | src/stores/todoStore.ts:86 | the cascade is one level deep: a grandchild survives while its parent is gone, so afterwards some todo's parent is missing from the store |
| Todos.ToggleCompleteEffect | src/stores/todoStore.ts:89-95 | toggling is the update of `completed` alone to its negation on the todos of that id; an absent id changes nothing |
| Todos.ToggleTwice | src/stores/todoStore.ts:89-95 | toggling twice restores every flag; only `updatedAt` is left changed |
| Books.BooksStore.AddBook | src/stores/booksStore.ts:69-79 | the new list is the old one with the created book appended |
| Books.BooksStore.UpdateBook | src/stores/booksStore.ts:81-87 | the new list is the old one with the books of that id merged and stamped `now` |
| Books.BooksStore.DeleteBook | src/stores/booksStore.ts:89-91 | the new list is the old one without the books of that id |
| Books.BooksStore.UpdateProgress | src/stores/booksStore.ts:93-106 | the new list is the old one with the progress recorded on the books of that id |
| Books.AddBookAppends | src/stores/booksStore.ts:69-79 | adding appends exactly one book after the unchanged old ones, with the draft, the fresh id and `now` as both timestamps; a lookup by id finds only it; unique ids stay unique |
| Books.UpdateBookEffect | src/stores/booksStore.ts:81-87 | only books with the id change, each to the merge with `updatedAt = now`; an absent id changes nothing; an update without an id keeps ids unique |
| Books.MergeLaws | src/stores/booksStore.ts:84 | an empty update only refreshes `updatedAt`; merging the same update twice is merging it once |
| Books.DeleteBookEffect | src/stores/booksStore.ts:89-91 | afterwards no book has the id; every other book survives and nothing new appears; exactly the books with the id are removed; unique ids stay unique |
| Books.UpdateProgressEffect | src/stores/booksStore.ts:93-106 | on the books of that id the page is set; the status is 'completed' if and only if the page is at least the total, and 'reading' otherwise; `finishDate` becomes `now` only on completion and is kept otherwise; `updatedAt = now`; every other field and every other book is unchanged |
| Books.ProgressReopens | src/stores/booksStore.ts:96 | a completed or abandoned book moved below its last page goes back to 'reading' and keeps its finish date |
| Books.ProgressIsUpdate | src/stores/booksStore.ts:93-106 | recording progress equals `updateBook` with the page, the derived status and the derived finish date |
| Books.ProgressTwice | src/stores/booksStore.ts:93-106 | recording the same page twice is recording it once, at the later time |
| Ideas.IdeasStore.AddIdea | src/stores/ideasStore.ts:50-60 | the new list is the old one with the created idea appended |
| Ideas.IdeasStore.UpdateIdea | src/stores/ideasStore.ts:62-68 | the new list is the old one with the ideas of that id merged and stamped `now` |
| Ideas.IdeasStore.DeleteIdea | src/stores/ideasStore.ts:70-72 | the new list is the old one without the ideas of that id |
| Ideas.IdeasStore.ArchiveIdea | src/stores/ideasStore.ts:74-80 | the new list is the old one with `archived` negated on the ideas of that id |
| Ideas.IdeasStore.TogglePin | src/stores/ideasStore.ts:82-88 | the new list is the old one with `pinned` negated on the ideas of that id |
| Ideas.AddIdeaAppends | src/stores/ideasStore.ts:50-60 | adding appends exactly one idea after the unchanged old ones, with the draft, the fresh id and `now` as both timestamps; a lookup by id finds only it; unique ids stay unique |
| Ideas.UpdateIdeaEffect | src/stores/ideasStore.ts:62-68 | only ideas with the id change, each to the merge with `updatedAt = now`; an absent id changes nothing; an update without an id keeps ids unique |
| Ideas.DeleteIdeaEffect | src/stores/ideasStore.ts:70-72 | afterwards no idea has the id; every other idea survives and nothing new appears; exactly the ideas with the id are removed |
| Ideas.ArchiveIdeaEffect | src/stores/ideasStore.ts:74-80 | archiving is a toggle: on the ideas of that id it is the update of `archived` alone to its negation; an absent id changes nothing |
| Ideas.TogglePinEffect | src/stores/ideasStore.ts:82-88 | on the ideas of that id, the update of `pinned` alone to its negation; an absent id changes nothing |
| Ideas.ArchiveTwice | src/stores/ideasStore.ts:74-80 | archiving twice restores the flag; only `updatedAt` is left changed |
| Ideas.PinTwice | src/stores/ideasStore.ts:82-88 | pinning twice restores the flag; only `updatedAt` is left changed |
| Expenses.ExpensesStore.AddExpense | src/stores/expensesStore.ts:77-82 | the expenses gain the created expense at the end; the budgets are untouched |
| Expenses.ExpensesStore.UpdateExpense | src/stores/expensesStore.ts:84-86 | the expenses of that id are merged with no timestamp written; the budgets are untouched |
| Expenses.ExpensesStore.DeleteExpense | src/stores/expensesStore.ts:88-90 | the expenses of that id are dropped; the budgets are untouched |
| Expenses.ExpensesStore.AddBudget | src/stores/expensesStore.ts:92-94 | the budgets gain the created budget at the end; the expenses are untouched |
| Expenses.ExpensesStore.UpdateBudget | src/stores/expensesStore.ts:96-98 | the budgets of that id are merged; the expenses are untouched |
| Expenses.CategoriesFixed | src/stores/expensesStore.ts:35 | the eight categories are distinct, from "Food" to "Other" |
| Expenses.AddExpenseAppends | src/stores/expensesStore.ts:77-82 | adding appends exactly one expense after the unchanged old ones, with the draft, the fresh id and `createdAt = now`; a lookup by id finds only it; unique ids stay unique |
| Expenses.UpdateExpenseEffect | src/stores/expensesStore.ts:84-86 | only expenses with the id change, each to the plain merge; `createdAt` is kept unless the update supplies it; an absent id changes nothing; an update without an id keeps ids unique |
| Expenses.NoChangesIdentity | src/stores/expensesStore.ts:84-86 | since no timestamp is written, an empty update leaves both lists exactly as they were |
| Expenses.DeleteExpenseEffect | src/stores/expensesStore.ts:88-90 | afterwards no expense has the id; every other expense survives and nothing new appears; exactly the expenses with the id are removed |
| Expenses.AddBudgetAppends | src/stores/expensesStore.ts:92-94 | adding appends one budget with the fresh id and `spent = 0`; a lookup by id finds only it |
| Expenses.UpdateBudgetEffect | src/stores/expensesStore.ts:96-98 | only budgets with the id change, to the plain merge; `spent` changes only when the update supplies it; an absent id changes nothing |
| Sports.SportsStore.AddActivity | src/stores/sportsStore.ts:80-85 | the activities gain the created activity at the end; the goals are untouched |
| Sports.SportsStore.UpdateActivity | src/stores/sportsStore.ts:87-89 | the activities of that id are merged with no timestamp written; the goals are untouched |
| Sports.SportsStore.DeleteActivity | src/stores/sportsStore.ts:91-93 | the activities of that id are dropped; the goals are untouched |
| Sports.SportsStore.AddGoal | src/stores/sportsStore.ts:95-97 | the goals gain the created goal at the end; the activities are untouched |
| Sports.SportsStore.UpdateGoal | src/stores/sportsStore.ts:99-101 | the goals of that id are merged; the activities are untouched |
| Sports.AddActivityAppends | src/stores/sportsStore.ts:80-85 | adding appends exactly one activity after the unchanged old ones, with the draft, the fresh id and `createdAt = now`; a lookup by id finds only it; unique ids stay unique |
| Sports.UpdateActivityEffect | src/stores/sportsStore.ts:87-89 | only activities with the id change, to the plain merge; `createdAt` is kept unless supplied; an absent id changes nothing |
| Sports.DeleteActivityEffect | src/stores/sportsStore.ts:91-93 | afterwards no activity has the id; every other activity survives and nothing new appears; exactly the activities with the id are removed |
| Sports.AddGoalAppends | src/stores/sportsStore.ts:95-97 | adding appends exactly one goal after the unchanged old ones: the fresh id with the draft's period, metric, target, current value, start and end dates as given; a lookup by id finds only it |
| Sports.UpdateGoalEffect | src/stores/sportsStore.ts:99-101 | only goals with the id change, to the plain merge; `current` changes only when the update supplies it, since logging activities never moves it; an absent id changes nothing |
| Settings.SettingsStore.constructor | src/stores/settingsStore.ts:34-53 | the store starts from the defaults for the host's time zone |
| Settings.SettingsStore.UpdateSettings | src/stores/settingsStore.ts:54-57 | the settings become the old settings merged with the update |
| Settings.SettingsStore.ResetToDefaults | src/stores/settingsStore.ts:58 | the settings become the defaults again, whatever they were |
| Settings.DefaultsShape | src/stores/settingsStore.ts:34-48 | the defaults turn reminders on, enable the widgets todos, sports, expenses, books and ideas in that display order, land on the dashboard, use USD, MM/DD/YYYY and Monday, take the host time zone, and have no export date |
| Settings.ApplyLaws | src/stores/settingsStore.ts:54-57 | an empty update changes nothing; a full update yields its values; applying an update twice is applying it once; two updates in a row equal one update of the combined fields |
| Auth.NameFromEmail | src/stores/authStore.ts:34 | the derived name has no '@'; it is a prefix of the email that the first '@' follows; it is the whole email exactly when the email has no '@' |
| Auth.LoginNameIsLocalPart | src/stores/authStore.ts:34 | for `local@rest` with an '@'-free `local`, the name is `local`, whatever `rest` holds |
| Auth.AuthStore.constructor | src/stores/authStore.ts:21-24 | the store starts signed out and not loading |
| Auth.AuthStore.BeginRequest | src/stores/authStore.ts:27 | a request sets the loading flag and leaves the user and the authenticated flag alone |
| Auth.AuthStore.Login | src/stores/authStore.ts:26-39 | after login the user is the one built from the email, authenticated, and loading is off |
| Auth.AuthStore.Register | src/stores/authStore.ts:41-53 | after registration the user carries the given name, authenticated, and loading is off |
| Auth.AuthStore.CompleteSignIn | src/stores/authStore.ts:38-52 | the final update of `login` (line 38) and `register` (line 52): the given user is signed in, authenticated, and loading is off |
| Auth.AuthStore.Logout | src/stores/authStore.ts:55-57 | logging out clears the user and the authenticated flag and leaves the loading flag as it was |
| Auth.AuthStore.SetUser | src/stores/authStore.ts:59-61 | the user is the given one, and the store is authenticated exactly when one is given |
| TodosPage.FilteredTodosMembers | src/pages/TodosPage.tsx:61-70 | a todo is listed if and only if it is in the store, is top-level (no parent, or the empty parent), matches the case-insensitive search in the title or the present description, passes the priority filter ("all" or equal), and is incomplete unless completed todos are shown |
| TodosPage.UnfilteredShowsTopLevel | src/pages/TodosPage.tsx:61-70 | with an empty query, "all" priorities and completed todos shown, the list holds every top-level todo exactly as often as the store does |
| TodosPage.CompareTodosKeys | src/pages/TodosPage.tsx:71-82 | the comparator puts incomplete todos before complete ones, then high before medium before low, then the earlier due date first when both have one; it returns 0 when either due date is missing; it is antisymmetric |
| TodosPage.PriorityOrder | src/pages/TodosPage.tsx:74 | the ranks order high before medium before low |
| TodosPage.TodoOrderInconsistent | src/pages/TodosPage.tsx:78-81 | the comparator is not a consistent order: an undated todo ties with two dated todos that are not tied with each other |
| TodosPage.SubTodosMembers | src/pages/TodosPage.tsx:84-85 | the sub-todos of `p` are exactly the todos whose parent is `p` |
| TodosPage.DeleteLeavesNoSubTodos | src/pages/TodosPage.tsx:84-85 | after `deleteTodo(p)` the todo `p` has no sub-todos left |
| TodosPage.TodoFromFormShape | src/pages/TodosPage.tsx:97-109 | the add form refuses exactly a blank title; otherwise the draft is incomplete, top-level and untagged, keeps the title, priority and recurrence; an empty description or due date is absent, and a filled one is stored as typed and as parsed |
| BooksPage.StatusRankOrder | src/pages/BooksPage.tsx:76 | the ranks order reading, then to-read, then completed, then abandoned, and no two statuses share a rank |
| BooksPage.BookOrderConsistent | src/pages/BooksPage.tsx:74-81 | the book comparator is a consistent order, so the sorted list is determined up to ties |
| BooksPage.FilteredBooksMembers | src/pages/BooksPage.tsx:66-73 | a book is listed if and only if it is in the store, its title or author contains the query case-insensitively, and the status filter is "all" or its status |
| BooksPage.FilteredBooksOrdered | src/pages/BooksPage.tsx:74-81 | the list never puts a book before one of lower status rank, and within a status the more recently updated book comes first |
| BooksPage.StatsBounded | src/pages/BooksPage.tsx:84-85 | no book is counted as both reading and completed, so the two counts add up to at most the number of books |
| BooksPage.PagesReadBounded | src/pages/BooksPage.tsx:86 | when every page count is sane, the pages read lie between 0 and the pages of the whole library |
| BooksPage.PagesReadOfCompleted | src/pages/BooksPage.tsx:86 | a completed book contributes all of its pages, whatever its current page says |
| BooksPage.ProgressPercentBounds | src/pages/BooksPage.tsx:283-284 | the progress bar is 0 for a book without pages; otherwise it is within 0 to 100 while the page is within the book, and exactly 100 at the last page |
| BooksPage.ClampedProgress | src/pages/BooksPage.tsx:371-375 | the page input never passes the total: it is the parsed number (0 when there is none) capped at the total; the book it records is completed if and only if the parsed number reaches the total |
| BooksPage.BookFromFormShape | src/pages/BooksPage.tsx:88-99 | the add form refuses a blank title or author; otherwise it makes a to-read draft at page 0, with the parsed total (0 when none); an empty ISBN or note is absent and a filled one is stored as typed; cover, rating, start and finish dates are absent |
| BooksPage.MarkCompleteIsLastPage | src/pages/BooksPage.tsx:331-341 | "Mark Complete" gives the same book as recording the last page with `updateProgress`, which is completed |
| BooksPage.StartReadingEffect | src/pages/BooksPage.tsx:326-330 | "Start Reading" changes only the status, to reading, and `updatedAt` |
| IdeasPage.AllTagsMembers | src/pages/IdeasPage.tsx:52 | the tag list holds each tag used by some idea, once each, and no other |
| IdeasPage.AllTagsFirstUse | src/pages/IdeasPage.tsx:52 | tags keep their order of first use: the tags of earlier ideas form a prefix of the list |
| IdeasPage.TagChipsShape | src/pages/IdeasPage.tsx:210 | the chips are exactly the first five tags in order of first use, or all of them when fewer are in use; they are distinct and all in use, and every tag in use is a chip when there are no more than five |
| IdeasPage.IdeaOrderConsistent | src/pages/IdeasPage.tsx:63-67 | the idea comparator is a consistent order |
| IdeasPage.FilteredIdeasMembers | src/pages/IdeasPage.tsx:54-62 | an idea is listed if and only if it is in the store, its title or content matches the search, it belongs to the selected archive view, and it carries the selected tag unless "all" is selected |
| IdeasPage.FilteredIdeasOrdered | src/pages/IdeasPage.tsx:63-67 | no unpinned idea precedes a pinned one, and among ideas alike in pinning the more recently updated comes first |
| IdeasPage.ParseTagsClean | src/pages/IdeasPage.tsx:75-78 | every parsed tag is non-empty, has no white space at either end, and contains no comma |
| IdeasPage.ParseJoinTags | src/pages/IdeasPage.tsx:94-114 | the edit form's round trip: joining clean tags with ", " and parsing the result gives the same tags back |
| IdeasPage.SplitJoinedTags | src/pages/IdeasPage.tsx:95 | splitting the joined clean tags at the commas gives the first tag, then every later tag behind one space |
| IdeasPage.TrimJoinedPieces | src/pages/IdeasPage.tsx:96 | trimming those pieces gives the clean tags back |
| IdeasPage.TrimSubstring | src/pages/IdeasPage.tsx:76-77 | trimming a piece of a split never brings back the separator, so no parsed tag holds a comma |
| IdeasPage.IdeaFromFormShape | src/pages/IdeasPage.tsx:69-82 | the add form refuses exactly a blank title; otherwise it makes an unarchived, unpinned draft with no attachments, keeps the title and content, and has the parsed tags |
| IdeasPage.EditUnchangedIdea | src/pages/IdeasPage.tsx:88-116 | opening the edit dialog and saving it untouched leaves the idea as it was, apart from `updatedAt` |
| IdeasPage.IdeaPatchFromFormGuard | src/pages/IdeasPage.tsx:89 | the edit form saves nothing if and only if no idea is being edited or the title is blank |
| ExpensesPage.FilteredExpensesMembers | src/pages/ExpensesPage.tsx:25-30 | an expense is listed if and only if it is in the store, its description contains the query case-insensitively, and the category filter is "all" or its category |
| ExpensesPage.ExpenseOrderConsistent | src/pages/ExpensesPage.tsx:31 | the date comparator is a consistent order, so sorting by it yields a sorted list |
| ExpensesPage.FilteredExpensesNewestFirst | src/pages/ExpensesPage.tsx:31 | the list runs from the latest date to the earliest |
| ExpensesPage.TotalThisMonthCountsEveryMonth | src/pages/ExpensesPage.tsx:33 | the "this month" total is the dashboard's month total plus the amounts of every expense from another month |
| ExpensesPage.TotalThisMonthIncludesOtherMonths | src/pages/ExpensesPage.tsx:33 | one positive expense from another month already makes the page's total exceed the month total |
| ExpensesPage.RemainingBounds | src/pages/ExpensesPage.tsx:111 | the remaining amount is never negative; it is the budget minus the spending while spending stays within the budget, 0 once spending reaches it, and never more than the budget |
| ExpensesPage.ExpenseFromFormShape | src/pages/ExpensesPage.tsx:36-44 | the add form refuses exactly an empty amount, category or description (white space counts as filled); otherwise it makes an untagged expense dated `now`, with the parsed amount, the category and description as typed, and no payment method or recurrence |
| SportsPage.IconOfKnownType | src/pages/SportsPage.tsx:45-53 | the icon lookup gives every activity type its configured icon |
| SportsPage.UnknownTypeIcon | src/pages/SportsPage.tsx:119-121 | any value that is not a type name gets the lightning icon, the same icon as "other" |
| SportsPage.FindIconFirst | src/pages/SportsPage.tsx:120 | the lookup returns the icon of the first entry with the value |
| SportsPage.FindIconMissing | src/pages/SportsPage.tsx:120 | the lookup finds nothing when no entry has the value |
| SportsPage.ActivityOrderConsistent | src/pages/SportsPage.tsx:70 | the date comparator is a consistent order, so sorting by it yields a sorted list |
| SportsPage.FilteredActivitiesMembers | src/pages/SportsPage.tsx:68-69 | an activity is listed if and only if it is in the store and "all" or its own type is selected |
| SportsPage.AllTypesListsEverything | src/pages/SportsPage.tsx:68-70 | with "all" selected the list holds every stored activity exactly as often as the store does |
| SportsPage.FilteredActivitiesNewestFirst | src/pages/SportsPage.tsx:70 | the list runs from the latest date to the earliest |
| SportsPage.TotalsOfAppend | src/pages/SportsPage.tsx:79-81 | one more activity adds its duration to the totals, and its calories and distance when present; a missing value adds nothing |
| SportsPage.WeekTotalsWindow | src/pages/SportsPage.tsx:73-81 | the week totals take in an activity dated on or after seven days ago, however far in the future, and ignore an older one |
| SportsPage.TotalsNonNegative | src/pages/SportsPage.tsx:79-81 | with non-negative values the three totals are not negative |
| SportsPage.ChartDataShape | src/pages/SportsPage.tsx:84-86 | the chart has exactly seven points; point `i` is the calendar day of `now - (6-i)` days, so it runs from six days ago to today |
| SportsPage.ChartPointMembers | src/pages/SportsPage.tsx:87-90 | an activity counts towards a point if and only if it is in the store and falls on that point's calendar day |
| SportsPage.ChartDataAppend | src/pages/SportsPage.tsx:84-95 | logging an activity raises the point of its day by its minutes and its calories (0 when missing), and leaves every other point unchanged |
| SportsPage.ActivityFromFormShape | src/pages/SportsPage.tsx:97-108 | the add form refuses exactly a blank name or an empty duration; otherwise it makes an activity dated `now` with the parsed duration, distance, calories and notes are absent exactly when their fields are empty, and otherwise hold the parsed distance, the parsed calories and the notes as typed |
| DashboardPage.PendingPlusCompleted | src/pages/DashboardPage.tsx:35-37 | every todo is counted as exactly one of pending or completed |
| DashboardPage.CompletionRateBounds | src/pages/DashboardPage.tsx:38 | the completion rate is 0 without todos and always between 0 and 100; it is 100 if and only if there are todos and none is pending |
| DashboardPage.ThisWeekMembers | src/pages/DashboardPage.tsx:40-44 | an activity is in this week's list if and only if it is in the store and dated at or after `now - 604800000`, with no upper bound |
| DashboardPage.WeekMinutesNonNegative | src/pages/DashboardPage.tsx:113 | with non-negative durations, the week's minutes are not negative |
| DashboardPage.ReadingHeadlineFirst | src/pages/DashboardPage.tsx:129 | the headline is the title of the first book being read, in store order |
| DashboardPage.ThisMonthIsMonthFilter | src/pages/DashboardPage.tsx:48-55 | the month reducer equals the sum of the amounts of exactly the expenses in `now`'s month and year |
| DashboardPage.BudgetUsageBounds | src/pages/DashboardPage.tsx:57-58 | usage is 0 without a positive total limit and not negative for non-negative spending; it exceeds 100 if and only if spending exceeds the total limit |
| DashboardPage.BudgetBarBounds | src/pages/DashboardPage.tsx:290-304 | a budget's bar is capped at 100; for a positive limit it is flagged over budget if and only if spent exceeds the limit; unflagged it shows the exact percentage |
| DashboardPage.GoalPercentUncapped | src/pages/DashboardPage.tsx:216 | a goal's percentage is not capped: it exceeds 100 if and only if `current` exceeds `target` |
| DashboardPage.GreetingByHour | src/pages/DashboardPage.tsx:60-65 | morning if and only if before 12, afternoon if and only if from 12 to before 18, evening otherwise |
| DashboardPage.DisplayNameFallback | src/pages/DashboardPage.tsx:70 | "there" is shown if and only if there is no user or the name is empty (or is itself "there") |
| DashboardPage.UpcomingTasksShape | src/pages/DashboardPage.tsx:167-170 | the card shows the first five incomplete todos in store order, or all of them when there are fewer |
| DashboardPage.RecentIdeasShape | src/pages/DashboardPage.tsx:251-254 | the card shows the first three ideas not archived in store order, or all of them when there are fewer |
| DashboardPage.StripMarkdownEffect | src/pages/DashboardPage.tsx:266 | the preview keeps every other character in order and drops every '#', '*' and '_'; stripping works piecewise, leaves clean text alone, and is idempotent |
| Collection.ReplaceEffect | src/stores/todoStore.ts:78-82 | the store's `map` by id keeps the length, rewrites exactly the records with the id, leaves every other record as it was, and changes nothing when no record has the id |
| Collection.ReplaceKeepsUnique | src/stores/todoStore.ts:78-82 | a rewrite by id that does not change ids keeps the ids unique |
| Seqs.Take | src/pages/DashboardPage.tsx:290 | `slice(0, N)` is the prefix of exactly N items, or the whole list when it is shorter |
| NavItem.ActiveIsPrefix | src/components/SidebarNavItem.tsx:15 | an active item's target is a prefix of the current path |
| NavItem.ActiveBelow | src/components/SidebarNavItem.tsx:15 | the item is active on its own path and on every path below it |
| NavItem.SiblingNotActive | src/components/SidebarNavItem.tsx:15 | a path that extends the target by anything other than '/' (for example "/todosx" for "/todos") does not make the item active |
| NavItem.RootActive | src/components/SidebarNavItem.tsx:15 | the "/" item is active only on "/" itself and on paths that start with "//" |
| NavItem.BadgeTextShape | src/components/SidebarNavItem.tsx:28-33 | the badge shows if and only if the sidebar is expanded and the count is present and positive; it reads "99+" above 99; it is one to three characters long |
| NavItem.BadgeTextReadsBack | src/components/SidebarNavItem.tsx:33 | a count from 1 to 99 is shown as decimal digits that read back as the count |
| Text.ContainsAt | src/pages/TodosPage.tsx:64 | substring search holds if and only if the query occurs at some position |
| Text.EmptyQueryMatches | src/pages/TodosPage.tsx:64 | the empty search matches every text |
| Text.Trim | src/pages/IdeasPage.tsx:77 | the trimmed string is a slice of the input with only white space before and after it, and no white space at either of its own ends; it is empty if and only if the input is all white space |
| Text.TrimAfterWhite | src/pages/IdeasPage.tsx:77 | white space in front of a trimmed string is all that trimming removes |
| Text.TrimBeforeWhite | src/pages/IdeasPage.tsx:77 | white space after a trimmed string is all that trimming removes |
| Text.SplitJoin | src/pages/IdeasPage.tsx:76 | splitting the join of separator-free pieces gives the pieces back |
| Text.JoinSplit | src/pages/IdeasPage.tsx:76 | joining the pieces of a split gives the string back |

## Left out

- Where an identifier promises more than its code does, the code is followed. The name `totalThisMonth` suggests a sum over the current month, but it sums every expense, whatever its date. The todo comparator's tie-breaks read as an order, but it ties whenever either due date is missing, so it is not one. Both are modelled as written, and the lemmas above state the consequences.
- TodosPage.FilteredTodos: the list is sorted by a stable insertion sort under the page's comparator. Because that comparator is not a consistent order, the JavaScript engine's sort may order the list differently. Only membership and multiplicity are claimed, not order.
- The stability of the sort is not proved for the books, ideas, expenses and activities lists. Their order is proved only up to ties of the comparator.
- DashboardPage.BudgetBar and DashboardPage.GoalPercent require a non-zero divisor. The page divides by zero for a zero limit or target, which gives `Infinity` or `NaN` in JavaScript.
- Floating point: amounts, minutes, distances and percentages are exact reals. `Math.round`, `toFixed(0)` and IEEE rounding are not modelled.
- `parseInt` and `parseFloat` are parameters or `Option` values. The `NaN` they return for text that is not a number is not modelled, except where the page maps it to 0 with `|| 0`.
- One clock reading per action: the source calls `new Date()` separately for each timestamp of one action (`createdAt` and `updatedAt` at todoStore.ts:71-72, booksStore.ts:75-76 and ideasStore.ts:56-57; `finishDate` and `updatedAt` at booksStore.ts:101-102). The model reads a single `now` for all of them, so the equalities `createdAt == updatedAt` in Todos.AddTodoAppends, Books.AddBookAppends and Ideas.AddIdeaAppends, and `finishDate == updatedAt` in Books.UpdateProgressEffect and BooksPage.MarkCompleteIsLastPage, hold only when no clock tick falls between those reads.
- Dates are ISO strings in the source. Here they are integer milliseconds, and `toDateString`, `getMonth`, `getFullYear` and `getHours` are passed in as functions. The chart's weekday label (`toLocaleDateString`) is left out.
- Lower-casing covers the ASCII letters only. Unicode case mapping is left out.
- `crypto.randomUUID` is replaced by a fresh id given by the caller, required not to be in the list already.
- The one-second delay of login and register is not modelled. They are modelled as one step through the loading state, and interleaving with other actions is not covered.
- The password arguments are ignored by the source, and by the model.
- Persistence of the settings store to local storage is not modelled.
- The seed records that each store starts with are not modelled. The constructors take the initial contents.
- Rendering is not modelled: the JSX, the CSS classes, the icons of the sidebar and the badge colours. The React state that only drives the UI is not modelled either: open dialogs, the expanded set of `toggleExpanded`, and form resets.
- The routing components (`App.tsx`, the layouts), the theme toggle, the loading spinner, the settings page and the password-reset page are not part of this model.
