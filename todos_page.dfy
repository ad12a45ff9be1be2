/**
 * What the todos page derives from the store: the visible top-level todos
 * (search, priority and completion filters, then the page's comparator), the
 * sub-todos of a todo, and the draft built by the add form.
 */
module TodosPage {
  import opened Wrappers
  import Seqs
  import Text
  import Todos

  /** The value of the priority filter for each priority. */
  function PriorityName(p: Todos.Priority): string {
    match p
    case Low => "low"
    case Medium => "medium"
    case High => "high"
  }

  /** `{ high: 0, medium: 1, low: 2 }`. */
  function PriorityRank(p: Todos.Priority): int {
    match p
    case High => 0
    case Medium => 1
    case Low => 2
  }

  /** `!todo.parentId`: no parent, or the empty string as parent. */
  predicate IsTopLevel(t: Todos.Todo) {
    t.parentId.None? || t.parentId.value == ""
  }

  /** The search test: the title, or the description when there is one, contains the query. */
  predicate MatchesSearch(t: Todos.Todo, query: string) {
    || Text.IncludesIgnoringCase(t.title, query)
    || (t.description.Some? && Text.IncludesIgnoringCase(t.description.value, query))
  }

  /** The filter callback of `filteredTodos`. */
  function Shown(query: string, priority: string, showCompleted: bool): Todos.Todo -> bool {
    t => MatchesSearch(t, query) && (priority == "all" || priority == PriorityName(t.priority))
         && (showCompleted || !t.completed) && IsTopLevel(t)
  }

  /**
   * The sort callback: incomplete first, then by priority, then by due date
   * when both todos have one; otherwise the two count as equal.
   */
  function CompareTodos(a: Todos.Todo, b: Todos.Todo): int {
    if a.completed != b.completed then (if a.completed then 1 else -1)
    else if PriorityRank(a.priority) != PriorityRank(b.priority) then
      PriorityRank(a.priority) - PriorityRank(b.priority)
    else if a.dueDate.Some? && b.dueDate.Some? then a.dueDate.value - b.dueDate.value
    else 0
  }

  function TodoOrder(): (Todos.Todo, Todos.Todo) -> int {
    (a, b) => CompareTodos(a, b)
  }

  /**
   * `filteredTodos`. The comparator is not a consistent order, so only the
   * contents of this list are specified: the sort here is one of the orders
   * `Array.prototype.sort` may produce.
   */
  function FilteredTodos(todos: seq<Todos.Todo>, query: string, priority: string, showCompleted: bool): seq<Todos.Todo> {
    Seqs.SortBy(Seqs.Filter(todos, Shown(query, priority, showCompleted)), TodoOrder())
  }

  /** `getSubTodos(parentId)`. */
  function SubTodos(todos: seq<Todos.Todo>, parentId: string): seq<Todos.Todo> {
    Seqs.Filter(todos, (t: Todos.Todo) => t.parentId == Some(parentId))
  }

  /**
   * `handleAddTodo`: nothing for a blank title; otherwise an incomplete
   * top-level todo without tags, whose empty optional inputs are absent.
   */
  function TodoFromForm(title: string, description: string, priority: Todos.Priority,
                        dueDate: string, recurring: Option<Todos.Recurrence>,
                        parseDate: string -> int): Option<Todos.TodoDraft>
  {
    if Text.IsBlank(title) then None
    else
      var due := if dueDate == "" then None else Some(parseDate(dueDate));
      Some(Todos.TodoDraft(title, Text.OrNone(description), false, priority, due, recurring, None, []))
  }

  /**
   * A todo is listed exactly when it is in the store, top-level, found by the
   * search, admitted by the priority filter, and incomplete unless completed
   * todos are shown; sorting neither adds nor loses any.
   */
  lemma FilteredTodosMembers(todos: seq<Todos.Todo>, query: string, priority: string, showCompleted: bool, t: Todos.Todo)
    ensures t in FilteredTodos(todos, query, priority, showCompleted) <==>
      && t in todos
      && IsTopLevel(t)
      && MatchesSearch(t, query)
      && (priority == "all" || priority == PriorityName(t.priority))
      && (showCompleted || !t.completed)
  {
    var keep := Shown(query, priority, showCompleted);
    Seqs.SortByMembers(Seqs.Filter(todos, keep), TodoOrder(), t);
    if t in todos && keep(t) {
      Seqs.FilterKeeps(todos, keep, t);
    }
  }

  /**
   * With an empty query, every priority admitted and completed todos shown,
   * the page lists each top-level todo as often as the store holds it.
   */
  lemma UnfilteredShowsTopLevel(todos: seq<Todos.Todo>)
    ensures multiset(FilteredTodos(todos, "", "all", true)) ==
            multiset(Seqs.Filter(todos, (t: Todos.Todo) => IsTopLevel(t)))
  {
    forall t: Todos.Todo ensures Shown("", "all", true)(t) == IsTopLevel(t) {
      Text.EmptyQueryMatches(t.title);
    }
    FilterSameTest(todos, Shown("", "all", true), (t: Todos.Todo) => IsTopLevel(t));
  }

  lemma {:induction false} FilterSameTest(s: seq<Todos.Todo>, p: Todos.Todo -> bool, q: Todos.Todo -> bool)
    requires forall t :: p(t) == q(t)
    ensures Seqs.Filter(s, p) == Seqs.Filter(s, q)
  {
    if s != [] {
      FilterSameTest(s[1..], p, q);
    }
  }

  /** The order the comparator imposes, key by key. */
  lemma CompareTodosKeys(a: Todos.Todo, b: Todos.Todo)
    ensures a.completed != b.completed ==> (CompareTodos(a, b) < 0 <==> !a.completed)
    ensures a.completed == b.completed && a.priority != b.priority ==>
      (CompareTodos(a, b) < 0 <==> PriorityRank(a.priority) < PriorityRank(b.priority))
    ensures a.completed == b.completed && a.priority == b.priority && a.dueDate.Some? && b.dueDate.Some? ==>
      (CompareTodos(a, b) < 0 <==> a.dueDate.value < b.dueDate.value)
    ensures a.completed == b.completed && a.priority == b.priority && (a.dueDate.None? || b.dueDate.None?) ==>
      CompareTodos(a, b) == 0
    ensures CompareTodos(a, b) == -CompareTodos(b, a)
  {
  }

  /** High before medium before low. */
  lemma PriorityOrder()
    ensures PriorityRank(Todos.High) < PriorityRank(Todos.Medium) < PriorityRank(Todos.Low)
  {
  }

  /**
   * The comparator is not a consistent order: a todo without a due date ties
   * with both of two dated todos that are not tied with each other.
   */
  lemma TodoOrderInconsistent()
    ensures !Seqs.Consistent(TodoOrder())
  {
    var early := Todos.Todo("a", "", None, false, Todos.Medium, Some(1), None, None, [], 0, 0);
    var undated := early.(id := "b", dueDate := None);
    var late := early.(id := "c", dueDate := Some(2));
    assert TodoOrder()(late, undated) <= 0 && TodoOrder()(undated, early) <= 0;
    assert TodoOrder()(late, early) > 0;
  }

  /** `getSubTodos(p)` holds exactly the todos whose parent is `p`. */
  lemma SubTodosMembers(todos: seq<Todos.Todo>, p: string, t: Todos.Todo)
    ensures t in SubTodos(todos, p) <==> t in todos && t.parentId == Some(p)
  {
    if t in todos && t.parentId == Some(p) {
      Seqs.FilterKeeps(todos, (t: Todos.Todo) => t.parentId == Some(p), t);
    }
  }

  /** After `deleteTodo(p)` the deleted todo has no sub-todos left. */
  lemma DeleteLeavesNoSubTodos(todos: seq<Todos.Todo>, p: string)
    ensures SubTodos(Todos.Deleted(todos, p), p) == []
  {
    Seqs.FilterNoneKept(Todos.Deleted(todos, p), (t: Todos.Todo) => t.parentId == Some(p));
  }

  /**
   * The add form: nothing for a blank title; otherwise an incomplete,
   * top-level, untagged draft with the title as typed and an empty
   * description or due date left absent.
   */
  lemma TodoFromFormShape(title: string, description: string, priority: Todos.Priority,
                          dueDate: string, recurring: Option<Todos.Recurrence>, parseDate: string -> int)
    ensures var r := TodoFromForm(title, description, priority, dueDate, recurring, parseDate);
      && (r.None? <==> Text.IsBlank(title))
      && (r.Some? ==>
            && r.value.title == title && !r.value.completed && r.value.parentId.None?
            && r.value.tags == [] && r.value.priority == priority && r.value.recurring == recurring
            && (r.value.description.None? <==> description == "")
            && (description != "" ==> r.value.description == Some(description))
            && (r.value.dueDate.None? <==> dueDate == "")
            && (dueDate != "" ==> r.value.dueDate == Some(parseDate(dueDate))))
  {
  }
}
