/**
 * The todo store: the sequence `todos`, with `addTodo`, a merging
 * `updateTodo`, a `deleteTodo` that also drops the direct children of the
 * deleted todo, and `toggleComplete`.
 */
module Todos {
  import opened Wrappers
  import Seqs
  import Collection

  datatype Priority = Low | Medium | High

  datatype Recurrence = Daily | Weekly | Monthly

  /**
   * A task. Dates are millisecond timestamps. `parentId` refers to another
   * todo by id; `None` stands for both `null` and a missing property, as does
   * `None` for `recurring`.
   */
  datatype Todo = Todo(
    id: string,
    title: string,
    description: Option<string>,
    completed: bool,
    priority: Priority,
    dueDate: Option<int>,
    recurring: Option<Recurrence>,
    parentId: Option<string>,
    tags: seq<string>,
    createdAt: int,
    updatedAt: int)

  /** `Omit<Todo, 'id' | 'createdAt' | 'updatedAt'>`: what `addTodo` is given. */
  datatype TodoDraft = TodoDraft(
    title: string,
    description: Option<string>,
    completed: bool,
    priority: Priority,
    dueDate: Option<int>,
    recurring: Option<Recurrence>,
    parentId: Option<string>,
    tags: seq<string>)

  /**
   * `Partial<Todo>`: `None` leaves a property as it is. For an optional
   * property `Some(None)` is an explicit `undefined`, which the object spread
   * copies over the old value like any other.
   */
  datatype TodoPatch = TodoPatch(
    id: Option<string>,
    title: Option<string>,
    description: Option<Option<string>>,
    completed: Option<bool>,
    priority: Option<Priority>,
    dueDate: Option<Option<int>>,
    recurring: Option<Option<Recurrence>>,
    parentId: Option<Option<string>>,
    tags: Option<seq<string>>,
    createdAt: Option<int>,
    updatedAt: Option<int>)

  const NoChanges: TodoPatch :=
    TodoPatch(None, None, None, None, None, None, None, None, None, None, None)

  function TodoId(t: Todo): string {
    t.id
  }

  /** `{...draft, id, createdAt: now, updatedAt: now}`. */
  function Create(d: TodoDraft, id: string, now: int): Todo {
    Todo(id, d.title, d.description, d.completed, d.priority, d.dueDate, d.recurring,
         d.parentId, d.tags, now, now)
  }

  /** The caller-supplied part of a todo. */
  function DraftOf(t: Todo): TodoDraft {
    TodoDraft(t.title, t.description, t.completed, t.priority, t.dueDate, t.recurring,
              t.parentId, t.tags)
  }

  /** `{...t, ...p, updatedAt: now}`. */
  function Merge(t: Todo, p: TodoPatch, now: int): Todo {
    Todo(p.id.GetOr(t.id), p.title.GetOr(t.title), p.description.GetOr(t.description),
         p.completed.GetOr(t.completed), p.priority.GetOr(t.priority),
         p.dueDate.GetOr(t.dueDate), p.recurring.GetOr(t.recurring),
         p.parentId.GetOr(t.parentId), p.tags.GetOr(t.tags), p.createdAt.GetOr(t.createdAt),
         now)
  }

  function MergeWith(p: TodoPatch, now: int): Todo -> Todo {
    t => Merge(t, p, now)
  }

  /** The patch that supplies every property of `u`. */
  function PatchOf(u: Todo): TodoPatch {
    TodoPatch(Some(u.id), Some(u.title), Some(u.description), Some(u.completed),
              Some(u.priority), Some(u.dueDate), Some(u.recurring), Some(u.parentId),
              Some(u.tags), Some(u.createdAt), Some(u.updatedAt))
  }

  function Latest<T>(first: Option<T>, second: Option<T>): Option<T> {
    if second.Some? then second else first
  }

  /** One patch with the effect of `p` followed by `q`. */
  function Then(p: TodoPatch, q: TodoPatch): TodoPatch {
    TodoPatch(Latest(p.id, q.id), Latest(p.title, q.title),
              Latest(p.description, q.description), Latest(p.completed, q.completed),
              Latest(p.priority, q.priority), Latest(p.dueDate, q.dueDate),
              Latest(p.recurring, q.recurring), Latest(p.parentId, q.parentId),
              Latest(p.tags, q.tags), Latest(p.createdAt, q.createdAt),
              Latest(p.updatedAt, q.updatedAt))
  }

  /** `{...t, completed: !t.completed, updatedAt: now}`. */
  function FlipWith(now: int): Todo -> Todo {
    (t: Todo) => t.(completed := !t.completed, updatedAt := now)
  }

  /** What `deleteTodo(id)` keeps: neither the todo itself nor a direct child of it. */
  function Survives(id: string): Todo -> bool {
    (t: Todo) => t.id != id && t.parentId != Some(id)
  }

  function Added(todos: seq<Todo>, d: TodoDraft, id: string, now: int): seq<Todo> {
    todos + [Create(d, id, now)]
  }

  function Updated(todos: seq<Todo>, id: string, p: TodoPatch, now: int): seq<Todo> {
    Collection.Replace(todos, TodoId, id, MergeWith(p, now))
  }

  function Deleted(todos: seq<Todo>, id: string): seq<Todo> {
    Seqs.Filter(todos, Survives(id))
  }

  function Toggled(todos: seq<Todo>, id: string, now: int): seq<Todo> {
    Collection.Replace(todos, TodoId, id, FlipWith(now))
  }

  /** Every todo's parent, if it names one, is present. */
  ghost predicate ParentsPresent(todos: seq<Todo>) {
    forall t :: t in todos && t.parentId.Some? ==>
      exists u :: u in todos && u.id == t.parentId.value
  }

  class TodoStore {
    var todos: seq<Todo>

    constructor (initial: seq<Todo>)
      ensures todos == initial
    {
      todos := initial;
    }

    method AddTodo(draft: TodoDraft, freshId: string, now: int)
      requires Collection.IsFresh(todos, TodoId, freshId)
      modifies this
      ensures todos == Added(old(todos), draft, freshId, now)
    {
      todos := Added(todos, draft, freshId, now);
    }

    method UpdateTodo(id: string, updates: TodoPatch, now: int)
      modifies this
      ensures todos == Updated(old(todos), id, updates, now)
    {
      todos := Updated(todos, id, updates, now);
    }

    method DeleteTodo(id: string)
      modifies this
      ensures todos == Deleted(old(todos), id)
    {
      todos := Deleted(todos, id);
    }

    method ToggleComplete(id: string, now: int)
      modifies this
      ensures todos == Toggled(old(todos), id, now)
    {
      todos := Toggled(todos, id, now);
    }
  }

  /**
   * `addTodo` appends one todo at the end: the earlier todos are untouched, the
   * new one carries the draft, the fresh id and the clock as both timestamps,
   * and a query by the fresh id finds exactly it.
   */
  lemma AddTodoAppends(todos: seq<Todo>, d: TodoDraft, id: string, now: int)
    requires Collection.IsFresh(todos, TodoId, id)
    ensures var r := Added(todos, d, id, now);
      && |r| == |todos| + 1
      && r[..|todos|] == todos
      && DraftOf(r[|todos|]) == d
      && r[|todos|].id == id && r[|todos|].createdAt == now && r[|todos|].updatedAt == now
      && Collection.Find(r, TodoId, id) == [r[|todos|]]
      && (Collection.UniqueIds(todos, TodoId) ==> Collection.UniqueIds(r, TodoId))
  {
    Collection.AppendFresh(todos, TodoId, Create(d, id, now));
    assert (todos + [Create(d, id, now)])[..|todos|] == todos;
  }

  /**
   * `updateTodo` rewrites only the todos with the id, merging the patch and
   * stamping `now`; an absent id changes nothing, and a patch without an id
   * keeps ids unique.
   */
  lemma UpdateTodoEffect(todos: seq<Todo>, id: string, p: TodoPatch, now: int)
    ensures var r := Updated(todos, id, p, now);
      && |r| == |todos|
      && (forall i :: 0 <= i < |todos| && todos[i].id != id ==> r[i] == todos[i])
      && (forall i :: 0 <= i < |todos| && todos[i].id == id ==>
            r[i] == Merge(todos[i], p, now) && r[i].updatedAt == now)
      && (Collection.IsFresh(todos, TodoId, id) ==> r == todos)
      && (p.id.None? && Collection.UniqueIds(todos, TodoId) ==> Collection.UniqueIds(r, TodoId))
  {
    Collection.ReplaceEffect(todos, TodoId, id, MergeWith(p, now));
    if p.id.None? && Collection.UniqueIds(todos, TodoId) {
      Collection.ReplaceKeepsUnique(todos, TodoId, id, MergeWith(p, now));
    }
  }

  /**
   * The merge: an empty patch only refreshes `updatedAt`, a patch supplying
   * everything yields its values, the clock wins over a supplied `updatedAt`,
   * and two merges in a row are one merge of the combined patch.
   */
  lemma MergeLaws(t: Todo, u: Todo, p: TodoPatch, q: TodoPatch, n1: int, n2: int)
    ensures Merge(t, NoChanges, n2) == t.(updatedAt := n2)
    ensures Merge(t, PatchOf(u), n2) == u.(updatedAt := n2)
    ensures Merge(t, p, n2).updatedAt == n2
    ensures Merge(Merge(t, p, n1), q, n2) == Merge(t, Then(p, q), n2)
    ensures Merge(Merge(t, p, n1), p, n2) == Merge(t, p, n2)
  {
  }

  /**
   * `deleteTodo(id)` removes the todo and its direct children and nothing
   * else, keeps the order of the survivors, never grows the store, and keeps
   * ids unique.
   */
  lemma DeleteTodoCascade(todos: seq<Todo>, id: string)
    ensures var r := Deleted(todos, id);
      && (forall t :: t in r ==> t in todos && t.id != id && t.parentId != Some(id))
      && (forall t :: t in todos && t.id != id && t.parentId != Some(id) ==> t in r)
      && |r| <= |todos|
      && (Collection.UniqueIds(todos, TodoId) ==> Collection.UniqueIds(r, TodoId))
  {
    forall t | t in todos && t.id != id && t.parentId != Some(id)
      ensures t in Deleted(todos, id)
    {
      Seqs.FilterKeeps(todos, Survives(id), t);
    }
    if Collection.UniqueIds(todos, TodoId) {
      Collection.FilterKeepsUnique(todos, TodoId, Survives(id));
    }
  }

  /** Deletion works piecewise, so the survivors keep their relative order. */
  lemma DeleteTodoKeepsOrder(a: seq<Todo>, b: seq<Todo>, id: string)
    ensures Deleted(a + b, id) == Deleted(a, id) + Deleted(b, id)
  {
    Seqs.FilterConcat(a, b, Survives(id));
  }

  /**
   * The cascade is one level deep: a grandchild of the deleted todo survives,
   * and its parent is gone, so the store no longer has every parent present.
   */
  lemma DeleteTodoOrphansGrandchildren(todos: seq<Todo>, id: string, c: Todo, g: Todo)
    requires Collection.UniqueIds(todos, TodoId)
    requires c in todos && c.id != id && c.parentId == Some(id)
    requires g in todos && g.id != id && g.parentId == Some(c.id)
    ensures g in Deleted(todos, id)
    ensures Collection.IsFresh(Deleted(todos, id), TodoId, c.id)
    ensures !ParentsPresent(Deleted(todos, id))
  {
    var r := Deleted(todos, id);
    Seqs.FilterKeeps(todos, Survives(id), g);
    forall i | 0 <= i < |r| ensures r[i].id != c.id {
      assert r[i] in r;
    }
  }

  /**
   * `toggleComplete` is an update of `completed` alone, to its negation, on
   * the matching todos; an absent id changes nothing.
   */
  lemma ToggleCompleteEffect(todos: seq<Todo>, id: string, now: int)
    ensures var r := Toggled(todos, id, now);
      && |r| == |todos|
      && (forall i :: 0 <= i < |todos| && todos[i].id != id ==> r[i] == todos[i])
      && (forall i :: 0 <= i < |todos| && todos[i].id == id ==>
            r[i] == Merge(todos[i], NoChanges.(completed := Some(!todos[i].completed)), now))
      && (Collection.IsFresh(todos, TodoId, id) ==> r == todos)
  {
    Collection.ReplaceEffect(todos, TodoId, id, FlipWith(now));
  }

  /** Toggling twice restores every flag: only `updatedAt` remains changed. */
  lemma ToggleTwice(todos: seq<Todo>, id: string, n1: int, n2: int)
    ensures Toggled(Toggled(todos, id, n1), id, n2) == Updated(todos, id, NoChanges, n2)
  {
    var once := Toggled(todos, id, n1);
    Collection.ReplaceEffect(todos, TodoId, id, FlipWith(n1));
    Collection.ReplaceEffect(once, TodoId, id, FlipWith(n2));
    Collection.ReplaceEffect(todos, TodoId, id, MergeWith(NoChanges, n2));
  }
}
