/** The task store of `src/utils/todoStore.js`: the new `todos` list each
    action builds (pure functions), what those lists satisfy (lemmas), and the
    store object whose fields the actions replace (class `Store`). A fresh id
    (standing for `generateId()`) and the time `now` are parameters. */
module TodoStore {
  import opened Optional
  import opened Text
  import opened Lists
  import opened TodoModel
  import TodoSelectors

  // ---------------------------------------------------------------------
  // Ids
  // ---------------------------------------------------------------------

  /** The ids of a list, in order. */
  function Ids(todos: seq<Todo>): (r: seq<Id>)
    ensures |r| == |todos| && forall i :: 0 <= i < |todos| ==> r[i] == todos[i].id
  {
    seq(|todos|, i requires 0 <= i < |todos| => todos[i].id)
  }

  /** No two tasks share an id. */
  predicate UniqueIds(todos: seq<Todo>) {
    forall i, j :: 0 <= i < j < |todos| ==> todos[i].id != todos[j].id
  }

  /** Keeping some tasks, in order, keeps the ids unique. */
  lemma {:induction false} SubseqKeepsUniqueIds(a: seq<Todo>, b: seq<Todo>)
    requires Subseq(a, b) && UniqueIds(b)
    ensures UniqueIds(a)
    ensures forall t :: t in a ==> t in b
    decreases |b|
  {
    if a != [] {
      if a[0] == b[0] && Subseq(a[1..], b[1..]) {
        SubseqKeepsUniqueIds(a[1..], b[1..]);
        forall j | 0 < j < |a| ensures a[0].id != a[j].id {
          assert a[j] in a[1..];
          var k :| 0 <= k < |b[1..]| && b[1..][k] == a[j];
          assert b[k + 1] == a[j];
        }
        forall t | t in a ensures t in b {
          if t != a[0] {
            assert t in a[1..];
          }
        }
      } else {
        SubseqKeepsUniqueIds(a, b[1..]);
        forall t | t in a ensures t in b {
          assert t in b[1..];
        }
      }
    }
  }

  // ---------------------------------------------------------------------
  // The new `todos` of each action
  // ---------------------------------------------------------------------

  function HasId(id: Id): Todo -> bool { (t: Todo) => t.id == id }
  function OtherId(id: Id): Todo -> bool { (t: Todo) => t.id != id }
  function IsOpen(): Todo -> bool { (t: Todo) => !t.completed }

  /** `addTodo(text, options)`: nothing for blank text, otherwise the new task in front. */
  function Added(todos: seq<Todo>, text: string, options: TodoOptions, id: Id, now: int): (r: seq<Todo>)
    ensures IsBlank(text) ==> r == todos
    ensures !IsBlank(text) ==> |r| == |todos| + 1 && r[0] == CreateTodo(text, options, id, now) && r[1..] == todos
  {
    TrimEmptyIffBlank(text);
    if Trim(text) == "" then todos else [CreateTodo(text, options, id, now)] + todos
  }

  /** `removeTodo(id)`. */
  function Removed(todos: seq<Todo>, id: Id): seq<Todo> {
    Filter(todos, OtherId(id))
  }

  /** `toggleTodo(id)` on one task: flip `completed`, bring `status` in step. */
  function ToggleOne(t: Todo, now: int): Todo {
    t.(completed := !t.completed, status := if !t.completed then Completed else Pending, updatedAt := now)
  }
  function ToggleWith(now: int): Todo -> Todo { (t: Todo) => ToggleOne(t, now) }

  /** `toggleTodo(id)`. */
  function Toggled(todos: seq<Todo>, id: Id, now: int): seq<Todo> {
    MapWhere(todos, HasId(id), ToggleWith(now))
  }

  /** The fields `updateTodo` may overwrite; `None` is a key absent from `updates`. */
  datatype TodoUpdates = TodoUpdates(
    text: Option<string>,
    completed: Option<bool>,
    status: Option<Status>,
    priority: Option<Priority>,
    category: Option<Category>,
    createdAt: Option<int>,
    dueDate: Option<Option<int>>,
    description: Option<string>,
    tags: Option<seq<string>>)

  /** `{ ...todo, ...updates, updatedAt }`. */
  function Merge(t: Todo, u: TodoUpdates, now: int): Todo {
    t.(text := u.text.GetOr(t.text),
       completed := u.completed.GetOr(t.completed),
       status := u.status.GetOr(t.status),
       priority := u.priority.GetOr(t.priority),
       category := u.category.GetOr(t.category),
       createdAt := u.createdAt.GetOr(t.createdAt),
       dueDate := u.dueDate.GetOr(t.dueDate),
       description := u.description.GetOr(t.description),
       tags := u.tags.GetOr(t.tags),
       updatedAt := now)
  }
  function MergeWith(u: TodoUpdates, now: int): Todo -> Todo { (t: Todo) => Merge(t, u, now) }

  /** `updateTodo(id, updates)`. */
  function Updated(todos: seq<Todo>, id: Id, u: TodoUpdates, now: int): seq<Todo> {
    MapWhere(todos, HasId(id), MergeWith(u, now))
  }

  function SetText(text: string, now: int): Todo -> Todo { (t: Todo) => t.(text := text, updatedAt := now) }

  /** `updateTodoText(id, text)`: nothing for blank text. */
  function TextUpdated(todos: seq<Todo>, id: Id, text: string, now: int): seq<Todo> {
    if Trim(text) == "" then todos else MapWhere(todos, HasId(id), SetText(Trim(text), now))
  }

  function SetPriority(p: Priority, now: int): Todo -> Todo { (t: Todo) => t.(priority := p, updatedAt := now) }

  /** `updateTodoPriority(id, priority)`. */
  function PriorityUpdated(todos: seq<Todo>, id: Id, p: Priority, now: int): seq<Todo> {
    MapWhere(todos, HasId(id), SetPriority(p, now))
  }

  function SetStatus(s: Status, now: int): Todo -> Todo {
    (t: Todo) => t.(status := s, completed := s == Completed, updatedAt := now)
  }

  /** `updateTodoStatus(id, status)`. */
  function StatusUpdated(todos: seq<Todo>, id: Id, s: Status, now: int): seq<Todo> {
    MapWhere(todos, HasId(id), SetStatus(s, now))
  }

  function SetCategory(c: Category, now: int): Todo -> Todo { (t: Todo) => t.(category := c, updatedAt := now) }

  /** `updateTodoCategory(id, category)`. */
  function CategoryUpdated(todos: seq<Todo>, id: Id, c: Category, now: int): seq<Todo> {
    MapWhere(todos, HasId(id), SetCategory(c, now))
  }

  /** `clearCompleted()`. */
  function Uncompleted(todos: seq<Todo>): seq<Todo> {
    Filter(todos, IsOpen())
  }

  /** `todos.every(todo => todo.completed)`; true of the empty list. */
  predicate AllCompleted(todos: seq<Todo>) {
    forall i :: 0 <= i < |todos| ==> todos[i].completed
  }

  /** `toggleAllTodos()`: every task set to the negation of "all completed". */
  function AllToggled(todos: seq<Todo>, now: int): seq<Todo> {
    var done := !AllCompleted(todos);
    seq(|todos|, i requires 0 <= i < |todos| =>
      todos[i].(completed := done, status := if done then Completed else Pending, updatedAt := now))
  }

  /** The position of the first task with the id, or the length when there is none. */
  function FirstMatch(todos: seq<Todo>, id: Id): (k: nat)
    ensures k <= |todos|
    ensures forall j :: 0 <= j < k ==> todos[j].id != id
    ensures k < |todos| ==> todos[k].id == id
  {
    if todos == [] || todos[0].id == id then 0 else 1 + FirstMatch(todos[1..], id)
  }

  /** `todos.find(todo => todo.id === id)`: the first task with the id, if any. */
  function Find(todos: seq<Todo>, id: Id): (r: Option<Todo>)
    ensures r.None? <==> forall i :: 0 <= i < |todos| ==> todos[i].id != id
    ensures r.Some? ==> r == Some(todos[FirstMatch(todos, id)])
  {
    var k := FirstMatch(todos, id);
    if k < |todos| then Some(todos[k]) else None
  }

  /** The copy `duplicateTodo` makes of `t`. */
  function CopyOf(t: Todo, newId: Id, now: int): Todo {
    t.(id := newId, text := t.text + " (Copy)", completed := false, status := Pending,
       createdAt := now, updatedAt := now)
  }

  /** `duplicateTodo(id)`. */
  function Duplicated(todos: seq<Todo>, id: Id, newId: Id, now: int): seq<Todo> {
    match Find(todos, id)
    case None => todos
    case Some(t) => [CopyOf(t, newId, now)] + todos
  }

  // ---------------------------------------------------------------------
  // What the actions guarantee
  // ---------------------------------------------------------------------

  /** `removeTodo(id)` keeps, in their order, exactly the tasks with another id;
      removing again changes nothing. */
  lemma RemovedSpec(todos: seq<Todo>, id: Id)
    ensures var r := Removed(todos, id);
      && Subseq(r, todos)
      && (forall t :: t in r <==> t in todos && t.id != id)
      && (forall t :: multiset(r)[t] == if t.id != id then multiset(todos)[t] else 0)
      && Removed(r, id) == r
  {
    FilterSubseq(todos, OtherId(id));
    FilterMembership(todos, OtherId(id));
    forall t ensures multiset(Removed(todos, id))[t] == if t.id != id then multiset(todos)[t] else 0 {
      FilterMultiset(todos, OtherId(id), t);
    }
    FilterIdempotent(todos, OtherId(id));
  }

  /** `clearCompleted()` keeps, in their order, exactly the tasks not completed. */
  lemma UncompletedSpec(todos: seq<Todo>)
    ensures var r := Uncompleted(todos);
      && Subseq(r, todos)
      && (forall t :: multiset(r)[t] == if !t.completed then multiset(todos)[t] else 0)
      && forall i :: 0 <= i < |r| ==> !r[i].completed
  {
    FilterSubseq(todos, IsOpen());
    forall t ensures multiset(Uncompleted(todos))[t] == if !t.completed then multiset(todos)[t] else 0 {
      FilterMultiset(todos, IsOpen(), t);
    }
  }

  /** `toggleTodo(id)` keeps length, order and ids, leaves other tasks alone, and
      on each match flips `completed` with `status` brought in step. */
  lemma ToggledSpec(todos: seq<Todo>, id: Id, now: int)
    ensures var r := Toggled(todos, id, now);
      && Ids(r) == Ids(todos)
      && forall i :: 0 <= i < |todos| ==>
           if todos[i].id == id then
             r[i].completed == !todos[i].completed && StatusInStep(r[i]) && r[i].updatedAt == now
             && r[i].status == (if r[i].completed then Completed else Pending)
             && r[i] == todos[i].(completed := r[i].completed, status := r[i].status, updatedAt := now)
           else r[i] == todos[i]
  {
  }

  /** Toggling twice restores every `completed` flag, leaving the matched tasks in step. */
  lemma ToggleTwiceRestores(todos: seq<Todo>, id: Id, now1: int, now2: int)
    ensures var r := Toggled(Toggled(todos, id, now1), id, now2);
      && |r| == |todos|
      && forall i :: 0 <= i < |todos| ==>
           r[i].completed == todos[i].completed && (todos[i].id == id ==> StatusInStep(r[i]))
  {
  }

  /** `updateTodo(id, updates)` rewrites matched tasks with the given fields and
      the time, and leaves ids, length, order and the other tasks alone. */
  lemma UpdatedSpec(todos: seq<Todo>, id: Id, u: TodoUpdates, now: int)
    ensures var r := Updated(todos, id, u, now);
      && Ids(r) == Ids(todos)
      && forall i :: 0 <= i < |todos| ==>
           if todos[i].id == id then MergedFrom(todos[i], u, now, r[i]) else r[i] == todos[i]
  {
  }

  /** Key by key: `after` has each field `u` carries, keeps each field it
      lacks, keeps the id and carries the new time. */
  predicate MergedFrom(before: Todo, u: TodoUpdates, now: int, after: Todo) {
    && after.id == before.id && after.updatedAt == now
    && (if u.text.Some? then after.text == u.text.value else after.text == before.text)
    && (if u.completed.Some? then after.completed == u.completed.value else after.completed == before.completed)
    && (if u.status.Some? then after.status == u.status.value else after.status == before.status)
    && (if u.priority.Some? then after.priority == u.priority.value else after.priority == before.priority)
    && (if u.category.Some? then after.category == u.category.value else after.category == before.category)
    && (if u.createdAt.Some? then after.createdAt == u.createdAt.value else after.createdAt == before.createdAt)
    && (if u.dueDate.Some? then after.dueDate == u.dueDate.value else after.dueDate == before.dueDate)
    && (if u.description.Some? then after.description == u.description.value
        else after.description == before.description)
    && (if u.tags.Some? then after.tags == u.tags.value else after.tags == before.tags)
  }

  /** `updateTodoText(id, text)` ignores blank text; otherwise it sets only the
      trimmed text and the time on matched tasks. */
  lemma TextUpdatedSpec(todos: seq<Todo>, id: Id, text: string, now: int)
    ensures IsBlank(text) ==> TextUpdated(todos, id, text, now) == todos
    ensures !IsBlank(text) ==>
      var r := TextUpdated(todos, id, text, now);
      && |r| == |todos|
      && forall i :: 0 <= i < |todos| ==>
           r[i] == if todos[i].id == id then todos[i].(text := Trim(text), updatedAt := now) else todos[i]
  {
    TrimEmptyIffBlank(text);
  }

  /** `updateTodoPriority` and `updateTodoCategory` change only their field (and the time) on matched tasks. */
  lemma FieldUpdatesSpec(todos: seq<Todo>, id: Id, p: Priority, c: Category, now: int)
    ensures var r := PriorityUpdated(todos, id, p, now);
      |r| == |todos| && forall i :: 0 <= i < |todos| ==>
        r[i] == if todos[i].id == id then todos[i].(priority := p, updatedAt := now) else todos[i]
    ensures var r := CategoryUpdated(todos, id, c, now);
      |r| == |todos| && forall i :: 0 <= i < |todos| ==>
        r[i] == if todos[i].id == id then todos[i].(category := c, updatedAt := now) else todos[i]
  {
  }

  /** `updateTodoStatus(id, status)` leaves every matched task in step:
      completed exactly when the new status is completed. */
  lemma StatusUpdatedSpec(todos: seq<Todo>, id: Id, s: Status, now: int)
    ensures var r := StatusUpdated(todos, id, s, now);
      && Ids(r) == Ids(todos)
      && forall i :: 0 <= i < |todos| ==>
           if todos[i].id == id then
             r[i].status == s && r[i].completed == (s == Completed) && StatusInStep(r[i])
             && r[i] == todos[i].(status := s, completed := s == Completed, updatedAt := now)
           else r[i] == todos[i]
  {
  }

  /** `toggleAllTodos()`: when every task is completed (so also for no tasks) all
      are reopened as pending, otherwise all are completed; ids, length and
      order are kept, and every task ends in step. */
  lemma AllToggledSpec(todos: seq<Todo>, now: int)
    ensures var r := AllToggled(todos, now);
      && Ids(r) == Ids(todos)
      && (AllCompleted(todos) ==> forall i :: 0 <= i < |r| ==> !r[i].completed && r[i].status == Pending)
      && (!AllCompleted(todos) ==> forall i :: 0 <= i < |r| ==> r[i].completed && r[i].status == Completed)
      && (forall i :: 0 <= i < |r| ==> StatusInStep(r[i]))
      && forall i :: 0 <= i < |r| ==>
           r[i] == todos[i].(completed := r[i].completed, status := r[i].status, updatedAt := now)
  {
  }

  /** Toggling all twice on a non-empty list ends with every task completed
      if all were completed before, and with every task open otherwise. */
  lemma ToggleAllTwice(todos: seq<Todo>, now1: int, now2: int)
    requires todos != []
    ensures var r := AllToggled(AllToggled(todos, now1), now2);
      forall i :: 0 <= i < |r| ==> r[i].completed == AllCompleted(todos)
  {
    var once := AllToggled(todos, now1);
    if AllCompleted(todos) {
      assert !once[0].completed;
    } else {
      assert AllCompleted(once);
    }
  }

  /** `duplicateTodo(id)` without a match changes nothing; with one it puts in
      front a copy of the first match that has the new id, the text with
      " (Copy)" appended, is pending and open, and keeps priority, category,
      due date, description and tags; the old list follows unchanged. */
  lemma DuplicatedSpec(todos: seq<Todo>, id: Id, newId: Id, now: int)
    ensures (forall i :: 0 <= i < |todos| ==> todos[i].id != id) ==> Duplicated(todos, id, newId, now) == todos
    ensures (exists i :: 0 <= i < |todos| && todos[i].id == id) ==>
      var r := Duplicated(todos, id, newId, now);
      && |r| == |todos| + 1 && r[1..] == todos
      && var t := todos[FirstMatch(todos, id)];
           && t.id == id && (forall j :: 0 <= j < FirstMatch(todos, id) ==> todos[j].id != id)
           && r[0].id == newId && r[0].text == t.text + " (Copy)"
           && !r[0].completed && r[0].status == Pending
           && r[0].createdAt == now && r[0].updatedAt == now
           && r[0].priority == t.priority && r[0].category == t.category && r[0].dueDate == t.dueDate
           && r[0].description == t.description && r[0].tags == t.tags
  {
  }

  /** Actions that rewrite tasks in place keep the ids, hence their uniqueness. */
  lemma SameIdsKeepUnique(before: seq<Todo>, after: seq<Todo>)
    requires Ids(after) == Ids(before) && UniqueIds(before)
    ensures UniqueIds(after)
  {
    forall i, j | 0 <= i < j < |after| ensures after[i].id != after[j].id {
      assert Ids(after)[i] == Ids(before)[i] && Ids(after)[j] == Ids(before)[j];
    }
  }

  /** Putting a task with a fresh id in front keeps the ids unique. */
  lemma FreshFrontKeepsUnique(t: Todo, todos: seq<Todo>)
    requires UniqueIds(todos) && t.id !in Ids(todos)
    ensures UniqueIds([t] + todos)
  {
    var r := [t] + todos;
    forall i, j | 0 <= i < j < |r| ensures r[i].id != r[j].id {
      if i == 0 {
        assert Ids(todos)[j - 1] == r[j].id;
      }
    }
  }

  // ---------------------------------------------------------------------
  // The store object
  // ---------------------------------------------------------------------

  /** The zustand store: the task list and the view selectors. Each action
      replaces one field with a value built from the old state. */
  class Store {
    var todos: seq<Todo>
    var filter: string
    var sortBy: string
    var sortOrder: string
    var searchQuery: string
    var selectedCategory: string
    var selectedPriority: string

    /** Ids identify tasks: no two share one. */
    ghost predicate Valid()
      reads this
    {
      UniqueIds(todos)
    }

    /** The initial state: no tasks, every filter "all", newest first. */
    constructor ()
      ensures Valid() && todos == []
      ensures filter == "all" && sortBy == "createdAt" && sortOrder == "desc"
      ensures searchQuery == "" && selectedCategory == "all" && selectedPriority == "all"
    {
      todos := [];
      filter := "all";
      sortBy := "createdAt";
      sortOrder := "desc";
      searchQuery := "";
      selectedCategory := "all";
      selectedPriority := "all";
    }

    /** `useFilteredTodos()` against this store. */
    function FilteredTodos(): seq<Todo>
      reads this
    {
      TodoSelectors.FilteredTodos(todos, filter, searchQuery, selectedCategory, selectedPriority, sortBy, sortOrder)
    }

    /** `useTodoStats()` against this store at time `now`. */
    function Stats(now: int): TodoSelectors.Stats
      reads this
    {
      TodoSelectors.TodoStats(todos, now)
    }

    method AddTodo(text: string, options: TodoOptions, id: Id, now: int)
      requires Valid() && id !in Ids(todos)
      modifies this`todos
      ensures Valid()
      ensures todos == Added(old(todos), text, options, id, now)
      ensures IsBlank(text) ==> todos == old(todos)
      ensures !IsBlank(text) ==> todos == [CreateTodo(text, options, id, now)] + old(todos)
    {
      TrimEmptyIffBlank(text);
      if Trim(text) != "" {
        FreshFrontKeepsUnique(CreateTodo(text, options, id, now), todos);
        todos := [CreateTodo(text, options, id, now)] + todos;
      }
    }

    method RemoveTodo(id: Id)
      requires Valid()
      modifies this`todos
      ensures Valid()
      ensures todos == Removed(old(todos), id)
      ensures forall t :: t in todos <==> t in old(todos) && t.id != id
    {
      RemovedSpec(todos, id);
      SubseqKeepsUniqueIds(Removed(todos, id), todos);
      todos := Removed(todos, id);
    }

    method ToggleTodo(id: Id, now: int)
      requires Valid()
      modifies this`todos
      ensures Valid()
      ensures todos == Toggled(old(todos), id, now)
    {
      ToggledSpec(todos, id, now);
      SameIdsKeepUnique(todos, Toggled(todos, id, now));
      todos := Toggled(todos, id, now);
    }

    method UpdateTodo(id: Id, updates: TodoUpdates, now: int)
      requires Valid()
      modifies this`todos
      ensures Valid()
      ensures todos == Updated(old(todos), id, updates, now)
    {
      UpdatedSpec(todos, id, updates, now);
      SameIdsKeepUnique(todos, Updated(todos, id, updates, now));
      todos := Updated(todos, id, updates, now);
    }

    method UpdateTodoText(id: Id, text: string, now: int)
      requires Valid()
      modifies this`todos
      ensures Valid()
      ensures todos == TextUpdated(old(todos), id, text, now)
      ensures IsBlank(text) ==> todos == old(todos)
    {
      TextUpdatedSpec(todos, id, text, now);
      if !IsBlank(text) {
        SameIdsKeepUnique(todos, TextUpdated(todos, id, text, now));
      }
      todos := TextUpdated(todos, id, text, now);
    }

    method UpdateTodoPriority(id: Id, priority: Priority, now: int)
      requires Valid()
      modifies this`todos
      ensures Valid()
      ensures todos == PriorityUpdated(old(todos), id, priority, now)
    {
      SameIdsKeepUnique(todos, PriorityUpdated(todos, id, priority, now));
      todos := PriorityUpdated(todos, id, priority, now);
    }

    method UpdateTodoStatus(id: Id, status: Status, now: int)
      requires Valid()
      modifies this`todos
      ensures Valid()
      ensures todos == StatusUpdated(old(todos), id, status, now)
    {
      SameIdsKeepUnique(todos, StatusUpdated(todos, id, status, now));
      todos := StatusUpdated(todos, id, status, now);
    }

    method UpdateTodoCategory(id: Id, category: Category, now: int)
      requires Valid()
      modifies this`todos
      ensures Valid()
      ensures todos == CategoryUpdated(old(todos), id, category, now)
    {
      SameIdsKeepUnique(todos, CategoryUpdated(todos, id, category, now));
      todos := CategoryUpdated(todos, id, category, now);
    }

    method ClearCompleted()
      requires Valid()
      modifies this`todos
      ensures Valid()
      ensures todos == Uncompleted(old(todos))
      ensures forall i :: 0 <= i < |todos| ==> !todos[i].completed
    {
      UncompletedSpec(todos);
      SubseqKeepsUniqueIds(Uncompleted(todos), todos);
      todos := Uncompleted(todos);
    }

    method ClearAll()
      modifies this`todos
      ensures Valid() && todos == []
    {
      todos := [];
    }

    method SetFilter(filter: string)
      modifies this`filter
      ensures this.filter == filter
    {
      this.filter := filter;
    }

    method SetSearchQuery(query: string)
      modifies this`searchQuery
      ensures searchQuery == query
    {
      searchQuery := query;
    }

    method SetSelectedCategory(category: string)
      modifies this`selectedCategory
      ensures selectedCategory == category
    {
      selectedCategory := category;
    }

    method SetSelectedPriority(priority: string)
      modifies this`selectedPriority
      ensures selectedPriority == priority
    {
      selectedPriority := priority;
    }

    method SetSortBy(sortBy: string)
      modifies this`sortBy
      ensures this.sortBy == sortBy
    {
      this.sortBy := sortBy;
    }

    method SetSortOrder(sortOrder: string)
      modifies this`sortOrder
      ensures this.sortOrder == sortOrder
    {
      this.sortOrder := sortOrder;
    }

    method ToggleAllTodos(now: int)
      requires Valid()
      modifies this`todos
      ensures Valid()
      ensures todos == AllToggled(old(todos), now)
    {
      AllToggledSpec(todos, now);
      SameIdsKeepUnique(todos, AllToggled(todos, now));
      todos := AllToggled(todos, now);
    }

    method DuplicateTodo(id: Id, newId: Id, now: int)
      requires Valid() && newId !in Ids(todos)
      modifies this`todos
      ensures Valid()
      ensures todos == Duplicated(old(todos), id, newId, now)
    {
      var found := Find(todos, id);
      if found.Some? {
        FreshFrontKeepsUnique(CopyOf(found.value, newId, now), todos);
      }
      todos := Duplicated(todos, id, newId, now);
    }
  }
}
