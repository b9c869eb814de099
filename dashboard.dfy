/** The task list of the dashboard page (`src/pages/Dashboard.jsx`): component
    state and the handlers that replace it. `Date.now()` and the ISO time
    stamp are parameters `id` and `now`. */
module DashboardPage {
  import opened Optional
  import opened Text
  import opened Lists
  import TodoModel

  /** The record `addTodo` builds on this page. */
  datatype Todo = Todo(id: int, text: string, completed: bool, createdAt: int, priority: TodoModel.Priority)

  /** The fields an `updates` object may carry; `None` is an absent key. */
  datatype Updates = Updates(text: Option<string>, completed: Option<bool>, createdAt: Option<int>, priority: Option<TodoModel.Priority>)

  function HasId(id: int): Todo -> bool { (t: Todo) => t.id == id }
  function OtherId(id: int): Todo -> bool { (t: Todo) => t.id != id }
  function IsDone(): Todo -> bool { (t: Todo) => t.completed }
  function IsOpen(): Todo -> bool { (t: Todo) => !t.completed }

  /** `{ ...todo, ...updates }`. */
  function Merge(t: Todo, u: Updates): Todo {
    t.(text := u.text.GetOr(t.text),
       completed := u.completed.GetOr(t.completed),
       createdAt := u.createdAt.GetOr(t.createdAt),
       priority := u.priority.GetOr(t.priority))
  }
  function MergeWith(u: Updates): Todo -> Todo { (t: Todo) => Merge(t, u) }

  /** The new list of `addTodo`: nothing for a blank input, otherwise an open,
      medium-priority task with the trimmed text in front. */
  function Added(todos: seq<Todo>, input: string, id: int, now: int): (r: seq<Todo>)
    ensures IsBlank(input) ==> r == todos
    ensures !IsBlank(input) ==> r == [Todo(id, Trim(input), false, now, TodoModel.Medium)] + todos
  {
    TrimEmptyIffBlank(input);
    if Trim(input) != "" then [Todo(id, Trim(input), false, now, TodoModel.Medium)] + todos else todos
  }

  /** `updateTodo(id, updates)`. */
  function Updated(todos: seq<Todo>, id: int, u: Updates): seq<Todo> {
    MapWhere(todos, HasId(id), MergeWith(u))
  }

  /** `deleteTodo(id)`. */
  function Deleted(todos: seq<Todo>, id: int): seq<Todo> {
    Filter(todos, OtherId(id))
  }

  /** The status filter: "pending" is the open tasks, and a value other than
      "all", "pending" or "completed" matches nothing. */
  predicate MatchesStatus(t: Todo, filterStatus: string) {
    filterStatus == "all" || (filterStatus == "completed" && t.completed) || (filterStatus == "pending" && !t.completed)
  }

  predicate Matches(t: Todo, searchTerm: string, filterStatus: string) {
    Includes(ToLower(t.text), ToLower(searchTerm)) && MatchesStatus(t, filterStatus)
  }
  function Shown(searchTerm: string, filterStatus: string): Todo -> bool {
    (t: Todo) => Matches(t, searchTerm, filterStatus)
  }

  /** `filteredTodos`. */
  function FilteredTodos(todos: seq<Todo>, searchTerm: string, filterStatus: string): seq<Todo> {
    Filter(todos, Shown(searchTerm, filterStatus))
  }

  /** `completedCount`. */
  function CompletedCount(todos: seq<Todo>): nat { |Filter(todos, IsDone())| }

  /** `pendingCount`. */
  function PendingCount(todos: seq<Todo>): nat { |Filter(todos, IsOpen())| }

  /** `totalCount`. */
  function TotalCount(todos: seq<Todo>): nat { |todos| }

  /** `updateTodo(id, updates)` overwrites on the tasks with the id exactly the
      fields `updates` carries, and leaves length, order and other tasks alone. */
  lemma UpdatedSpec(todos: seq<Todo>, id: int, u: Updates)
    ensures var r := Updated(todos, id, u);
      && |r| == |todos|
      && forall i :: 0 <= i < |todos| ==>
           if todos[i].id == id then
             && r[i].id == id
             && r[i].text == (if u.text.Some? then u.text.value else todos[i].text)
             && r[i].completed == (if u.completed.Some? then u.completed.value else todos[i].completed)
             && r[i].createdAt == (if u.createdAt.Some? then u.createdAt.value else todos[i].createdAt)
             && r[i].priority == (if u.priority.Some? then u.priority.value else todos[i].priority)
           else r[i] == todos[i]
  {
  }

  /** Updating with an empty `updates` object changes nothing. */
  lemma EmptyUpdateIsIdentity(todos: seq<Todo>, id: int)
    ensures Updated(todos, id, Updates(None, None, None, None)) == todos
  {
    var r := Updated(todos, id, Updates(None, None, None, None));
    assert forall i :: 0 <= i < |todos| ==> r[i] == todos[i];
  }

  /** `deleteTodo(id)` keeps, in order, exactly the tasks with another id. */
  lemma DeletedSpec(todos: seq<Todo>, id: int)
    ensures var r := Deleted(todos, id);
      && Subseq(r, todos)
      && (forall t :: multiset(r)[t] == if t.id != id then multiset(todos)[t] else 0)
  {
    FilterSubseq(todos, OtherId(id));
    forall t ensures multiset(Deleted(todos, id))[t] == if t.id != id then multiset(todos)[t] else 0 {
      FilterMultiset(todos, OtherId(id), t);
    }
  }

  /** The view keeps the list's order and shows each task whose lowered text
      contains the lowered search term and that matches the status filter as
      often as it occurs, and no other task; an unknown status shows nothing,
      and "all" with no search shows the whole list. */
  lemma FilteredTodosSpec(todos: seq<Todo>, searchTerm: string, filterStatus: string)
    ensures var r := FilteredTodos(todos, searchTerm, filterStatus);
      && Subseq(r, todos)
      && (forall t :: multiset(r)[t] == if Matches(t, searchTerm, filterStatus) then multiset(todos)[t] else 0)
      && (forall t :: t in r <==> t in todos && MatchesStatus(t, filterStatus) && Includes(ToLower(t.text), ToLower(searchTerm)))
    ensures filterStatus !in {"all", "pending", "completed"} ==> FilteredTodos(todos, searchTerm, filterStatus) == []
    ensures searchTerm == "" && filterStatus == "all" ==> FilteredTodos(todos, searchTerm, filterStatus) == todos
  {
    FilterSubseq(todos, Shown(searchTerm, filterStatus));
    FilterMembership(todos, Shown(searchTerm, filterStatus));
    forall t ensures multiset(FilteredTodos(todos, searchTerm, filterStatus))[t]
                  == if Matches(t, searchTerm, filterStatus) then multiset(todos)[t] else 0 {
      FilterMultiset(todos, Shown(searchTerm, filterStatus), t);
    }
    if filterStatus !in {"all", "pending", "completed"} {
      FilterDropsAll(todos, Shown(searchTerm, filterStatus));
    }
    if searchTerm == "" && filterStatus == "all" {
      forall i | 0 <= i < |todos| ensures Matches(todos[i], searchTerm, filterStatus) {
        EmptyIncluded(ToLower(todos[i].text));
      }
      FilterKeepsAll(todos, Shown(searchTerm, filterStatus));
    }
  }

  /** Completed and pending tasks add up to the total. */
  lemma CountsAddUp(todos: seq<Todo>)
    ensures CompletedCount(todos) + PendingCount(todos) == TotalCount(todos)
  {
    FilterPartition(todos, IsDone(), IsOpen());
  }

  /** The page's state. */
  class Dashboard {
    var todos: seq<Todo>
    var searchTerm: string
    var filterStatus: string
    var newTodo: string
    var showAddForm: bool

    constructor ()
      ensures todos == [] && searchTerm == "" && filterStatus == "all" && newTodo == "" && !showAddForm
    {
      todos := [];
      searchTerm := "";
      filterStatus := "all";
      newTodo := "";
      showAddForm := false;
    }

    /** The search box's `onChange`. */
    method SetSearchTerm(value: string)
      modifies this`searchTerm
      ensures searchTerm == value
    {
      searchTerm := value;
    }

    /** The status select's `onChange`. */
    method SetFilterStatus(value: string)
      modifies this`filterStatus
      ensures filterStatus == value
    {
      filterStatus := value;
    }

    /** The new-task input's `onChange`. */
    method SetNewTodo(value: string)
      modifies this`newTodo
      ensures newTodo == value
    {
      newTodo := value;
    }

    /** The "Add Task" button: shows or hides the form. */
    method ToggleAddForm()
      modifies this`showAddForm
      ensures showAddForm == !old(showAddForm)
    {
      showAddForm := !showAddForm;
    }

    /** The form's "Cancel" button: hides the form and clears the input. */
    method CancelAddForm()
      modifies this`showAddForm, this`newTodo
      ensures !showAddForm && newTodo == ""
    {
      showAddForm := false;
      newTodo := "";
    }

    /** `addTodo(e)`: a blank input changes nothing; otherwise the task goes in
        front, the input is cleared and the form hidden. */
    method AddTodo(id: int, now: int)
      modifies this`todos, this`newTodo, this`showAddForm
      ensures todos == Added(old(todos), old(newTodo), id, now)
      ensures IsBlank(old(newTodo)) ==> newTodo == old(newTodo) && showAddForm == old(showAddForm)
      ensures !IsBlank(old(newTodo)) ==> newTodo == "" && !showAddForm
    {
      TrimEmptyIffBlank(newTodo);
      if Trim(newTodo) != "" {
        todos := Added(todos, newTodo, id, now);
        newTodo := "";
        showAddForm := false;
      }
    }

    method UpdateTodo(id: int, updates: Updates)
      modifies this`todos
      ensures todos == Updated(old(todos), id, updates)
      ensures |todos| == |old(todos)|
    {
      todos := Updated(todos, id, updates);
    }

    method DeleteTodo(id: int)
      modifies this`todos
      ensures todos == Deleted(old(todos), id)
      ensures forall t :: t in todos <==> t in old(todos) && t.id != id
    {
      FilterMembership(todos, OtherId(id));
      todos := Deleted(todos, id);
    }
  }
}
