/** The inline task list of `src/App.jsx`: component state held by `useState`
    and the handlers that replace it. `Date.now()` and the ISO time stamp are
    parameters `id` and `now`. */
module AppComponent {
  import opened Optional
  import opened Text
  import opened Lists
  import TodoModel

  /** The record `addTodo` builds here: no status, category, due date or tags. */
  datatype Todo = Todo(id: int, text: string, completed: bool, createdAt: int, priority: TodoModel.Priority)

  function HasId(id: int): Todo -> bool { (t: Todo) => t.id == id }
  function OtherId(id: int): Todo -> bool { (t: Todo) => t.id != id }
  function IsEditing(editingId: Option<int>): Todo -> bool { (t: Todo) => editingId == Some(t.id) }
  function Flip(): Todo -> Todo { (t: Todo) => t.(completed := !t.completed) }
  function SetText(text: string): Todo -> Todo { (t: Todo) => t.(text := text) }
  function SetPriority(p: TodoModel.Priority): Todo -> Todo { (t: Todo) => t.(priority := p) }
  function IsDone(): Todo -> bool { (t: Todo) => t.completed }
  function IsOpen(): Todo -> bool { (t: Todo) => !t.completed }

  /** `addTodo()`: a blank input adds nothing; otherwise an open, medium-priority
      task with the trimmed text goes in front. */
  function Added(todos: seq<Todo>, input: string, id: int, now: int): (r: seq<Todo>)
    ensures IsBlank(input) ==> r == todos
    ensures !IsBlank(input) ==> r == [Todo(id, Trim(input), false, now, TodoModel.Medium)] + todos
  {
    TrimEmptyIffBlank(input);
    if Trim(input) != "" then [Todo(id, Trim(input), false, now, TodoModel.Medium)] + todos else todos
  }

  /** `toggleTodo(id)`. */
  function Toggled(todos: seq<Todo>, id: int): seq<Todo> {
    MapWhere(todos, HasId(id), Flip())
  }

  /** `deleteTodo(id)`. */
  function Deleted(todos: seq<Todo>, id: int): seq<Todo> {
    Filter(todos, OtherId(id))
  }

  /** The list `saveEdit()` leaves: nothing changes for blank text, otherwise the
      edited task gets the trimmed text. A null `editingId` matches no task. */
  function Edited(todos: seq<Todo>, editingId: Option<int>, editingText: string): seq<Todo> {
    if Trim(editingText) != "" then MapWhere(todos, IsEditing(editingId), SetText(Trim(editingText))) else todos
  }

  /** `setPriority(id, priority)`. */
  function PriorityChanged(todos: seq<Todo>, id: int, p: TodoModel.Priority): seq<Todo> {
    MapWhere(todos, HasId(id), SetPriority(p))
  }

  /** The completion filter of the view: an unknown value matches nothing. */
  predicate MatchesFilter(t: Todo, filter: string) {
    filter == "all" || (filter == "active" && !t.completed) || (filter == "completed" && t.completed)
  }

  /** Shown in the view: passes the filter, and the lowered text contains the lowered search term. */
  predicate Matches(t: Todo, filter: string, searchTerm: string) {
    MatchesFilter(t, filter) && Includes(ToLower(t.text), ToLower(searchTerm))
  }
  function Shown(filter: string, searchTerm: string): Todo -> bool { (t: Todo) => Matches(t, filter, searchTerm) }

  /** `filteredTodos`. */
  function FilteredTodos(todos: seq<Todo>, filter: string, searchTerm: string): seq<Todo> {
    Filter(todos, Shown(filter, searchTerm))
  }

  /** `completedCount`. */
  function CompletedCount(todos: seq<Todo>): nat { |Filter(todos, IsDone())| }

  /** `activeCount`. */
  function ActiveCount(todos: seq<Todo>): nat { |Filter(todos, IsOpen())| }

  /** `toggleTodo(id)` flips `completed` on the tasks with the id and changes
      nothing else; toggling twice restores the list. */
  lemma ToggledSpec(todos: seq<Todo>, id: int)
    ensures var r := Toggled(todos, id);
      && |r| == |todos|
      && (forall i :: 0 <= i < |todos| ==>
            r[i] == if todos[i].id == id then todos[i].(completed := !todos[i].completed) else todos[i])
      && Toggled(r, id) == todos
  {
    var r := Toggled(todos, id);
    var rr := Toggled(r, id);
    assert forall i :: 0 <= i < |todos| ==> rr[i] == todos[i];
  }

  /** `deleteTodo(id)` keeps, in order, exactly the tasks with another id. */
  lemma DeletedSpec(todos: seq<Todo>, id: int)
    ensures var r := Deleted(todos, id);
      && Subseq(r, todos)
      && (forall t :: multiset(r)[t] == if t.id != id then multiset(todos)[t] else 0)
  {
    FilterSubseq(todos, OtherId(id));
    forall t ensures multiset(Deleted(todos, id))[t] == if t.id != id then multiset(todos)[t] else 0 {
      FilterMultiset(todos, OtherId(id), t);
    }
  }

  /** Saving a blank edit changes nothing; otherwise only the text of the
      edited task changes, to the trimmed edit. */
  lemma EditedSpec(todos: seq<Todo>, editingId: Option<int>, editingText: string)
    ensures IsBlank(editingText) ==> Edited(todos, editingId, editingText) == todos
    ensures !IsBlank(editingText) ==>
      var r := Edited(todos, editingId, editingText);
      && |r| == |todos|
      && forall i :: 0 <= i < |todos| ==>
           r[i] == if editingId == Some(todos[i].id) then todos[i].(text := Trim(editingText)) else todos[i]
    ensures editingId.None? ==> Edited(todos, editingId, editingText) == todos
  {
    TrimEmptyIffBlank(editingText);
    var r := Edited(todos, editingId, editingText);
    if editingId.None? {
      assert forall i :: 0 <= i < |todos| ==> r[i] == todos[i];
    }
  }

  /** `setPriority(id, p)` changes only the priority of the tasks with the id. */
  lemma PriorityChangedSpec(todos: seq<Todo>, id: int, p: TodoModel.Priority)
    ensures var r := PriorityChanged(todos, id, p);
      && |r| == |todos|
      && forall i :: 0 <= i < |todos| ==>
           r[i] == if todos[i].id == id then todos[i].(priority := p) else todos[i]
  {
  }

  /** The view keeps the list's order and shows each task that matches the
      filter and the search as often as it occurs, and no other task; an empty
      search term matches every task, so "all" with no search shows the list. */
  lemma FilteredTodosSpec(todos: seq<Todo>, filter: string, searchTerm: string)
    ensures var r := FilteredTodos(todos, filter, searchTerm);
      && Subseq(r, todos)
      && (forall t :: multiset(r)[t] == if Matches(t, filter, searchTerm) then multiset(todos)[t] else 0)
      && (forall t :: t in r <==> t in todos && MatchesFilter(t, filter) && Includes(ToLower(t.text), ToLower(searchTerm)))
    ensures searchTerm == "" ==>
      forall t :: t in FilteredTodos(todos, filter, searchTerm) <==> t in todos && MatchesFilter(t, filter)
    ensures filter == "all" && searchTerm == "" ==> FilteredTodos(todos, filter, searchTerm) == todos
  {
    FilterSubseq(todos, Shown(filter, searchTerm));
    FilterMembership(todos, Shown(filter, searchTerm));
    forall t ensures multiset(FilteredTodos(todos, filter, searchTerm))[t]
                  == if Matches(t, filter, searchTerm) then multiset(todos)[t] else 0 {
      FilterMultiset(todos, Shown(filter, searchTerm), t);
    }
    forall t: Todo ensures Includes(ToLower(t.text), ToLower("")) {
      EmptyIncluded(ToLower(t.text));
    }
    if filter == "all" && searchTerm == "" {
      FilterKeepsAll(todos, Shown(filter, searchTerm));
    }
  }

  /** Open and completed tasks add up to all tasks. */
  lemma CountsAddUp(todos: seq<Todo>)
    ensures ActiveCount(todos) + CompletedCount(todos) == |todos|
  {
    FilterPartition(todos, IsDone(), IsOpen());
  }

  /** The component's state. */
  class App {
    var todos: seq<Todo>
    var newTodo: string
    var filter: string
    var searchTerm: string
    var editingId: Option<int>
    var editingText: string

    constructor ()
      ensures todos == [] && newTodo == "" && filter == "all" && searchTerm == ""
      ensures editingId == None && editingText == ""
    {
      todos := [];
      newTodo := "";
      filter := "all";
      searchTerm := "";
      editingId := None;
      editingText := "";
    }

    /** The input's `onChange`. */
    method SetNewTodo(value: string)
      modifies this`newTodo
      ensures newTodo == value
    {
      newTodo := value;
    }

    /** A filter button's `onClick`. */
    method SetFilter(value: string)
      modifies this`filter
      ensures filter == value
    {
      filter := value;
    }

    /** The search box's `onChange`. */
    method SetSearchTerm(value: string)
      modifies this`searchTerm
      ensures searchTerm == value
    {
      searchTerm := value;
    }

    /** The edit input's `onChange`. */
    method SetEditingText(value: string)
      modifies this`editingText
      ensures editingText == value
    {
      editingText := value;
    }

    /** `addTodo()`: a blank input changes nothing, not even the input. */
    method AddTodo(id: int, now: int)
      modifies this`todos, this`newTodo
      ensures todos == Added(old(todos), old(newTodo), id, now)
      ensures newTodo == if IsBlank(old(newTodo)) then old(newTodo) else ""
    {
      TrimEmptyIffBlank(newTodo);
      if Trim(newTodo) != "" {
        todos := Added(todos, newTodo, id, now);
        newTodo := "";
      }
    }

    method ToggleTodo(id: int)
      modifies this`todos
      ensures todos == Toggled(old(todos), id)
      ensures |todos| == |old(todos)|
    {
      todos := Toggled(todos, id);
    }

    method DeleteTodo(id: int)
      modifies this`todos
      ensures todos == Deleted(old(todos), id)
      ensures forall t :: t in todos <==> t in old(todos) && t.id != id
    {
      FilterMembership(todos, OtherId(id));
      todos := Deleted(todos, id);
    }

    method StartEditing(id: int, text: string)
      modifies this`editingId, this`editingText
      ensures editingId == Some(id) && editingText == text
    {
      editingId := Some(id);
      editingText := text;
    }

    /** `saveEdit()`: applies a non-blank edit, then always leaves edit mode. */
    method SaveEdit()
      modifies this`todos, this`editingId, this`editingText
      ensures todos == Edited(old(todos), old(editingId), old(editingText))
      ensures editingId == None && editingText == ""
    {
      if Trim(editingText) != "" {
        todos := Edited(todos, editingId, editingText);
      }
      editingId := None;
      editingText := "";
    }

    /** `cancelEdit()`: leaves edit mode, the list untouched. */
    method CancelEdit()
      modifies this`editingId, this`editingText
      ensures editingId == None && editingText == ""
    {
      editingId := None;
      editingText := "";
    }

    method SetPriority(id: int, p: TodoModel.Priority)
      modifies this`todos
      ensures todos == PriorityChanged(old(todos), id, p)
    {
      todos := PriorityChanged(todos, id, p);
    }
  }
}
