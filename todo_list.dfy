/** The self-contained task list component (`src/components/TodoList.jsx`):
    component state and the handlers that replace it. `Date.now()` and the
    creation time are parameters `id` and `now`. */
module TodoListComponent {
  import opened Optional
  import opened Text
  import opened Lists

  /** The record `addTodo` builds here: no priority. */
  datatype Todo = Todo(id: int, text: string, completed: bool, createdAt: int)

  function HasId(id: int): Todo -> bool { (t: Todo) => t.id == id }
  function OtherId(id: int): Todo -> bool { (t: Todo) => t.id != id }
  function IsEditing(editingId: Option<int>): Todo -> bool { (t: Todo) => editingId == Some(t.id) }
  function Flip(): Todo -> Todo { (t: Todo) => t.(completed := !t.completed) }
  function SetText(text: string): Todo -> Todo { (t: Todo) => t.(text := text) }
  function IsDone(): Todo -> bool { (t: Todo) => t.completed }

  /** The new list of `addTodo`: nothing for a blank input, otherwise an open
      task with the trimmed text in front. */
  function Added(todos: seq<Todo>, input: string, id: int, now: int): (r: seq<Todo>)
    ensures IsBlank(input) ==> r == todos
    ensures !IsBlank(input) ==> r == [Todo(id, Trim(input), false, now)] + todos
  {
    TrimEmptyIffBlank(input);
    if Trim(input) != "" then [Todo(id, Trim(input), false, now)] + todos else todos
  }

  /** `deleteTodo(id)`. */
  function Deleted(todos: seq<Todo>, id: int): seq<Todo> {
    Filter(todos, OtherId(id))
  }

  /** `toggleComplete(id)`. */
  function Toggled(todos: seq<Todo>, id: int): seq<Todo> {
    MapWhere(todos, HasId(id), Flip())
  }

  /** The list `saveEdit()` leaves: nothing changes for blank text, otherwise the
      edited task gets the trimmed text. */
  function Edited(todos: seq<Todo>, editingId: Option<int>, editText: string): seq<Todo> {
    if Trim(editText) != "" then MapWhere(todos, IsEditing(editingId), SetText(Trim(editText))) else todos
  }

  /** `completedCount`. */
  function CompletedCount(todos: seq<Todo>): nat { |Filter(todos, IsDone())| }

  /** `totalCount`. */
  function TotalCount(todos: seq<Todo>): nat { |todos| }

  /** `deleteTodo(id)` keeps, in order, exactly the tasks with another id. */
  lemma DeletedSpec(todos: seq<Todo>, id: int)
    ensures var r := Deleted(todos, id);
      && Subseq(r, todos)
      && (forall t :: multiset(r)[t] == if t.id != id then multiset(todos)[t] else 0)
  {
    FilterSubseq(todos, OtherId(id));
    forall t ensures multiset(Deleted(todos, id))[t] == if t.id != id then multiset(todos)[t] else 0 {
      FilterMultiset(todos, OtherId(id), t);
    }
  }

  /** `toggleComplete(id)` flips `completed` on the tasks with the id only,
      keeps the length, and undoes itself when applied twice. */
  lemma ToggledSpec(todos: seq<Todo>, id: int)
    ensures var r := Toggled(todos, id);
      && |r| == |todos|
      && (forall i :: 0 <= i < |todos| ==>
            r[i] == if todos[i].id == id then todos[i].(completed := !todos[i].completed) else todos[i])
      && Toggled(r, id) == todos
  {
    var rr := Toggled(Toggled(todos, id), id);
    assert forall i :: 0 <= i < |todos| ==> rr[i] == todos[i];
  }

  /** Saving a blank edit changes nothing; otherwise only the text of the
      edited task changes, to the trimmed edit. */
  lemma EditedSpec(todos: seq<Todo>, editingId: Option<int>, editText: string)
    ensures IsBlank(editText) ==> Edited(todos, editingId, editText) == todos
    ensures !IsBlank(editText) ==>
      var r := Edited(todos, editingId, editText);
      && |r| == |todos|
      && forall i :: 0 <= i < |todos| ==>
           r[i] == if editingId == Some(todos[i].id) then todos[i].(text := Trim(editText)) else todos[i]
  {
    TrimEmptyIffBlank(editText);
  }

  /** No more tasks are completed than there are tasks. */
  lemma CompletedAtMostTotal(todos: seq<Todo>)
    ensures CompletedCount(todos) <= TotalCount(todos) == |todos|
  {
  }

  /** The component's state. */
  class TodoList {
    var todos: seq<Todo>
    var newTodo: string
    var editingId: Option<int>
    var editText: string

    constructor ()
      ensures todos == [] && newTodo == "" && editingId == None && editText == ""
    {
      todos := [];
      newTodo := "";
      editingId := None;
      editText := "";
    }

    /** The new-task input's `onChange`. */
    method SetNewTodo(value: string)
      modifies this`newTodo
      ensures newTodo == value
    {
      newTodo := value;
    }

    /** The edit input's `onChange`. */
    method SetEditText(value: string)
      modifies this`editText
      ensures editText == value
    {
      editText := value;
    }

    /** `addTodo()`: a blank input changes nothing; otherwise the task goes in front and the input is cleared. */
    method AddTodo(id: int, now: int)
      modifies this`todos, this`newTodo
      ensures todos == Added(old(todos), old(newTodo), id, now)
      ensures newTodo == if IsBlank(old(newTodo)) then old(newTodo) else ""
    {
      TrimEmptyIffBlank(newTodo);
      if Trim(newTodo) != "" {
        todos := Added(todos, newTodo, id, now);
        newTodo := "";
      }
    }

    method DeleteTodo(id: int)
      modifies this`todos
      ensures todos == Deleted(old(todos), id)
      ensures forall t :: t in todos <==> t in old(todos) && t.id != id
    {
      FilterMembership(todos, OtherId(id));
      todos := Deleted(todos, id);
    }

    method ToggleComplete(id: int)
      modifies this`todos
      ensures todos == Toggled(old(todos), id)
      ensures |todos| == |old(todos)|
    {
      todos := Toggled(todos, id);
    }

    method StartEdit(id: int, text: string)
      modifies this`editingId, this`editText
      ensures editingId == Some(id) && editText == text
    {
      editingId := Some(id);
      editText := text;
    }

    /** `saveEdit()`: applies a non-blank edit, then always leaves edit mode. */
    method SaveEdit()
      modifies this`todos, this`editingId, this`editText
      ensures todos == Edited(old(todos), old(editingId), old(editText))
      ensures editingId == None && editText == ""
    {
      if Trim(editText) != "" {
        todos := Edited(todos, editingId, editText);
      }
      editingId := None;
      editText := "";
    }

    /** `cancelEdit()`: leaves edit mode, the list untouched. */
    method CancelEdit()
      modifies this`editingId, this`editText
      ensures editingId == None && editText == ""
    {
      editingId := None;
      editText := "";
    }
  }
}
