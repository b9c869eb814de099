/** The task record of the store (`src/utils/todoStore.js`): its enumerations,
    the defaults `createTodo` fills in, and the overdue test. Ids and
    timestamps are integers supplied by the caller. */
module TodoModel {
  import opened Optional
  import opened Text

  type Id = int

  /** `PRIORITY_LEVELS`, in declaration order low, medium, high. */
  datatype Priority = Low | Medium | High

  /** `STATUS_TYPES`. */
  datatype Status = Pending | InProgress | Completed

  /** `CATEGORY_TYPES`. */
  datatype Category = Work | Personal | Shopping | Health | Other

  /** The string each priority is stored as, matched against the priority selector. */
  function PriorityName(p: Priority): string {
    match p
    case Low => "low"
    case Medium => "medium"
    case High => "high"
  }

  /** The string each category is stored as, matched against the category selector. */
  function CategoryName(c: Category): string {
    match c
    case Work => "work"
    case Personal => "personal"
    case Shopping => "shopping"
    case Health => "health"
    case Other => "other"
  }

  /** No two priorities, and no two categories, share a name, and none is named "all". */
  lemma NamesDistinct()
    ensures forall p, q :: PriorityName(p) == PriorityName(q) ==> p == q
    ensures forall c, d :: CategoryName(c) == CategoryName(d) ==> c == d
    ensures forall p :: PriorityName(p) != "all"
    ensures forall c :: CategoryName(c) != "all"
  {
  }

  /** The rank table `{ high: 3, medium: 2, low: 1 }` of the priority sort. */
  function Rank(p: Priority): int {
    match p
    case High => 3
    case Medium => 2
    case Low => 1
  }

  /** One task. `dueDate` is null when absent; `completed` and `status` are
      separate fields that only some operations keep in step. */
  datatype Todo = Todo(
    id: Id,
    text: string,
    completed: bool,
    status: Status,
    priority: Priority,
    category: Category,
    createdAt: int,
    updatedAt: int,
    dueDate: Option<int>,
    description: string,
    tags: seq<string>)

  /** The optional `options` bag of `createTodo`/`addTodo`; `None` is a missing key. */
  datatype TodoOptions = TodoOptions(
    status: Option<Status>,
    priority: Option<Priority>,
    category: Option<Category>,
    dueDate: Option<int>,
    description: Option<string>,
    tags: Option<seq<string>>)

  /** `addTodo(text)` called without options. */
  const NoOptions := TodoOptions(None, None, None, None, None, None)

  /** `completed` and `status` agree: done exactly when the status is completed. */
  predicate StatusInStep(t: Todo) {
    t.completed <==> t.status == Completed
  }

  /** `createTodo(text, options)` with `id` standing for `generateId()` and
      `now` for both timestamps. */
  function CreateTodo(text: string, options: TodoOptions, id: Id, now: int): (t: Todo)
    ensures t.id == id && t.createdAt == now && t.updatedAt == now
    ensures t.text == Trim(text)
    ensures !t.completed
  {
    Todo(
      id := id,
      text := Trim(text),
      completed := false,
      status := options.status.GetOr(Pending),
      priority := options.priority.GetOr(Medium),
      category := options.category.GetOr(Other),
      createdAt := now,
      updatedAt := now,
      dueDate := options.dueDate,
      description := options.description.GetOr(""),
      tags := options.tags.GetOr([]))
  }

  /** Missing options default to medium, other, pending, no due date, an empty
      description and no tags. */
  lemma CreateTodoDefaults(text: string, id: Id, now: int)
    ensures var t := CreateTodo(text, NoOptions, id, now);
      && t.priority == Medium && t.category == Other && t.status == Pending
      && t.dueDate == None && t.description == "" && t.tags == []
      && StatusInStep(t)
  {
  }

  /** Given options are copied through, and a new task is never completed even
      when `options.status` says completed, so the two fields can disagree. */
  lemma CreateTodoKeepsOptions(text: string, options: TodoOptions, id: Id, now: int)
    ensures var t := CreateTodo(text, options, id, now);
      && (options.status.Some? ==> t.status == options.status.value)
      && (options.priority.Some? ==> t.priority == options.priority.value)
      && (options.category.Some? ==> t.category == options.category.value)
      && t.dueDate == options.dueDate
      && (options.description.Some? ==> t.description == options.description.value)
      && (options.tags.Some? ==> t.tags == options.tags.value)
      && (options.status == Some(Completed) ==> !StatusInStep(t))
  {
  }

  /** `isOverdue(dueDate, completed)` against the clock reading `now`. */
  function IsOverdue(dueDate: Option<int>, completed: bool, now: int): (b: bool)
    ensures b <==> dueDate.Some? && !completed && dueDate.value < now
  {
    if dueDate.None? || completed then false else dueDate.value < now
  }
}
