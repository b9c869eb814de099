/** The two derived views of the store (`useFilteredTodos` and `useTodoStats`
    in `src/utils/todoStore.js`), as pure functions of the store state. The
    clock reading `now` is a parameter. */
module TodoSelectors {
  import opened Optional
  import opened Text
  import opened Lists
  import opened TodoModel

  // ---------------------------------------------------------------------
  // Filter stages
  // ---------------------------------------------------------------------

  /** The completion filter: "active" keeps open tasks, "completed" keeps done
      ones, any other value keeps everything. */
  predicate PassesCompletion(t: Todo, filter: string) {
    if filter == "active" then !t.completed
    else if filter == "completed" then t.completed
    else true
  }

  /** Case-insensitive substring match of the already lowered `query` on the
      text, the description or any tag. */
  predicate MatchesQuery(t: Todo, query: string) {
    || Includes(ToLower(t.text), query)
    || Includes(ToLower(t.description), query)
    || exists k :: 0 <= k < |t.tags| && Includes(ToLower(t.tags[k]), query)
  }

  /** The reference statement of which tasks the view shows: each of the four
      filters, skipped when its selector is "all" or the query is empty. */
  predicate Passes(t: Todo, filter: string, searchQuery: string, category: string, priority: string) {
    && PassesCompletion(t, filter)
    && (searchQuery != "" ==> MatchesQuery(t, ToLower(searchQuery)))
    && (category != "all" ==> CategoryName(t.category) == category)
    && (priority != "all" ==> PriorityName(t.priority) == priority)
  }

  function IsActive(): Todo -> bool { (t: Todo) => !t.completed }
  function IsDone(): Todo -> bool { (t: Todo) => t.completed }
  function Matching(query: string): Todo -> bool { (t: Todo) => MatchesQuery(t, query) }
  function InCategory(category: string): Todo -> bool { (t: Todo) => CategoryName(t.category) == category }
  function WithPriority(priority: string): Todo -> bool { (t: Todo) => PriorityName(t.priority) == priority }

  /** Step 1 of `useFilteredTodos`: the completion filter. */
  function ByCompletion(todos: seq<Todo>, filter: string): seq<Todo> {
    if filter == "active" then Filter(todos, IsActive())
    else if filter == "completed" then Filter(todos, IsDone())
    else todos
  }

  /** Step 2: the search, skipped for an empty query; the query is lowered once. */
  function BySearch(todos: seq<Todo>, searchQuery: string): seq<Todo> {
    if searchQuery != "" then Filter(todos, Matching(ToLower(searchQuery))) else todos
  }

  /** Step 3: the category filter, skipped for "all". */
  function ByCategory(todos: seq<Todo>, category: string): seq<Todo> {
    if category != "all" then Filter(todos, InCategory(category)) else todos
  }

  /** Step 4: the priority filter, skipped for "all". */
  function ByPriority(todos: seq<Todo>, priority: string): seq<Todo> {
    if priority != "all" then Filter(todos, WithPriority(priority)) else todos
  }

  /** Steps 1 to 4 of `useFilteredTodos`, each a `filter` on the previous list. */
  function Narrowed(todos: seq<Todo>, filter: string, searchQuery: string, category: string, priority: string): seq<Todo> {
    ByPriority(ByCategory(BySearch(ByCompletion(todos, filter), searchQuery), category), priority)
  }

  /** The filter stages keep each task exactly as often as it occurs in the
      store when it passes all four filters, and drop it otherwise. */
  lemma NarrowedCounts(todos: seq<Todo>, filter: string, searchQuery: string, category: string, priority: string, t: Todo)
    ensures multiset(Narrowed(todos, filter, searchQuery, category, priority))[t]
         == if Passes(t, filter, searchQuery, category, priority) then multiset(todos)[t] else 0
  {
    var s1 := ByCompletion(todos, filter);
    var s2 := BySearch(s1, searchQuery);
    var s3 := ByCategory(s2, category);
    if filter == "active" {
      FilterMultiset(todos, IsActive(), t);
    } else if filter == "completed" {
      FilterMultiset(todos, IsDone(), t);
    }
    assert multiset(s1)[t] == if PassesCompletion(t, filter) then multiset(todos)[t] else 0;
    if searchQuery != "" {
      FilterMultiset(s1, Matching(ToLower(searchQuery)), t);
    }
    if category != "all" {
      FilterMultiset(s2, InCategory(category), t);
    }
    if priority != "all" {
      FilterMultiset(s3, WithPriority(priority), t);
    }
  }

  /** The filter stages keep the store's order. */
  lemma NarrowedInOrder(todos: seq<Todo>, filter: string, searchQuery: string, category: string, priority: string)
    ensures Subseq(Narrowed(todos, filter, searchQuery, category, priority), todos)
  {
    var s1 := ByCompletion(todos, filter);
    var s2 := BySearch(s1, searchQuery);
    var s3 := ByCategory(s2, category);
    var s4 := ByPriority(s3, priority);
    StageInOrder(todos, s1, if filter == "active" then IsActive() else IsDone());
    StageInOrder(s1, s2, Matching(ToLower(searchQuery)));
    StageInOrder(s2, s3, InCategory(category));
    StageInOrder(s3, s4, WithPriority(priority));
    SubseqTransitive(s2, s1, todos);
    SubseqTransitive(s3, s2, todos);
    SubseqTransitive(s4, s3, todos);
  }

  /** A stage that either keeps its input or filters it by `p` keeps its input's order. */
  lemma StageInOrder(input: seq<Todo>, output: seq<Todo>, p: Todo -> bool)
    requires output == input || output == Filter(input, p)
    ensures Subseq(output, input)
  {
    if output == input {
      SubseqReflexive(input);
    } else {
      FilterSubseq(input, p);
    }
  }

  // ---------------------------------------------------------------------
  // Sort
  // ---------------------------------------------------------------------

  /** The comparator handed to `sort`: by text, by priority rank (note the
      operands: `rank[b] - rank[a]`), by due date with undated tasks last, or
      by creation time for "createdAt" and any other key; negated unless the
      order is "asc". */
  function Compare(sortBy: string, sortOrder: string, a: Todo, b: Todo): int {
    var comparison :=
      if sortBy == "alphabetical" then LexCompare(a.text, b.text)
      else if sortBy == "priority" then Rank(b.priority) - Rank(a.priority)
      else if sortBy == "dueDate" then
        (if a.dueDate.None? && b.dueDate.None? then 0
         else if a.dueDate.None? then 1
         else if b.dueDate.None? then -1
         else a.dueDate.value - b.dueDate.value)
      else a.createdAt - b.createdAt;
    if sortOrder == "asc" then comparison else -comparison
  }

  /** Every comparator is antisymmetric, so any two tasks can be put in order. */
  lemma CompareAntisymmetric(sortBy: string, sortOrder: string, a: Todo, b: Todo)
    ensures Compare(sortBy, sortOrder, a, b) == -Compare(sortBy, sortOrder, b, a)
  {
    LexCompareAntisymmetric(a.text, b.text);
  }

  /** Each task is ordered before or level with its successor. */
  predicate Ordered(s: seq<Todo>, sortBy: string, sortOrder: string) {
    forall i :: 0 <= i < |s| - 1 ==> Compare(sortBy, sortOrder, s[i], s[i + 1]) <= 0
  }

  /** Puts `x` in front of the first task it is not after. */
  function Insert(x: Todo, s: seq<Todo>, sortBy: string, sortOrder: string): (r: seq<Todo>)
    ensures multiset(r) == multiset(s) + multiset{x}
    ensures |r| == |s| + 1 && (r[0] == x || (s != [] && r[0] == s[0]))
  {
    if s == [] || Compare(sortBy, sortOrder, x, s[0]) <= 0 then [x] + s
    else
      assert s == [s[0]] + s[1..];
      [s[0]] + Insert(x, s[1..], sortBy, sortOrder)
  }

  /** Inserting into an ordered list gives an ordered list. */
  lemma {:induction false} InsertOrdered(x: Todo, s: seq<Todo>, sortBy: string, sortOrder: string)
    requires Ordered(s, sortBy, sortOrder)
    ensures Ordered(Insert(x, s, sortBy, sortOrder), sortBy, sortOrder)
  {
    if s != [] && Compare(sortBy, sortOrder, x, s[0]) > 0 {
      var rest := Insert(x, s[1..], sortBy, sortOrder);
      InsertOrdered(x, s[1..], sortBy, sortOrder);
      CompareAntisymmetric(sortBy, sortOrder, x, s[0]);
      var r := [s[0]] + rest;
      assert Compare(sortBy, sortOrder, r[0], r[1]) <= 0;
      forall i | 1 <= i < |r| - 1 ensures Compare(sortBy, sortOrder, r[i], r[i + 1]) <= 0 {
        assert r[i] == rest[i - 1] && r[i + 1] == rest[i];
      }
    }
  }

  /** `Array.prototype.sort` with the chosen comparator, as an insertion sort
      that keeps tied tasks in their original order. */
  function Sort(s: seq<Todo>, sortBy: string, sortOrder: string): (r: seq<Todo>)
    ensures multiset(r) == multiset(s)
    ensures Ordered(r, sortBy, sortOrder)
  {
    if s == [] then []
    else
      assert s == [s[0]] + s[1..];
      InsertOrdered(s[0], Sort(s[1..], sortBy, sortOrder), sortBy, sortOrder);
      Insert(s[0], Sort(s[1..], sortBy, sortOrder), sortBy, sortOrder)
  }

  // ---------------------------------------------------------------------
  // useFilteredTodos
  // ---------------------------------------------------------------------

  /** `useFilteredTodos()` on the store state. */
  function FilteredTodos(todos: seq<Todo>, filter: string, searchQuery: string, category: string,
                         priority: string, sortBy: string, sortOrder: string): seq<Todo>
  {
    Sort(Narrowed(todos, filter, searchQuery, category, priority), sortBy, sortOrder)
  }

  /** The view is a permutation of exactly the tasks that pass all four filters,
      ordered by the chosen comparator. */
  lemma FilteredTodosSpec(todos: seq<Todo>, filter: string, searchQuery: string, category: string,
                          priority: string, sortBy: string, sortOrder: string)
    ensures var r := FilteredTodos(todos, filter, searchQuery, category, priority, sortBy, sortOrder);
      && (forall t :: multiset(r)[t] == if Passes(t, filter, searchQuery, category, priority) then multiset(todos)[t] else 0)
      && (forall t :: t in r <==> t in todos && Passes(t, filter, searchQuery, category, priority))
      && Ordered(r, sortBy, sortOrder)
  {
    forall t ensures multiset(FilteredTodos(todos, filter, searchQuery, category, priority, sortBy, sortOrder))[t]
                  == if Passes(t, filter, searchQuery, category, priority) then multiset(todos)[t] else 0 {
      NarrowedCounts(todos, filter, searchQuery, category, priority, t);
    }
  }

  /** Selecting a category and a priority by the names they are stored as
      shows exactly the tasks of that category and priority (that pass the
      other two filters): no two names clash, and none is "all". */
  lemma SelectByName(todos: seq<Todo>, filter: string, searchQuery: string, c: Category, p: Priority,
                     sortBy: string, sortOrder: string)
    ensures var r := FilteredTodos(todos, filter, searchQuery, CategoryName(c), PriorityName(p), sortBy, sortOrder);
      forall t :: t in r <==> && t in todos && PassesCompletion(t, filter)
                              && (searchQuery != "" ==> MatchesQuery(t, ToLower(searchQuery)))
                              && t.category == c && t.priority == p
  {
    NamesDistinct();
    FilteredTodosSpec(todos, filter, searchQuery, CategoryName(c), PriorityName(p), sortBy, sortOrder);
  }

  /** With every selector at its neutral value the view is the whole store, reordered. */
  lemma UnfilteredViewIsPermutation(todos: seq<Todo>, sortBy: string, sortOrder: string)
    ensures multiset(FilteredTodos(todos, "all", "", "all", "all", sortBy, sortOrder)) == multiset(todos)
  {
  }

  /** The search ignores case: a query and its lower-case form show the same tasks. */
  lemma SearchIgnoresCase(todos: seq<Todo>, filter: string, searchQuery: string, category: string,
                          priority: string, sortBy: string, sortOrder: string)
    ensures FilteredTodos(todos, filter, searchQuery, category, priority, sortBy, sortOrder)
         == FilteredTodos(todos, filter, ToLower(searchQuery), category, priority, sortBy, sortOrder)
  {
    ToLowerIdempotent(searchQuery);
  }

  /** Priority sort, "asc": higher ranks come first (the comparator is reversed). */
  lemma PriorityAscendingPutsHighFirst(todos: seq<Todo>, filter: string, searchQuery: string, category: string, priority: string)
    ensures var r := FilteredTodos(todos, filter, searchQuery, category, priority, "priority", "asc");
      forall i :: 0 <= i < |r| - 1 ==> Rank(r[i].priority) >= Rank(r[i + 1].priority)
  {
    var r := FilteredTodos(todos, filter, searchQuery, category, priority, "priority", "asc");
    assert Ordered(r, "priority", "asc");
  }

  /** Priority sort, "desc" (the default order): lower ranks come first. */
  lemma PriorityDescendingPutsLowFirst(todos: seq<Todo>, filter: string, searchQuery: string, category: string, priority: string)
    ensures var r := FilteredTodos(todos, filter, searchQuery, category, priority, "priority", "desc");
      forall i :: 0 <= i < |r| - 1 ==> Rank(r[i].priority) <= Rank(r[i + 1].priority)
  {
    var r := FilteredTodos(todos, filter, searchQuery, category, priority, "priority", "desc");
    assert Ordered(r, "priority", "desc");
  }

  /** The default sort, creation time "desc", shows the newest task first. */
  lemma DefaultSortNewestFirst(todos: seq<Todo>, filter: string, searchQuery: string, category: string, priority: string)
    ensures var r := FilteredTodos(todos, filter, searchQuery, category, priority, "createdAt", "desc");
      forall i :: 0 <= i < |r| - 1 ==> r[i].createdAt >= r[i + 1].createdAt
  {
    var r := FilteredTodos(todos, filter, searchQuery, category, priority, "createdAt", "desc");
    assert Ordered(r, "createdAt", "desc");
  }

  /** Due-date sort, "asc": no task without a due date precedes one with a due date. */
  lemma DueDateAscendingPutsUndatedLast(todos: seq<Todo>, filter: string, searchQuery: string, category: string, priority: string)
    ensures var r := FilteredTodos(todos, filter, searchQuery, category, priority, "dueDate", "asc");
      forall i, j :: 0 <= i < j < |r| && r[i].dueDate.None? ==> r[j].dueDate.None?
  {
    var r := FilteredTodos(todos, filter, searchQuery, category, priority, "dueDate", "asc");
    forall i, j | 0 <= i < j < |r| && r[i].dueDate.None? ensures r[j].dueDate.None? {
      UndatedStaysUndated(r, i, j);
    }
  }

  /** In a list ordered by due date ascending, an undated task is followed only by undated ones. */
  lemma {:induction false} UndatedStaysUndated(r: seq<Todo>, i: nat, j: nat)
    requires Ordered(r, "dueDate", "asc")
    requires i < j < |r| && r[i].dueDate.None?
    ensures r[j].dueDate.None?
    decreases j - i
  {
    if j > i + 1 {
      UndatedStaysUndated(r, i, j - 1);
    }
    assert Compare("dueDate", "asc", r[j - 1], r[j]) <= 0;
  }

  // ---------------------------------------------------------------------
  // useTodoStats
  // ---------------------------------------------------------------------

  /** The object `useTodoStats()` returns. */
  datatype Stats = Stats(
    total: nat,
    completed: nat,
    active: nat,
    highPriority: nat,
    overdue: nat,
    byCategory: map<Category, nat>,
    byPriority: map<Priority, nat>)

  const AllCategories: set<Category> := {Work, Personal, Shopping, Health, Other}
  const AllPriorities: set<Priority> := {Low, Medium, High}

  function OfCategory(c: Category): Todo -> bool { (t: Todo) => t.category == c }
  function OfPriority(p: Priority): Todo -> bool { (t: Todo) => t.priority == p }
  function OverdueAt(now: int): Todo -> bool { (t: Todo) => IsOverdue(t.dueDate, t.completed, now) }

  /** `useTodoStats()` over the whole store, with `now` the time the overdue test reads. */
  function TodoStats(todos: seq<Todo>, now: int): Stats {
    Stats(
      total := |todos|,
      completed := |Filter(todos, IsDone())|,
      active := |Filter(todos, IsActive())|,
      highPriority := |Filter(todos, OfPriority(High))|,
      overdue := |Filter(todos, OverdueAt(now))|,
      byCategory := map c | c in AllCategories :: |Filter(todos, OfCategory(c))|,
      byPriority := map p | p in AllPriorities :: |Filter(todos, OfPriority(p))|)
  }

  /** The statistics agree with one another: done and open tasks add up to the
      total, high priority is the high entry of the priority table, overdue
      tasks are among the open ones, and both tables have every key. */
  lemma StatsConsistent(todos: seq<Todo>, now: int)
    ensures var s := TodoStats(todos, now);
      && s.completed + s.active == s.total
      && s.highPriority == s.byPriority[High]
      && s.overdue <= s.active
      && s.byCategory.Keys == AllCategories
      && s.byPriority.Keys == AllPriorities
  {
    FilterPartition(todos, IsDone(), IsActive());
    FilterMonotone(todos, OverdueAt(now), IsActive());
  }

  /** Every task has one category and one priority, so each table sums to the total. */
  lemma {:induction false} TablesSumToTotal(todos: seq<Todo>, now: int)
    ensures var s := TodoStats(todos, now);
      && s.byCategory[Work] + s.byCategory[Personal] + s.byCategory[Shopping]
         + s.byCategory[Health] + s.byCategory[Other] == s.total
      && s.byPriority[Low] + s.byPriority[Medium] + s.byPriority[High] == s.total
  {
    if todos != [] {
      TablesSumToTotal(todos[1..], now);
    }
  }
}
