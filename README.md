# Task list store and its inline variants, in Dafny

This project models the task-management logic of a small React application.

- The task store of `src/utils/todoStore.js` holds a list of task records and the view selectors. Its actions each replace the list with a new one: a task prepended, tasks filtered out, or the tasks with a given id rewritten.
- Two derived views are computed from the store. `useFilteredTodos` is a filter → search → category → priority → sort pipeline. `useTodoStats` gives counts and per-category and per-priority tables.
- Three UI components keep their own copies of the list logic in component state, each slightly different: `src/App.jsx`, `src/pages/Dashboard.jsx` and `src/components/TodoList.jsx`.

Layout, one Dafny module per file:

| file | module | models |
|---|---|---|
| `optional.dfy` | `Optional` | `null` / absent values |
| `text.dfy` | `Text` | ASCII `trim`, `toLowerCase`, `includes`; a code-point (character) order in place of `localeCompare` |
| `lists.dfy` | `Lists` | `Array.prototype.filter` and the id-targeted `map` every handler uses; sub-sequence facts |
| `todo_model.dfy` | `TodoModel` | task record, enumerations, `createTodo`, `isOverdue` |
| `todo_selectors.dfy` | `TodoSelectors` | `useFilteredTodos` (filter stages, comparator, sort) and `useTodoStats` |
| `todo_store.dfy` | `TodoStore` | the list each store action builds, what it satisfies, and the store object (class `Store`) |
| `app.dfy` | `AppComponent` | `App` component state and handlers |
| `dashboard.dfy` | `DashboardPage` | `Dashboard` page state and handlers |
| `todo_list.dfy` | `TodoListComponent` | `TodoList` component state and handlers |

State that the source updates is held in classes whose fields are the store's fields or the component's `useState` variables. Each handler is a method that replaces fields, and each method names in its `modifies` clause exactly the fields it may replace. Every new list is a pure function of the old state, and the lemmas next to it state what the source promises. Ids are integers and timestamps are integers. A fresh id and the time `now` are passed in as parameters; they stand for `generateId()` / `Date.now()` and `new Date()`. The store object keeps one invariant, `Valid()`: no two tasks share an id. `addTodo` and `duplicateTodo` are given an id not already in the list, and every other action keeps or drops whole tasks with their ids.

Some facts about the code that its contracts make explicit:

- `completed` and `status` are not kept in step by every action. `createTodo` sets `completed: false` whatever `options.status` is, and `updateTodo` overwrites any field. The model states the agreement (`StatusInStep`) only after the actions that keep it: toggle, toggle-all and status update.
- Sorting by priority inverts the usual reading of the order. The comparator is `rank[b] - rank[a]`, and it is negated for every order other than `"asc"`. So `"desc"`, the default, lists low priority first, and `"asc"` lists high priority first (`PriorityDescendingPutsLowFirst`, `PriorityAscendingPutsHighFirst`).
- The components keep no id-uniqueness invariant; their ids come from `Date.now()`. Their delete, toggle and edit act on every task with the id, and the model states them for any list, duplicates included. In the store, `duplicateTodo` copies only the first match (`FirstMatch`).
- Dashboard's status filter uses `"pending"` where the other views use `"active"`. Any other value shows nothing there, and in `App`. In the store, any value other than `"active"` or `"completed"` shows everything.

## Model

| member | source | states |
|---|---|---|
| `Text.TrimEmptyIffBlank` | src/utils/todoStore.js:60 | `text.trim()` is empty exactly when the text is all whitespace, which is the "blank input" every add and edit guard rejects |
| `Text.Trim` | src/utils/todoStore.js:33 | the trimmed text is no longer than the input and neither starts nor ends with whitespace |
| `Text.TrimSpec` | src/utils/todoStore.js:33 | the trimmed text is a contiguous slice of the input surrounded in it by whitespace only |
| `Text.TrimIdempotent` | src/utils/todoStore.js:111 | trimming already trimmed text changes nothing |
| `Text.IncludesIffOccurs` | src/utils/todoStore.js:269-271 | `s.includes(q)` holds exactly when some offset of `s` starts with `q` |
| `Text.EmptyIncluded` | src/App.jsx:81 | the empty search term is contained in every text, so it matches every task |
| `Text.LexCompareAntisymmetric` | src/utils/todoStore.js:291 | the text order used for the alphabetical sort flips sign when its arguments are swapped, and is zero only on equal texts |
| `TodoModel.CreateTodo` | src/utils/todoStore.js:31-43 | a new task has the given id and time stamps, the trimmed text, and is not completed |
| `TodoModel.CreateTodoDefaults` | src/utils/todoStore.js:35-42 | missing options default to pending, medium, other, no due date, empty description and no tags |
| `TodoModel.CreateTodoKeepsOptions` | src/utils/todoStore.js:34-42 | given options are copied through, and a task created with status completed is still not completed, so the two fields disagree |
| `TodoModel.IsOverdue` | src/utils/todoStore.js:384-387 | overdue exactly when a due date is set, before `now`, and the task is open; so never without a due date and never when completed |
| `TodoSelectors.NarrowedCounts` | src/utils/todoStore.js:255-283 | after the four filter stages each task occurs as often as in the store if it passes all four filters (each skipped for "all" or an empty query), and not at all otherwise |
| `TodoSelectors.NarrowedInOrder` | src/utils/todoStore.js:255-283 | the filter stages keep the store's order |
| `TodoSelectors.CompareAntisymmetric` | src/utils/todoStore.js:286-310 | each comparator (text, priority rank, due date with undated last, creation time), with the sign flipped unless "asc", is antisymmetric |
| `TodoSelectors.Insert` | src/utils/todoStore.js:286 | inserting a task adds exactly that task to the multiset and puts either it or the old first task first |
| `TodoSelectors.InsertOrdered` | src/utils/todoStore.js:286 | inserting into an ordered list keeps it ordered under the comparator |
| `TodoSelectors.Sort` | src/utils/todoStore.js:286-310 | the sort returns a permutation of its input in which every task is ordered before or level with its successor |
| `TodoSelectors.FilteredTodosSpec` | src/utils/todoStore.js:244-313 | the view is a permutation of exactly the store's tasks that pass all four filters, and consecutive tasks are in comparator order |
| `TodoSelectors.SelectByName` | src/utils/todoStore.js:275-283 | selecting a category and a priority by the names they are stored as shows exactly the tasks of that category and priority that pass the other filters; no two names clash and none is "all" |
| `TodoSelectors.UnfilteredViewIsPermutation` | src/utils/todoStore.js:50-56 | with every selector at its initial value the view is the whole store, reordered |
| `TodoSelectors.SearchIgnoresCase` | src/utils/todoStore.js:265-273 | a query and its lower-case form give the same view |
| `TodoSelectors.PriorityAscendingPutsHighFirst` | src/utils/todoStore.js:293-309 | with priority sort and "asc", ranks never increase along the view: high first |
| `TodoSelectors.PriorityDescendingPutsLowFirst` | src/utils/todoStore.js:293-309 | with priority sort and "desc" (the default order), ranks never decrease along the view: low first |
| `TodoSelectors.DefaultSortNewestFirst` | src/utils/todoStore.js:303-309 | the default creation-time sort in "desc" order shows newer tasks before older ones |
| `TodoSelectors.DueDateAscendingPutsUndatedLast` | src/utils/todoStore.js:297-302 | with due-date sort and "asc", no task without a due date comes before one with a due date |
| `TodoSelectors.UndatedStaysUndated` | src/utils/todoStore.js:298-300 | in a list ordered by due date ascending, an undated task is followed only by undated tasks |
| `TodoSelectors.StatsConsistent` | src/utils/todoStore.js:316-337 | completed + active = total, highPriority is the high entry of the priority table, overdue ≤ active, and both tables have every category and priority as a key |
| `TodoSelectors.TablesSumToTotal` | src/utils/todoStore.js:328-335 | the five category counts and the three priority counts each add up to the total |
| `TodoStore.SubseqKeepsUniqueIds` | src/utils/todoStore.js:68-72 | dropping tasks and keeping the rest in order keeps ids unique and adds no task |
| `TodoStore.Added` | src/utils/todoStore.js:59-66 | blank text leaves the list unchanged; otherwise the list grows by one, the created task is first, and the old list follows unchanged |
| `TodoStore.RemovedSpec` | src/utils/todoStore.js:68-72 | removal keeps, in order and with their multiplicities, exactly the tasks with a different id, and removing again changes nothing |
| `TodoStore.UncompletedSpec` | src/utils/todoStore.js:162-166 | clearing completed tasks keeps, in order, exactly the open tasks |
| `TodoStore.ToggledSpec` | src/utils/todoStore.js:74-87 | toggling keeps length, order, ids and every other task; each match has `completed` flipped, `status` completed when it becomes completed and pending otherwise, and the new time, and nothing else changed |
| `TodoStore.ToggleTwiceRestores` | src/utils/todoStore.js:74-87 | toggling the same id twice restores every `completed` flag and leaves the matched tasks in step |
| `TodoStore.UpdatedSpec` | src/utils/todoStore.js:89-101 | an update keeps ids and other tasks; on matches each given field is overwritten, each absent one kept, and the time set |
| `TodoStore.TextUpdatedSpec` | src/utils/todoStore.js:103-117 | blank text changes nothing; otherwise only the trimmed text and the time change, on matching tasks only |
| `TodoStore.FieldUpdatesSpec` | src/utils/todoStore.js:119-160 | priority and category updates change only that field and the time, on matching tasks only |
| `TodoStore.StatusUpdatedSpec` | src/utils/todoStore.js:133-146 | a status update sets the status and `completed == (status == completed)` on matches and leaves other tasks alone |
| `TodoStore.AllToggledSpec` | src/utils/todoStore.js:201-213 | if every task is completed (also when there are none) all become open and pending, otherwise all become completed and completed-status; every other field is kept and `updatedAt` becomes the new time; ids, length and order are kept |
| `TodoStore.ToggleAllTwice` | src/utils/todoStore.js:201-213 | on a non-empty list, toggling all twice leaves every task completed exactly when all were completed before |
| `TodoStore.FirstMatch` | src/utils/todoStore.js:217 | the position found is the first task with the id, or the end of the list when no task has it |
| `TodoStore.Find` | src/utils/todoStore.js:217 | `find` returns nothing exactly when no task has the id, and otherwise the first task that has it |
| `TodoStore.DuplicatedSpec` | src/utils/todoStore.js:215-234 | with no match nothing changes; otherwise a copy of the first match with the new id, " (Copy)" appended, open, pending, and the same priority, category, due date, description and tags goes in front of the unchanged list |
| `TodoStore.SameIdsKeepUnique` | src/utils/todoStore.js:74-160 | actions that rewrite tasks in place keep the list of ids, and so its uniqueness |
| `TodoStore.FreshFrontKeepsUnique` | src/utils/todoStore.js:64 | prepending a task with a fresh id keeps ids unique |
| `TodoStore.Store.constructor` | src/utils/todoStore.js:49-56 | initial state: no tasks, filter, category and priority "all", empty query, sort by creation time, "desc" |
| `TodoStore.Store.AddTodo` | src/utils/todoStore.js:59-66 | blank text leaves the list alone, otherwise the created task is prepended; ids stay unique |
| `TodoStore.Store.RemoveTodo` | src/utils/todoStore.js:68-72 | the list becomes exactly the tasks with a different id; ids stay unique |
| `TodoStore.Store.ToggleTodo` | src/utils/todoStore.js:74-87 | the list becomes the toggled list; ids stay unique |
| `TodoStore.Store.UpdateTodo` | src/utils/todoStore.js:89-101 | the list becomes the merged list; ids stay unique |
| `TodoStore.Store.UpdateTodoText` | src/utils/todoStore.js:103-117 | the list becomes the text-updated list, unchanged for blank text |
| `TodoStore.Store.UpdateTodoPriority` | src/utils/todoStore.js:119-131 | the list becomes the priority-updated list |
| `TodoStore.Store.UpdateTodoStatus` | src/utils/todoStore.js:133-146 | the list becomes the status-updated list |
| `TodoStore.Store.UpdateTodoCategory` | src/utils/todoStore.js:148-160 | the list becomes the category-updated list |
| `TodoStore.Store.ClearCompleted` | src/utils/todoStore.js:162-166 | the list becomes its open tasks, none of them completed |
| `TodoStore.Store.ClearAll` | src/utils/todoStore.js:168-172 | the list becomes empty |
| `TodoStore.Store.SetFilter` | src/utils/todoStore.js:175-177 | sets the completion filter only |
| `TodoStore.Store.SetSearchQuery` | src/utils/todoStore.js:179-181 | sets the search query only |
| `TodoStore.Store.SetSelectedCategory` | src/utils/todoStore.js:183-185 | sets the category selector only |
| `TodoStore.Store.SetSelectedPriority` | src/utils/todoStore.js:187-189 | sets the priority selector only |
| `TodoStore.Store.SetSortBy` | src/utils/todoStore.js:192-194 | sets the sort key only |
| `TodoStore.Store.SetSortOrder` | src/utils/todoStore.js:196-198 | sets the sort order only |
| `TodoStore.Store.ToggleAllTodos` | src/utils/todoStore.js:201-213 | the list becomes the all-toggled list; ids stay unique |
| `TodoStore.Store.DuplicateTodo` | src/utils/todoStore.js:215-234 | the list becomes the duplicated list; with a fresh new id, ids stay unique |
| `AppComponent.Added` | src/App.jsx:26-38 | a blank input leaves the list alone; otherwise an open, medium-priority task with the trimmed text is prepended |
| `AppComponent.ToggledSpec` | src/App.jsx:40-44 | only tasks with the id change, only in `completed`, which flips; the length is kept; toggling twice gives back the list |
| `AppComponent.DeletedSpec` | src/App.jsx:46-48 | deletion keeps, in order, exactly the tasks with a different id |
| `AppComponent.EditedSpec` | src/App.jsx:55-63 | a blank edit changes nothing; otherwise only the text of the edited task changes, to the trimmed edit; with no task in edit nothing changes |
| `AppComponent.PriorityChangedSpec` | src/App.jsx:70-74 | only the priority of tasks with the id changes |
| `AppComponent.FilteredTodosSpec` | src/App.jsx:76-84 | the view keeps order and holds each task matching the all/active/completed filter whose lowered text contains the lowered search term, as often as it occurs in the list, and no other task; an empty term matches all, so "all" with no search shows the whole list |
| `AppComponent.CountsAddUp` | src/App.jsx:86-87 | active and completed counts add up to the number of tasks |
| `AppComponent.App.constructor` | src/App.jsx:6-11 | initial state: no tasks, empty input and search, filter "all", nothing in edit |
| `AppComponent.App.SetNewTodo` | src/App.jsx:176 | sets the new-task input only |
| `AppComponent.App.SetFilter` | src/App.jsx:201 | sets the filter only |
| `AppComponent.App.SetSearchTerm` | src/App.jsx:218 | sets the search term only |
| `AppComponent.App.SetEditingText` | src/App.jsx:277 | sets the edit text only |
| `AppComponent.App.AddTodo` | src/App.jsx:26-38 | the list becomes the added list; the input is cleared only when a task was added |
| `AppComponent.App.ToggleTodo` | src/App.jsx:40-44 | the list becomes the toggled list, same length |
| `AppComponent.App.DeleteTodo` | src/App.jsx:46-48 | the list becomes exactly the tasks with a different id |
| `AppComponent.App.StartEditing` | src/App.jsx:50-53 | puts the task's id and text into edit state |
| `AppComponent.App.SaveEdit` | src/App.jsx:55-63 | applies a non-blank edit to the task in edit, then always clears the edit state |
| `AppComponent.App.CancelEdit` | src/App.jsx:65-68 | clears the edit state and leaves the list alone |
| `AppComponent.App.SetPriority` | src/App.jsx:70-74 | the list becomes the priority-changed list |
| `DashboardPage.Added` | src/pages/Dashboard.jsx:26-40 | a blank input leaves the list alone; otherwise an open, medium-priority task with the trimmed text is prepended |
| `DashboardPage.UpdatedSpec` | src/pages/Dashboard.jsx:42-46 | on tasks with the id exactly the fields the update carries are overwritten; length, order and other tasks are kept |
| `DashboardPage.EmptyUpdateIsIdentity` | src/pages/Dashboard.jsx:42-46 | an update with no fields changes nothing |
| `DashboardPage.DeletedSpec` | src/pages/Dashboard.jsx:48-50 | deletion keeps, in order, exactly the tasks with a different id |
| `DashboardPage.FilteredTodosSpec` | src/pages/Dashboard.jsx:52-59 | the view keeps order and holds each task whose lowered text contains the lowered term and that matches all/pending/completed, as often as it occurs in the list, and no other task; any other status value shows nothing; "all" with no search shows the whole list |
| `DashboardPage.CountsAddUp` | src/pages/Dashboard.jsx:61-63 | completed and pending counts add up to the total |
| `DashboardPage.Dashboard.constructor` | src/pages/Dashboard.jsx:7-11 | initial state: no tasks, empty search and input, status "all", form hidden |
| `DashboardPage.Dashboard.SetSearchTerm` | src/pages/Dashboard.jsx:163 | sets the search term only |
| `DashboardPage.Dashboard.SetFilterStatus` | src/pages/Dashboard.jsx:173 | sets the status filter only |
| `DashboardPage.Dashboard.SetNewTodo` | src/pages/Dashboard.jsx:210 | sets the new-task input only |
| `DashboardPage.Dashboard.ToggleAddForm` | src/pages/Dashboard.jsx:187 | shows a hidden form and hides a shown one |
| `DashboardPage.Dashboard.CancelAddForm` | src/pages/Dashboard.jsx:222-225 | hides the form and clears the input |
| `DashboardPage.Dashboard.AddTodo` | src/pages/Dashboard.jsx:26-40 | a blank input changes nothing at all; otherwise the task is prepended, the input cleared and the form hidden |
| `DashboardPage.Dashboard.UpdateTodo` | src/pages/Dashboard.jsx:42-46 | the list becomes the merged list, same length |
| `DashboardPage.Dashboard.DeleteTodo` | src/pages/Dashboard.jsx:48-50 | the list becomes exactly the tasks with a different id |
| `TodoListComponent.Added` | src/components/TodoList.jsx:11-22 | a blank input leaves the list alone; otherwise an open task with the trimmed text is prepended |
| `TodoListComponent.DeletedSpec` | src/components/TodoList.jsx:24-26 | deletion keeps, in order, exactly the tasks with a different id |
| `TodoListComponent.ToggledSpec` | src/components/TodoList.jsx:28-32 | only `completed` of tasks with the id changes; the length is kept; toggling twice gives back the list |
| `TodoListComponent.EditedSpec` | src/components/TodoList.jsx:39-47 | a blank edit changes nothing; otherwise only the text of the edited task changes, to the trimmed edit |
| `TodoListComponent.CompletedAtMostTotal` | src/components/TodoList.jsx:60-61 | the completed count is at most the total, which is the number of tasks |
| `TodoListComponent.TodoList.constructor` | src/components/TodoList.jsx:6-9 | initial state: no tasks, empty input, nothing in edit |
| `TodoListComponent.TodoList.SetNewTodo` | src/components/TodoList.jsx:89 | sets the new-task input only |
| `TodoListComponent.TodoList.SetEditText` | src/components/TodoList.jsx:163 | sets the edit text only |
| `TodoListComponent.TodoList.AddTodo` | src/components/TodoList.jsx:11-22 | the list becomes the added list; the input is cleared only when a task was added |
| `TodoListComponent.TodoList.DeleteTodo` | src/components/TodoList.jsx:24-26 | the list becomes exactly the tasks with a different id |
| `TodoListComponent.TodoList.ToggleComplete` | src/components/TodoList.jsx:28-32 | the list becomes the toggled list, same length |
| `TodoListComponent.TodoList.StartEdit` | src/components/TodoList.jsx:34-37 | puts the task's id and text into edit state |
| `TodoListComponent.TodoList.SaveEdit` | src/components/TodoList.jsx:39-47 | applies a non-blank edit to the task in edit, then always clears the edit state |
| `TodoListComponent.TodoList.CancelEdit` | src/components/TodoList.jsx:49-52 | clears the edit state and leaves the list alone |

## Left out

- Persistence is not modelled: the `create`/`persist` wrapper around the store and the `localStorage` load and save effects in `App` and `Dashboard` are library calls and I/O. Its serialisation round trip is therefore not stated either.
- Id and time generation (`Date.now()`, `Math.random()`, `new Date().toISOString()`) become parameters. Timestamps and due dates are integers, not ISO strings.
- `trim`, `toLowerCase` and `includes` use ASCII definitions. Unicode whitespace such as U+00A0 and non-ASCII case mapping are not modelled.
- `localeCompare` is replaced by lexicographic code-point (character) order. Locale collation, and the UTF-16 code-unit order of plain JavaScript string comparison, are not modelled.
- TodoSelectors.Sort: stated as a permutation with every consecutive pair in comparator order. That it keeps tied tasks in their original order (the stability `Array.prototype.sort` guarantees) is not stated.
- Priority, category and status values are the three, five and three enumeration values. A string outside them, which `updateTodoPriority`, `updateTodoCategory` or `setPriority` would accept untyped, is not modelled.
- TodoStore.UpdatedSpec: `updates` is a record of optional task fields without `id`. The untyped spread that could overwrite `id` or add unknown keys is not modelled, and in the `Store` this is what keeps ids unique.
- DashboardPage.UpdatedSpec: likewise, `updates` carries only text, completion, creation time and priority.
- `formatDate`, the completion-percentage displays, `getPriorityColor`/`getCategoryColor`, all rendering and animation, `src/components/Layout.jsx` and `src/components/TodoItem.jsx` are presentational, clock-dependent or floating-point, and are not part of this model.
- React batching and stale closures are not modelled: each handler is one atomic step on the current state.
- `TodoList` ignores the `todos`, `onUpdate` and `onDelete` props the dashboard passes it and keeps its own state; the model follows that and does not connect the two.
