# Todo app — a verified model of its core

The todo application is a Spring Boot backend with a React client. The backend
keeps todos in an in-memory list and serves them through a service layer. That
layer filters, sorts and pages the listing, and it creates, updates, completes,
reopens and deletes todos. The client builds the listing request's query
string. It computes completion-time metrics from a page of todos and keeps the
view state: filters, sort string, pagination and metrics. Its list view cycles
column sort directions and drives the pager.

The modules follow the source files:

| module | file | form |
|---|---|---|
| `TodoEntity` | `Todo.java` | class `Todo` with its setters, over the value `TodoRecord` |
| `TodoRepository` | `InMemoryTodoRepository.java` | class `InMemoryTodoRepository` with a `seq` field and an id counter |
| `TodoQuery` | `TodoService.java` (parseSortBy, comparator, sort, skip/limit) | functions and lemmas |
| `Service` | `TodoService.java` | class `TodoService` over the repository, with reference functions |
| `ViewTypes` | `types.ts` | datatypes |
| `TodoApi` | `todoService.ts` | `BuildQueryParams` and the metrics loops as methods, each against a specification function |
| `TodoState` | `TodoContext.tsx` | class `TodoContext` whose handlers update its fields |
| `TodoListView` | `TodoList.tsx` | class `SortHeader` for `handleSort`, functions for the pager |
| `DateUtils` | `dateUtils.ts` | functions |
| `EndToEnd` | both halves | lemmas tying what the client sends to what the backend reads |

`Wrappers`, `Seqs` and `Text` hold shared helpers.
- `Option` stands for `null`/`undefined`. `Result` stands for a thrown exception.
- `Filter` and subsequences come from `Seqs`.
- `Text` holds lower-casing, the UTF-16 length Java's `String.length()` reports, blankness, substring search, Java's `String.split`, `join`, and decimal rendering.

Behaviours of the code worth knowing, all of which the model follows:
- The initial metrics snapshot spells its keys `high`/`medium`/`low`. Every
  computed snapshot uses `LOW`/`MEDIUM`/`HIGH`, so the two shapes differ
  (`TodoState.InitialMetrics`).
- A `NaN` day count is classified as "normal", not as null
  (`DateUtils.DueDateUrgency`).
- A todo saved with an explicit id not yet in the list is appended without
  advancing the counter. The counter then hands out that id again
  (`TodoRepository.ExplicitIdIsReissued`).
- The sort string always names priority before due date, whatever the click
  order, because it follows the object's key order (`TodoListView.Criteria`).
- The metrics request carries no parameters, so the backend answers with its
  default page. The metrics therefore cover only the first ten stored
  todos (`EndToEnd.MetricsSeeFirstPage`).

## Model

| member | source | states |
|---|---|---|
| TodoEntity.Created | backend/src/main/java/com/encora/victorvazquez/todo_app/todo/Todo.java:20-49 | every constructor yields an open todo with no completion time, created at the current time, other fields as passed |
| TodoEntity.SetTextOn | backend/src/main/java/com/encora/victorvazquez/todo_app/todo/Todo.java:85-91 | accepted exactly when the text is non-null and at most 120 UTF-16 units long; then only the text changes |
| Text.Utf16Length | backend/src/main/java/com/encora/victorvazquez/todo_app/todo/Todo.java:86 | `String.length()`: between one and two units per character, one each below U+10000, two each beyond |
| TodoEntity.SupplementaryCharactersCountTwice | backend/src/main/java/com/encora/victorvazquez/todo_app/todo/Todo.java:86 | a character beyond U+FFFF counts as two units: 61 emoji are refused while 120 letters are accepted |
| TodoEntity.SetPriorityOn | backend/src/main/java/com/encora/victorvazquez/todo_app/todo/Todo.java:106-111 | accepted exactly for a non-null priority; then only the priority changes |
| TodoEntity.SetDueDateOn | backend/src/main/java/com/encora/victorvazquez/todo_app/todo/Todo.java:93-95 | any due date, null included, replaces the old one and nothing else changes |
| TodoEntity.SetDoneOn | backend/src/main/java/com/encora/victorvazquez/todo_app/todo/Todo.java:97-104 | sets the flag, stamps the time when done, clears it when not; a completion time exists exactly for done todos; nothing else changes |
| TodoEntity.SetDoneTwice | backend/src/main/java/com/encora/victorvazquez/todo_app/todo/Todo.java:97-104 | setting the same status twice equals setting it once at the second time |
| TodoEntity.DoneThenUndone | backend/src/main/java/com/encora/victorvazquez/todo_app/todo/Todo.java:97-104 | completing then reopening an open, consistent todo restores it |
| TodoEntity.Todo.Empty | backend/src/main/java/com/encora/victorvazquez/todo_app/todo/Todo.java:20-23 | the no-argument constructor: open, no fields set, created now |
| TodoEntity.Todo.FromJson | backend/src/main/java/com/encora/victorvazquez/todo_app/todo/Todo.java:25-36 | the JSON constructor: no id, the three given fields, open, created now |
| TodoEntity.Todo.WithDueDate | backend/src/main/java/com/encora/victorvazquez/todo_app/todo/Todo.java:38-45 | id, text, priority and due date as given, open, created now |
| TodoEntity.Todo.WithoutDueDate | backend/src/main/java/com/encora/victorvazquez/todo_app/todo/Todo.java:47-49 | delegates with a null due date |
| TodoEntity.Todo.SetId | backend/src/main/java/com/encora/victorvazquez/todo_app/todo/Todo.java:81-83 | only the id changes |
| TodoEntity.Todo.SetText | backend/src/main/java/com/encora/victorvazquez/todo_app/todo/Todo.java:85-91 | succeeds exactly for an acceptable text; a rejected text leaves the object unchanged |
| TodoEntity.Todo.SetDueDate | backend/src/main/java/com/encora/victorvazquez/todo_app/todo/Todo.java:93-95 | the new state is `SetDueDateOn` of the old one |
| TodoEntity.Todo.SetDone | backend/src/main/java/com/encora/victorvazquez/todo_app/todo/Todo.java:97-104 | the new state is `SetDoneOn` of the old one and keeps the completion-time invariant |
| TodoEntity.Todo.SetPriority | backend/src/main/java/com/encora/victorvazquez/todo_app/todo/Todo.java:106-111 | succeeds exactly for a non-null priority; a rejected one leaves the object unchanged |
| TodoRepository.FirstIndexOf | backend/src/main/java/com/encora/victorvazquez/todo_app/todo/repository/InMemoryTodoRepository.java:30-34 | the index of the first todo with the id, no earlier todo has it, the length when none does |
| TodoRepository.FirstIndexFound | backend/src/main/java/com/encora/victorvazquez/todo_app/todo/repository/InMemoryTodoRepository.java:30-34 | the search finds an index exactly when the id is stored |
| TodoRepository.FilterRows | backend/src/main/java/com/encora/victorvazquez/todo_app/todo/repository/InMemoryTodoRepository.java:21-26 | the matching todos in stored order, each as often as stored, every result matches all three filters, no filter returns the list |
| TodoRepository.SaveInto | backend/src/main/java/com/encora/victorvazquez/todo_app/todo/repository/InMemoryTodoRepository.java:37-56 | no id: numbered by the counter, counter advanced, appended; stored id: replaces the first todo with it, all others unchanged; unknown id: appended as is |
| TodoRepository.RemoveId | backend/src/main/java/com/encora/victorvazquez/todo_app/todo/repository/InMemoryTodoRepository.java:59-61 | no todo with the id stays, every other todo keeps its count and order, an absent id changes nothing |
| TodoRepository.SaveKeepsNumbering | backend/src/main/java/com/encora/victorvazquez/todo_app/todo/repository/InMemoryTodoRepository.java:37-53 | distinct ids below the counter are preserved by saving, and a fresh id exceeds every stored one |
| TodoRepository.ExplicitIdIsReissued | backend/src/main/java/com/encora/victorvazquez/todo_app/todo/repository/InMemoryTodoRepository.java:38-53 | saving id 1 explicitly, then a todo without id, stores two todos with id 1 |
| TodoRepository.InMemoryTodoRepository.constructor | backend/src/main/java/com/encora/victorvazquez/todo_app/todo/repository/InMemoryTodoRepository.java:12-13 | empty list, counter at 1 |
| TodoRepository.InMemoryTodoRepository.FindAll | backend/src/main/java/com/encora/victorvazquez/todo_app/todo/repository/InMemoryTodoRepository.java:16-18 | a copy of the stored list |
| TodoRepository.InMemoryTodoRepository.FindAllMatching | backend/src/main/java/com/encora/victorvazquez/todo_app/todo/repository/InMemoryTodoRepository.java:21-26 | the stored todos filtered by `FilterRows` |
| TodoRepository.InMemoryTodoRepository.FindById | backend/src/main/java/com/encora/victorvazquez/todo_app/todo/repository/InMemoryTodoRepository.java:30-34 | present exactly when the id is stored, and then the first todo with it |
| TodoRepository.InMemoryTodoRepository.ExistsById | backend/src/main/java/com/encora/victorvazquez/todo_app/todo/repository/InMemoryTodoRepository.java:64-66 | true exactly when the id is stored |
| TodoRepository.InMemoryTodoRepository.Save | backend/src/main/java/com/encora/victorvazquez/todo_app/todo/repository/InMemoryTodoRepository.java:37-56 | the index loop and the list update produce the state and result `SaveInto` describes |
| TodoRepository.InMemoryTodoRepository.DeleteById | backend/src/main/java/com/encora/victorvazquez/todo_app/todo/repository/InMemoryTodoRepository.java:59-61 | the list becomes `RemoveId` of the old one, the counter is kept |
| Text.JavaSplitJoin | backend/src/main/java/com/encora/victorvazquez/todo_app/todo/TodoService.java:54-56 | Java's `split` recovers the parts of a join when no part holds the separator and the last is not empty |
| TodoQuery.CriterionOf | backend/src/main/java/com/encora/victorvazquez/todo_app/todo/TodoService.java:55-61 | a token yields a criterion exactly when Java's `split` on `_` gives two parts, with a lower-cased field |
| TodoQuery.CriterionOfThreeParts | backend/src/main/java/com/encora/victorvazquez/todo_app/todo/TodoService.java:56-58 | a token with three `_`-separated parts, such as `due_date_asc`, is dropped |
| TodoQuery.CriterionOfTrailingUnderscore | backend/src/main/java/com/encora/victorvazquez/todo_app/todo/TodoService.java:56-58 | a token ending in its only `_`, such as `priority_`, is dropped, since `split` discards the empty part |
| TodoQuery.CriteriaOf | backend/src/main/java/com/encora/victorvazquez/todo_app/todo/TodoService.java:54-63 | at most one criterion per token, all fields lower-case |
| TodoQuery.ParseSortBy | backend/src/main/java/com/encora/victorvazquez/todo_app/todo/TodoService.java:49-64 | null or blank gives no criteria; otherwise at most one per `-` token |
| TodoQuery.CriterionOfToken | backend/src/main/java/com/encora/victorvazquez/todo_app/todo/TodoService.java:56-60 | `field_direction` reads as the lower-cased field, ascending exactly for "asc" in any case |
| TodoQuery.CriterionOfBareToken | backend/src/main/java/com/encora/victorvazquez/todo_app/todo/TodoService.java:56-59 | a token without `_` is dropped |
| TodoQuery.ParseSortByTokens | backend/src/main/java/com/encora/victorvazquez/todo_app/todo/TodoService.java:54-63 | a `-`-joined list of tokens parses token by token |
| TodoQuery.CompareBy | backend/src/main/java/com/encora/victorvazquez/todo_app/todo/TodoService.java:75-90 | priority compares by value 3/2/1 in the criterion's direction; due date puts missing dates last ascending and first descending; other fields tie |
| TodoQuery.CompareIsLexicographic | backend/src/main/java/com/encora/victorvazquez/todo_app/todo/TodoService.java:73-96 | a tie exactly when every criterion ties; otherwise the first non-tying criterion decides |
| TodoQuery.CompareByFlip | backend/src/main/java/com/encora/victorvazquez/todo_app/todo/TodoService.java:75-90 | one criterion is antisymmetric |
| TodoQuery.CompareByChain | backend/src/main/java/com/encora/victorvazquez/todo_app/todo/TodoService.java:75-90 | one criterion is transitive |
| TodoQuery.CompareFlip | backend/src/main/java/com/encora/victorvazquez/todo_app/todo/TodoService.java:73-96 | the comparator is antisymmetric |
| TodoQuery.CompareChain | backend/src/main/java/com/encora/victorvazquez/todo_app/todo/TodoService.java:73-96 | the comparator is transitive for ties and for "not after" |
| TodoQuery.Insert | backend/src/main/java/com/encora/victorvazquez/todo_app/todo/TodoService.java:72-96 | one insertion step of the sort adds exactly the inserted todo |
| TodoQuery.InsertKeepsSorted | backend/src/main/java/com/encora/victorvazquez/todo_app/todo/TodoService.java:72-96 | insertion keeps a sorted list sorted |
| TodoQuery.Sort | backend/src/main/java/com/encora/victorvazquez/todo_app/todo/TodoService.java:72-96 | the sorted stream is a permutation of its input, ordered by the comparator |
| TodoQuery.AdjacentSortedIsSorted | backend/src/main/java/com/encora/victorvazquez/todo_app/todo/TodoService.java:72-96 | neighbours in order implies every pair in order |
| TodoQuery.SortIsOrderedPermutation | backend/src/main/java/com/encora/victorvazquez/todo_app/todo/TodoService.java:72-96 | the sorted list is a permutation with every pair in comparator order |
| TodoQuery.SortKeepsOrderedInput | backend/src/main/java/com/encora/victorvazquez/todo_app/todo/TodoService.java:72-96 | an already ordered list is returned as it is |
| TodoQuery.NoCriteriaKeepsOrder | backend/src/main/java/com/encora/victorvazquez/todo_app/todo/TodoService.java:49-52 | without sort criteria the stored order is kept |
| TodoQuery.InsertIsStable | backend/src/main/java/com/encora/victorvazquez/todo_app/todo/TodoService.java:72-96 | insertion keeps the relative order of tying todos |
| TodoQuery.SortIsStable | backend/src/main/java/com/encora/victorvazquez/todo_app/todo/TodoService.java:72-96 | `Stream.sorted` is stable: tying todos keep their input order |
| TodoQuery.Slice | backend/src/main/java/com/encora/victorvazquez/todo_app/todo/TodoService.java:97-98 | a negative skip or limit throws; otherwise the window from the skip, at most limit long |
| TodoQuery.AdjacentWindows | backend/src/main/java/com/encora/victorvazquez/todo_app/todo/TodoService.java:97-98 | two adjacent windows make the double-size window |
| TodoQuery.ConsecutivePages | backend/src/main/java/com/encora/victorvazquez/todo_app/todo/TodoService.java:97-98 | pages p and p+1 make the double-size page at p |
| Service.ListTodos | backend/src/main/java/com/encora/victorvazquez/todo_app/todo/TodoService.java:66-102 | fails exactly on a negative skip or size; the total counts every filtered todo; the page is the window of `size` todos starting at `page * size` in the sorted filtered list, as many as remain there, and is ordered by the sort criteria |
| Service.WindowKeepsOrder | backend/src/main/java/com/encora/victorvazquez/todo_app/todo/TodoService.java:73-98 | a page cut from a sorted list is sorted |
| Service.SliceIsSubMultiset | backend/src/main/java/com/encora/victorvazquez/todo_app/todo/TodoService.java:97-99 | a page holds only todos of the sorted list |
| Service.DefaultRequestIsFirstTen | backend/src/main/java/com/encora/victorvazquez/todo_app/todo/TodoController.java:20-21 | with the defaults page 0 and size 10 and no other parameter, the page is the first ten stored todos and the total is the list length |
| Service.TotalIgnoresPaging | backend/src/main/java/com/encora/victorvazquez/todo_app/todo/TodoService.java:67-68 | the total does not depend on page, size or sort |
| Service.CreateCheck | backend/src/main/java/com/encora/victorvazquez/todo_app/todo/TodoService.java:104-112 | creation is refused exactly for a missing text, a text over 120 UTF-16 units or a missing priority |
| Service.ApplyUpdate | backend/src/main/java/com/encora/victorvazquez/todo_app/todo/TodoService.java:114-127 | fails exactly for a text over 120 UTF-16 units; non-null text and priority replace the old ones, the due date is always overwritten, nothing else changes |
| Service.MarkOn | backend/src/main/java/com/encora/victorvazquez/todo_app/todo/TodoService.java:129-147 | fails exactly for an unknown id; a todo already in the wanted state is returned untouched; otherwise the first todo with the id is replaced by its marked copy |
| Service.MarkIsIdempotent | backend/src/main/java/com/encora/victorvazquez/todo_app/todo/TodoService.java:129-147 | marking twice with the same status changes nothing the second time |
| Service.DoneThenUndoneRestores | backend/src/main/java/com/encora/victorvazquez/todo_app/todo/TodoService.java:129-147 | completing then reopening an open todo restores the stored list |
| Service.TodoService.constructor | backend/src/main/java/com/encora/victorvazquez/todo_app/todo/TodoService.java:17-19 | the service wraps the repository |
| Service.TodoService.GetAllTodos | backend/src/main/java/com/encora/victorvazquez/todo_app/todo/TodoService.java:66-102 | the answer is `ListTodos` of the stored list |
| Service.TodoService.CreateTodo | backend/src/main/java/com/encora/victorvazquez/todo_app/todo/TodoService.java:104-112 | a refused todo leaves the repository untouched with the check's error; an accepted one is saved as `SaveInto` says |
| Service.TodoService.UpdateTodo | backend/src/main/java/com/encora/victorvazquez/todo_app/todo/TodoService.java:114-127 | not found leaves the list; otherwise the result is `ApplyUpdate` of the stored todo, saved in its place on success |
| Service.TodoService.MarkAsDone | backend/src/main/java/com/encora/victorvazquez/todo_app/todo/TodoService.java:129-137 | result and new list are those of `MarkOn` with done |
| Service.TodoService.MarkAsUndone | backend/src/main/java/com/encora/victorvazquez/todo_app/todo/TodoService.java:139-147 | result and new list are those of `MarkOn` with not done |
| Service.TodoService.Mark | backend/src/main/java/com/encora/victorvazquez/todo_app/todo/TodoService.java:129-147 | the shared body: result and new list are `MarkOn`'s; the stored-todo invariant holds |
| Service.TodoService.DeleteTodo | backend/src/main/java/com/encora/victorvazquez/todo_app/todo/TodoService.java:149-154 | fails exactly for an unknown id and then changes nothing; otherwise removes every todo with the id |
| ViewTypes.PriorityName | frontend/src/features/todo/types.ts:11 | a priority is spelled LOW, MEDIUM or HIGH |
| ViewTypes.PriorityNameInjective | frontend/src/features/todo/types.ts:11 | distinct priorities have distinct names |
| TodoApi.EncodePairs | frontend/src/features/todo/services/todoService.ts:49 | one `key=value` string per appended parameter, in order |
| TodoApi.Render | frontend/src/features/todo/services/todoService.ts:49-50 | the query is empty exactly when nothing was appended, and starts with "?" otherwise |
| TodoApi.BuildQueryParams | frontend/src/features/todo/services/todoService.ts:10-51 | the step-by-step appends render as the pair list `QueryPairs` |
| TodoApi.QueryPairsValues | frontend/src/features/todo/services/todoService.ts:18-47 | under each key the query holds exactly the value the rules choose (non-blank text, a chosen priority, the lower-cased status, a non-zero size, any page, a non-empty sort string) or nothing |
| TodoApi.QueryKeys | frontend/src/features/todo/services/todoService.ts:18-47 | the keys sent are exactly those whose condition holds |
| TodoApi.QueryPairsOrder | frontend/src/features/todo/services/todoService.ts:15-47 | keys appear at most once, in the order text, priority, status, size, page, sortBy |
| TodoApi.StatusParamValues | frontend/src/features/todo/services/todoService.ts:27-29 | the statuses are sent as "done" and "undone" |
| TodoApi.NoArgumentsNoQuery | frontend/src/features/todo/services/todoService.ts:10-51 | with no arguments no parameter and no "?" is sent |
| TodoApi.ByName | frontend/src/features/todo/services/todoService.ts:141-150 | the averages object has the keys LOW, MEDIUM and HIGH with the given values |
| TodoApi.MetricsContents | frontend/src/features/todo/services/todoService.ts:96-160 | the snapshot maps each priority to the rounded mean of its completed todos and holds the rounded overall mean; all zero when nothing is completed |
| TodoApi.TotalTime | frontend/src/features/todo/services/todoService.ts:119-123 | the summing loop yields the total completion time |
| TodoApi.AccumulateStep | frontend/src/features/todo/services/todoService.ts:132-136 | one reduce step keeps every priority's sum and count equal to its group's |
| TodoApi.Accumulate | frontend/src/features/todo/services/todoService.ts:126-138 | the accumulator holds exactly the priorities met, each with its group's total time and size |
| TodoApi.AverageOfGroup | frontend/src/features/todo/services/todoService.ts:146-147 | an accumulator's rounded mean is its group's rounded mean |
| TodoApi.Averages | frontend/src/features/todo/services/todoService.ts:145-149 | one average per priority met, equal to its group's rounded mean |
| TodoApi.DefaultsAreAverages | frontend/src/features/todo/services/todoService.ts:141-150 | the default 0 of a priority never met is its group's average too |
| TodoApi.ComputeMetrics | frontend/src/features/todo/services/todoService.ts:96-160 | the filtering, the two reduce passes and the spread produce `MetricsOf` of the page |
| TodoApi.GroupsPartition | frontend/src/features/todo/services/todoService.ts:126-138 | the three priority groups split the completed todos, sizes and total times adding up |
| TodoApi.MetricsIgnoreOpen | frontend/src/features/todo/services/todoService.ts:96-98 | todos that are not completed do not change the metrics |
| TodoApi.NineteenMinuteExample | frontend/src/features/todo/services/todoService.ts:113-160 | one medium todo done after 19 minutes gives 19 overall and for MEDIUM, 0 elsewhere |
| TodoState.MetricsRequestIsListing | frontend/src/features/todo/services/todoService.ts:89-90 | the metrics request is the listing request with no parameters: `GET /todos` |
| TodoState.MergeFilters | frontend/src/features/todo/context/TodoContext.tsx:170 | each field the update carries wins, the others are kept |
| TodoState.MergeLaws | frontend/src/features/todo/context/TodoContext.tsx:170 | an empty update keeps the filters, an update is idempotent, two updates act as their combination |
| TodoState.MergeFullUpdate | frontend/src/features/todo/context/TodoContext.tsx:170 | a full update replaces the filters |
| TodoState.InitialPairs | frontend/src/features/todo/context/TodoContext.tsx:39-51 | the initial state sends only size 10 and page 0 |
| TodoState.RenderInitialPairs | frontend/src/features/todo/services/todoService.ts:49-50 | those pairs render as `?size=10&page=0` |
| TodoState.InitialRequest | frontend/src/features/todo/context/TodoContext.tsx:84-93 | the first listing request is `GET /todos?size=10&page=0` |
| TodoState.FetchSucceeded | frontend/src/features/todo/context/TodoContext.tsx:95-98 | the fields a successful fetch sets make up `AfterFetch` |
| TodoState.FetchEffects | frontend/src/features/todo/context/TodoContext.tsx:84-109 | a fetch keeps filters, sort and page and ends not loading; success installs the page, total and fresh metrics; failure sets only the error |
| TodoState.ToggleEffects | frontend/src/features/todo/context/TodoContext.tsx:137-166 | the toggle error is reported exactly when the mark request failed, and then nothing else changes |
| TodoState.TodoContext.constructor | frontend/src/features/todo/context/TodoContext.tsx:35-59 | the initial state, metrics keyed in lower case |
| TodoState.TodoContext.SetFilters | frontend/src/features/todo/context/TodoContext.tsx:168-171 | back to page 0 with the update merged |
| TodoState.TodoContext.SetSort | frontend/src/features/todo/context/TodoContext.tsx:173-175 | only the sort string changes |
| TodoState.TodoContext.SetPage | frontend/src/features/todo/context/TodoContext.tsx:177-179 | only the current page changes, unclamped |
| TodoState.TodoContext.SetPageSize | frontend/src/features/todo/context/TodoContext.tsx:181-183 | the new size, back to page 0 |
| TodoState.TodoContext.RefreshMetrics | frontend/src/features/todo/context/TodoContext.tsx:111-122 | sends `GET /todos`; on success installs the computed snapshot, on failure keeps the old one |
| TodoState.TodoContext.FetchTodos | frontend/src/features/todo/context/TodoContext.tsx:84-109 | sends the state's listing request, then the metrics request on success only; the new state is `AfterFetch` |
| TodoState.TodoContext.ToggleTodoStatus | frontend/src/features/todo/context/TodoContext.tsx:137-166 | sends the mark request, then on success the reload and a second metrics request; the new state is `AfterToggle` |
| TodoListView.NextDirection | frontend/src/features/todo/components/TodoList.tsx:51-57 | a click always changes the direction |
| TodoListView.ThreeClicksRestore | frontend/src/features/todo/components/TodoList.tsx:51-57 | three clicks restore the direction and two do not |
| TodoListView.Toggle | frontend/src/features/todo/components/TodoList.tsx:45-59 | a null field changes nothing; the clicked column advances and the other is kept |
| TodoListView.ToggleThriceRestores | frontend/src/features/todo/components/TodoList.tsx:48-57 | three clicks on one column restore the sort state |
| TodoListView.ToggleCommutes | frontend/src/features/todo/components/TodoList.tsx:48-57 | clicks on different columns commute |
| TodoListView.Criteria | frontend/src/features/todo/components/TodoList.tsx:62-64 | one token per column that has a direction |
| TodoListView.SortStringEmpty | frontend/src/features/todo/components/TodoList.tsx:62-67 | the sort string is "" exactly when no column has a direction |
| TodoListView.SortStringBoth | frontend/src/features/todo/components/TodoList.tsx:62-65 | with both set, `priority_<dir>-duedate_<dir>` |
| TodoListView.SortHeader.constructor | frontend/src/features/todo/components/TodoList.tsx:40-43 | both columns start unsorted |
| TodoListView.SortHeader.HandleSort | frontend/src/features/todo/components/TodoList.tsx:45-68 | a null field sends nothing; otherwise the state becomes `Toggle` of the old one and its sort string is sent |
| TodoListView.PageCount | frontend/src/features/todo/components/TodoList.tsx:211 | the ceiling of total over size |
| TodoListView.PreviousPage | frontend/src/features/todo/components/TodoList.tsx:199 | never negative, one back from page 1 on |
| TodoListView.NextPage | frontend/src/features/todo/components/TodoList.tsx:228-234 | one forward, capped at the last page |
| TodoListView.PageLinks | frontend/src/features/todo/components/TodoList.tsx:209-213 | one link per page, the i-th to page i |
| TodoListView.PagerStaysInRange | frontend/src/features/todo/components/TodoList.tsx:199-234 | from a valid page Previous and Next stay on pages that have links; Next stops at the last one |
| TodoListView.NextOnEmptyList | frontend/src/features/todo/components/TodoList.tsx:209-240 | with no todos there are no links and Next is disabled, so the page -1 its formula names is never requested |
| TodoListView.NextEnabledAdvances | frontend/src/features/todo/components/TodoList.tsx:228-240 | Next is enabled exactly when its click moves one page forward |
| TodoListView.PreviousEnabledGoesBack | frontend/src/features/todo/components/TodoList.tsx:199-205 | Previous is enabled exactly when its click moves one page back |
| TodoListView.PreviousReachesFirst | frontend/src/features/todo/components/TodoList.tsx:199 | pressing Previous as often as the page index lands on page 0 and stays there |
| DateUtils.FloorDiv | frontend/src/utils/dateUtils.ts:57 | `Math.floor` of the quotient bracketed by multiples of the divisor |
| DateUtils.JsRem | frontend/src/utils/dateUtils.ts:58 | `%` takes the sign of the dividend and is smaller than the divisor |
| DateUtils.MinutesDecompose | frontend/src/utils/dateUtils.ts:56-64 | hours times 60 plus minutes is the count, minutes below 60, hours shown from 60 on |
| DateUtils.FormatMinutesShape | frontend/src/utils/dateUtils.ts:56-64 | under an hour `<m>m`, from an hour on `<h>h <m>m` |
| DateUtils.OneHourExample | frontend/src/utils/dateUtils.ts:56-64 | 60 formats as "1h 0m", 19 as "19m" |
| DateUtils.TimeDifferenceInMinutes | frontend/src/utils/dateUtils.ts:15-29 | whole minutes rounded down; NaN for an invalid date; 0 when parsing throws |
| DateUtils.TimeDifferenceSwap | frontend/src/utils/dateUtils.ts:23-24 | swapping the dates negates the difference, less one unless a whole number of minutes |
| DateUtils.ClassifyThresholds | frontend/src/utils/dateUtils.ts:42-48 | urgent up to 7 days, moderate 8 to 14, normal beyond |
| DateUtils.ClassifyMonotone | frontend/src/utils/dateUtils.ts:42-48 | a later due date is never more urgent |
| DateUtils.DueDateUrgency | frontend/src/utils/dateUtils.ts:32-53 | null exactly without a due date or when the date library throws; otherwise the thresholds, normal for NaN |
| DateUtils.FormatDate | frontend/src/utils/dateUtils.ts:4-12 | "" exactly without a date or for an empty rendering; for a date, the library's rendering, or "Invalid date" when it throws |
| EndToEnd.SentStatus | frontend/src/features/todo/services/todoService.ts:27-29 | the status parameter the backend reads for each status choice |
| EndToEnd.StatusChoiceSelects | backend/src/main/java/com/encora/victorvazquez/todo_app/todo/repository/InMemoryTodoRepository.java:23 | the status filter the client sends selects done todos, open todos or all of them, as chosen |
| EndToEnd.TokenParses | backend/src/main/java/com/encora/victorvazquez/todo_app/todo/TodoService.java:56-60 | every token the header builds reads back as its field and direction |
| EndToEnd.ParseOneToken | backend/src/main/java/com/encora/victorvazquez/todo_app/todo/TodoService.java:49-64 | a one-column sort string parses to its one criterion |
| EndToEnd.ParseTwoTokens | backend/src/main/java/com/encora/victorvazquez/todo_app/todo/TodoService.java:49-64 | a two-column sort string parses to priority then due date |
| EndToEnd.SortStringParses | frontend/src/features/todo/components/TodoList.tsx:45-67 | every sort string the header sends parses on the backend into the criteria the header shows |
| EndToEnd.MetricsSeeFirstPage | frontend/src/features/todo/services/todoService.ts:89-98 | the metrics request is answered with the first ten stored todos |
| EndToEnd.PagingReadsBack | frontend/src/features/todo/services/todoService.ts:33-42 | a page size and page index sent read back as the same numbers |

## Left out

- Network, `async`/`await`, React rendering, effects and toasts are not modelled. Each request
  is modelled by the request it sends and by its outcome, which is passed in as
  `Success(value)` or `Failure`. The initial and dependency effects
  (`TodoContext.tsx:124-135`) are not modelled as handlers.
- Stored todos are values. The repository holds records, where Java holds references
  to mutable objects. The service saves every todo it changes straight after
  changing it, so the observable results agree. Aliasing between a returned
  todo and the stored one is not modelled.
- The clock (`LocalDateTime.now()`, `new Date()`) is a parameter `now`.
- Floating point is not modelled. Completion times are exact reals. `toFixed(0)` followed
  by `parseFloat` is an abstract parameter `round`.
- TodoApi.MetricsOf sums milliseconds and divides once. In reals this equals averaging
  per-todo minutes, but it does not model the rounding error of the
  floating-point sum.
- `URLSearchParams` percent-encoding is not modelled. Values are rendered as they are.
- TodoApi.Averages: the iteration order of `Object.entries` is an arbitrary
  choice (`:|`). The result does not depend on that order.
- The backend's Java `int` and `long` overflow is not modelled.
- TodoRepository.FilterRows: lower-casing folds only the ASCII letters `A`-`Z`. Java's
  `toLowerCase` folds every Unicode letter, so a filter "ÉCOLE" finds "école" in Java but
  not in the model.
- TodoQuery.CriterionOf: the field is lower-cased by the same ASCII-only folding. The
  fields the backend knows (`priority`, `duedate`) are ASCII, so only unknown fields differ.
- TodoRepository.FilterRows requires `TextFilterSafe`, and so do `Service.ListTodos` and
  `TodoRepository.InMemoryTodoRepository.FindAllMatching`. The reason is that Java throws a
  `NullPointerException` when the text filter meets a todo without text. Every todo stored
  through the service has a text.
- TodoQuery.PriorityValue: Java throws when the priority is null. The model gives 0
  instead, and the service never stores such a todo.
- Service.TodoService.CreateTodo requires a todo whose completion time is
  consistent with its flag, so the model excludes request bodies whose `done` and
  `doneDate` disagree. After the JSON constructor, the JSON binding can still set `done`
  through `setDone` and write `doneDate` and `creationDate` into the fields, and the
  service checks neither: a body with only text, priority and a `doneDate` stores an
  open todo with a completion time. The client never sends `done` or `doneDate`.
- Service.TodoService.Valid: its `DoneDateConsistent` part holds only under that
  restriction on created todos.
- TodoListView.PageCount, TodoListView.NextPage and TodoListView.PageLinks require a positive page size. The client
  never sets another size. A zero size would give JavaScript `Infinity` or
  `NaN`. PageLinks also requires a non-negative total.
- DateUtils.JsRem: for negative input it states only the sign and the bound,
  not the exact value.
- DateUtils.FormatDate: `date-fns` formatting is an input. The results of `parseISO` and
  `differenceInDays` are parameters in `DateUtils`.
- The value `markTodoAsDone`/`markTodoAsUndone` return is unused by the context and not
  modelled.
- `createTodo`, `updateTodo` and `deleteTodo` on the client send a single
  request each. They are not part of this model.
- The controller, other components, tests and configuration are not part of this model.
  The controller is modelled only through its request defaults `DefaultPage` and `DefaultSize`.
