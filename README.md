# To-do app stores, modelled in Dafny

This project models the client-side state of a to-do list application: the
todo store (`todosSlice.ts`), the metrics store (`metricsSlice.ts`) and the
column sorters of the todo table (`TodoTable.tsx`).

Each store is a reducer. Every outcome of an asynchronous request (pending,
fulfilled, rejected) and every plain setter is one deterministic transition
over the store's state. The model has two parts for each store:

- a value datatype for the state (`TodosState`, `MetricsState`), an action
  datatype, and the reducer as a pure function (`TodosReducer`,
  `MetricsReducer`, the slices' exported `todosReducer` and `metricsReducer`);
- a class (`TodosStore`, `MetricsStore`) with one field per state field and one
  method per reducer case. Each method updates its fields in place, as the
  source does on its draft state. Each one is proved to reach exactly the state
  the reducer gives for that action.

The properties are lemmas about the reducers.

Files:

- `wrappers.dfy`: `Option`, which models optional fields (`error?`, `filtering?`, `name?`).
- `todos_slice.dfy`: module `TodosSlice`, covering the todo entity, the state, the actions, row replacement by id, the page rule on creation, the reducer, its lemmas, and `TodosStore`.
- `metrics_slice.dfy`: module `MetricsSlice`, covering the metrics state, its reducer, its lemmas, and `MetricsStore`.
- `todo_table.dfy`: module `TodoTable`, covering the table row and the three sorters with their ordering lemmas.

Points where the model follows the code as written:

- **The overflow test.** The test `(totalElements + 1) / (10 * totalPages) > 1` is computed on JavaScript numbers. `Overflows` is written with real division. A zero divisor gets its own case: +Infinity when the dividend is positive, NaN or -Infinity otherwise. `OverflowsAsIntegers` shows that the test is `totalElements + 1 > 10 * totalPages` whenever both counters are non-negative. `OverflowsNegativePages` shows that the two forms disagree for a non-negative `totalElements` and a negative `totalPages`.
- **Double count on overflow.** The overflow branch increments `totalElements` twice, so one creation adds 2 to the count.
- **Cursor on overflow.** When an overflow happens off the last page, the cursor moves to the *old* last page, `totalPages - 1` computed before `totalPages` is incremented. That page does not hold the new row (`CreateLandsOnLastPage`).
- **Stale rows after overflow.** An overflowing creation keeps the old page's rows while the cursor moves on. A second creation can then append to them, leaving 11 rows (`CreateTwiceOverfillsPage`).
- **Text lengths.** The name and due-date sorters compare JavaScript `length`, which counts UTF-16 code units. `Utf16Length` counts a character outside the Basic Multilingual Plane twice (`AstralCharacterCountsTwice`).
- **Empty store.** Creating a todo in an empty store leaves `currentPage = -1` (`CreateOnEmptyStore`). The counters are therefore `int`.
- **Failure policies.** A failed fetch clears the list and the counters. A failed filter, update, create or status toggle keeps them.
- **No sorting action.** `todosSlice.ts` has no sort action.
- **Page number on fetch.** On a successful fetch, `currentPage` is copied from the response's `number`, not from the requested page.

## Model

| member | source | states |
|---|---|---|
| `TodosSlice.ReplaceById` | src/features/todos/todosSlice.ts:103-108 | same length; every row whose id equals the payload's id becomes the payload; every other row is unchanged |
| `TodosSlice.ReplaceByIdKeepsIds` | src/features/todos/todosSlice.ts:103-108 | the sequence of ids is the same before and after a replacement |
| `TodosSlice.ReplaceByIdKeepsUniqueIds` | src/features/todos/todosSlice.ts:103-108 | if ids were unique in the list, they stay unique |
| `TodosSlice.ReplaceByIdShowsPayload` | src/features/todos/todosSlice.ts:103-108 | the payload is in the result when some row had its id; with no matching id the list is unchanged |
| `TodosSlice.ReplaceByIdLastWins` | src/features/todos/todosSlice.ts:101-129 | two replacements with the same id equal the second alone |
| `TodosSlice.OverflowsAsIntegers` | src/features/todos/todosSlice.ts:142 | for non-negative counters the division test holds iff `totalElements + 1 > 10 * totalPages`, including `totalPages = 0` |
| `TodosSlice.OverflowsNegativePages` | src/features/todos/todosSlice.ts:142 | for every non-negative element count and negative page count the division test fails while the integer form holds |
| `TodosSlice.Overflows` | src/features/todos/todosSlice.ts:142 | the division test on JavaScript numbers; with zero pages it holds iff `totalElements >= 0` (x/0 is +Infinity, NaN or -Infinity); with positive pages and a non-positive dividend it fails |
| `TodosSlice.Created` | src/features/todos/todosSlice.ts:139-160 | the rows are kept or get the payload appended; the page count rises by at most 1; the element count rises by 1 plus the page increase; the filter is kept, `loading` false, `error` "" |
| `TodosSlice.TodosReducer` | src/features/todos/todosSlice.ts:73-208 | `loading` is true exactly after a pending case (setters keep it); only `setFilters` changes the filter; pending, keeping rejections, row updates and `setFilters` keep all three counters |
| `TodosSlice.PendingOnlyRaisesLoading` | src/features/todos/todosSlice.ts:78-80 | each of the six pending cases sets `loading` and changes nothing else |
| `TodosSlice.LoadedTakesResponse` | src/features/todos/todosSlice.ts:81-88 | a successful fetch, like a successful filter (169-176), takes rows, page, page count and element count from the response, sets `error` to "" and `loading` to false, and keeps the filter |
| `TodosSlice.LoadedForgetsEarlierState` | src/features/todos/todosSlice.ts:81-88 | after a successful fetch the state depends only on the response and the staged filter |
| `TodosSlice.FetchRejectedClears` | src/features/todos/todosSlice.ts:89-96 | a failed fetch leaves no rows, all three counters at 0, `error` set to the message, and `loading` false |
| `TodosSlice.KeepingRejectionKeepsRows` | src/features/todos/todosSlice.ts:111-198 | a failed done, undone, create, filter or update changes only `loading` (to false) and `error` (to the message) |
| `TodosSlice.FailurePoliciesDiffer` | src/features/todos/todosSlice.ts:89-180 | a failed fetch and a failed filter give the same state iff the list is empty and the counters are zero |
| `TodosSlice.FailedAttemptKeepsState` | src/features/todos/todosSlice.ts:98-198 | starting from an idle store, pending then a keeping rejection restores the state except for `error` |
| `TodosSlice.RowUpdateReplacesById` | src/features/todos/todosSlice.ts:101-194 | a successful done, undone or update keeps the length, puts the payload at every row with its id, keeps the other rows and the ids, keeps the counters, and clears the error |
| `TodosSlice.DoneThenUndoneShowsLastResponse` | src/features/todos/todosSlice.ts:101-129 | marking done and then undone for the same id leaves the undone response, whatever the done response was |
| `TodosSlice.CreateOverflowing` | src/features/todos/todosSlice.ts:142-159 | on overflow: `totalPages` + 1, `totalElements` + 2, rows unchanged; the page becomes the new last page if the store was on the last page, otherwise the old `totalPages - 1` |
| `TodosSlice.CreateFitting` | src/features/todos/todosSlice.ts:153-159 | without overflow: `totalPages` is unchanged, `totalElements` + 1, and the store ends on the last page; the payload is appended iff the store was already on the last page |
| `TodosSlice.CreateLandsOnLastPage` | src/features/todos/todosSlice.ts:142-154 | after a creation the store is on the last page unless it overflowed while off the last page |
| `TodosSlice.CreateShowsRowOnlyWhenFitting` | src/features/todos/todosSlice.ts:153-157 | the rows change iff there is no overflow and the store is on the last page |
| `TodosSlice.CreateKeepsPageSize` | src/features/todos/todosSlice.ts:139-160 | a creation never makes the page exceed 10 rows, provided the last page shows no more rows than the counters place on it |
| `TodosSlice.CreateTwiceOverfillsPage` | src/features/todos/todosSlice.ts:142-158 | from 10 rows on a single full page, one creation moves to page 1 with 2 pages, 12 elements and the 10 old rows; a second creation appends, giving 11 rows |
| `TodosSlice.CreateOnEmptyStore` | src/features/todos/todosSlice.ts:139-160 | the first creation from the initial state gives page -1, 1 page, 2 elements and no rows |
| `TodosSlice.SettersTouchOneField` | src/features/todos/todosSlice.ts:201-206 | `setCurrentPage` changes only `currentPage`; `setFilters` changes only `filtering` |
| `TodosSlice.TodosStore.constructor` | src/features/todos/todosSlice.ts:23-31 | the store starts not loading, with no rows, zero counters, no filter and no error |
| `TodosSlice.TodosStore.FetchTodosPending` | src/features/todos/todosSlice.ts:78-80 | only `loading` becomes true (the reducer's pending case, `PendingOnlyRaisesLoading`) |
| `TodosSlice.TodosStore.FetchTodosFulfilled` | src/features/todos/todosSlice.ts:81-88 | rows and the three counters are taken from the response, `error` becomes "", `loading` false, the filter stays (`LoadedTakesResponse`) |
| `TodosSlice.TodosStore.FetchTodosRejected` | src/features/todos/todosSlice.ts:89-96 | rows emptied, counters zeroed, `error` set to the message, `loading` false (`FetchRejectedClears`) |
| `TodosSlice.TodosStore.SetAsDonePending` | src/features/todos/todosSlice.ts:98-100 | only `loading` becomes true (`PendingOnlyRaisesLoading`) |
| `TodosSlice.TodosStore.SetAsDoneFulfilled` | src/features/todos/todosSlice.ts:101-110 | rows replaced by the response's id, counters kept, `error` "" (`RowUpdateReplacesById`) |
| `TodosSlice.TodosStore.SetAsDoneRejected` | src/features/todos/todosSlice.ts:111-115 | the copied rows equal the old ones; only `loading` and `error` change (`KeepingRejectionKeepsRows`) |
| `TodosSlice.TodosStore.SetAsUndonePending` | src/features/todos/todosSlice.ts:117-119 | only `loading` becomes true (`PendingOnlyRaisesLoading`) |
| `TodosSlice.TodosStore.SetAsUndoneFulfilled` | src/features/todos/todosSlice.ts:120-129 | rows replaced by the response's id, counters kept, `error` "" (`RowUpdateReplacesById`) |
| `TodosSlice.TodosStore.SetAsUndoneRejected` | src/features/todos/todosSlice.ts:130-134 | the copied rows equal the old ones; only `loading` and `error` change (`KeepingRejectionKeepsRows`) |
| `TodosSlice.TodosStore.PostNewTodoPending` | src/features/todos/todosSlice.ts:136-138 | only `loading` becomes true (`PendingOnlyRaisesLoading`) |
| `TodosSlice.TodosStore.PostNewTodoFulfilled` | src/features/todos/todosSlice.ts:139-160 | the in-place branches and increments reach the reducer's creation state, whose effects `CreateOverflowing` and `CreateFitting` state |
| `TodosSlice.TodosStore.PostNewTodoRejected` | src/features/todos/todosSlice.ts:161-164 | only `loading` and `error` change (`KeepingRejectionKeepsRows`) |
| `TodosSlice.TodosStore.FilterTodosPending` | src/features/todos/todosSlice.ts:166-168 | only `loading` becomes true (`PendingOnlyRaisesLoading`) |
| `TodosSlice.TodosStore.FilterTodosFulfilled` | src/features/todos/todosSlice.ts:169-176 | the same state a successful fetch gives for the response (`LoadedTakesResponse`) |
| `TodosSlice.TodosStore.FilterTodosRejected` | src/features/todos/todosSlice.ts:177-180 | only `loading` and `error` change, rows and counters are kept (`KeepingRejectionKeepsRows`) |
| `TodosSlice.TodosStore.UpdateTodoPending` | src/features/todos/todosSlice.ts:182-184 | only `loading` becomes true (`PendingOnlyRaisesLoading`) |
| `TodosSlice.TodosStore.UpdateTodoFulfilled` | src/features/todos/todosSlice.ts:185-194 | rows replaced by the response's id, counters kept, `error` "" (`RowUpdateReplacesById`) |
| `TodosSlice.TodosStore.UpdateTodoRejected` | src/features/todos/todosSlice.ts:195-198 | only `loading` and `error` change (`KeepingRejectionKeepsRows`) |
| `TodosSlice.TodosStore.SetCurrentPage` | src/features/todos/todosSlice.ts:201-203 | only `currentPage` changes, to the payload (`SettersTouchOneField`) |
| `TodosSlice.TodosStore.SetFilters` | src/features/todos/todosSlice.ts:204-206 | only `filtering` changes, to the payload (`SettersTouchOneField`) |
| `MetricsSlice.InitialStateIsZero` | src/features/metrics/metricsSlice.ts:17-26 | the initial state is not loading, has all four averages at 0 and has no error |
| `MetricsSlice.PendingKeepsMetrics` | src/features/metrics/metricsSlice.ts:38-40 | pending sets `loading` and keeps the metrics and the error |
| `MetricsSlice.FulfilledTakesResponse` | src/features/metrics/metricsSlice.ts:41-45 | a success replaces the metrics with the payload, sets `error` to "" and `loading` to false, independent of the earlier state |
| `MetricsSlice.RejectedKeepsStaleMetrics` | src/features/metrics/metricsSlice.ts:46-49 | a failure keeps the metrics exactly as they were, sets `error` to the message and `loading` to false |
| `MetricsSlice.MetricsReducer` | src/features/metrics/metricsSlice.ts:33-53 | `loading` is true exactly after pending; only a success changes the metrics; pending keeps the error |
| `MetricsSlice.Run` | src/features/metrics/metricsSlice.ts:33-53 | the store after a sequence of dispatched outcomes; after a non-empty sequence `loading` is true iff the last outcome is pending |
| `MetricsSlice.LastReported` | src/features/metrics/metricsSlice.ts:41-45 | the payload of the last success in a sequence, independently defined; it is the starting metrics or the payload of some success |
| `MetricsSlice.RunShowsLastSuccess` | src/features/metrics/metricsSlice.ts:36-49 | after any sequence of outcomes the metrics are those of the last success, or the starting ones if nothing succeeded |
| `MetricsSlice.MetricsStore.constructor` | src/features/metrics/metricsSlice.ts:17-26 | the store starts in the initial state |
| `MetricsSlice.MetricsStore.FetchMetricsPending` | src/features/metrics/metricsSlice.ts:38-40 | only `loading` becomes true (`PendingKeepsMetrics`) |
| `MetricsSlice.MetricsStore.FetchMetricsFulfilled` | src/features/metrics/metricsSlice.ts:41-45 | metrics replaced by the payload, `error` "", `loading` false (`FulfilledTakesResponse`) |
| `MetricsSlice.MetricsStore.FetchMetricsRejected` | src/features/metrics/metricsSlice.ts:46-49 | stale metrics kept, `error` set to the message, `loading` false (`RejectedKeepsStaleMetrics`) |
| `TodoTable.Utf16Length` | src/components/TodoList/TodoTable.tsx:18 | JavaScript `length`: between the number of characters and twice that, a character above U+FFFF counting 2 |
| `TodoTable.Utf16LengthOfBmp` | src/components/TodoList/TodoTable.tsx:18 | for text with no character above U+FFFF, `length` equals the number of characters |
| `TodoTable.NameSorter` | src/components/TodoList/TodoTable.tsx:18 | negative iff `a`'s name has fewer UTF-16 code units; zero iff both names have the same `length` |
| `TodoTable.PriorityValue` | src/components/TodoList/TodoTable.tsx:25-27 | the rank is between 1 and 3 |
| `TodoTable.PrioritySorter` | src/components/TodoList/TodoTable.tsx:24-35 | the result is -1, 0 or 1; it is 0 iff the priorities are equal, and -1 iff `a` is more urgent |
| `TodoTable.DueDateSorter` | src/components/TodoList/TodoTable.tsx:41 | negative iff `a`'s date text has fewer UTF-16 code units; zero iff the `length`s are equal |
| `TodoTable.PriorityValueRanks` | src/components/TodoList/TodoTable.tsx:25-27 | low=1, medium=2, high=3; equal ranks iff equal priorities; a higher rank iff more urgent |
| `TodoTable.SortersAntisymmetric` | src/components/TodoList/TodoTable.tsx:18-41 | swapping the arguments negates each of the three sorters |
| `TodoTable.SortersTransitive` | src/components/TodoList/TodoTable.tsx:18-41 | "not after" is transitive for all three sorters and total for the priority sorter |
| `TodoTable.HighBeforeLow` | src/components/TodoList/TodoTable.tsx:29-34 | compare(high, low) = -1 and compare(low, high) = 1 |
| `TodoTable.SortersSeeOnlyLengths` | src/components/TodoList/TodoTable.tsx:18-41 | the name and due-date sorters depend only on the texts' `length`s, not on their content |
| `TodoTable.EqualLengthNamesTie` | src/components/TodoList/TodoTable.tsx:18 | witness on sample rows 1 and 3: the different names "Julio Brown" and "Mario Brown" tie |
| `TodoTable.EqualLengthDatesTie` | src/components/TodoList/TodoTable.tsx:41 | witness on sample rows 1 and 3: the different dates "2023-08-02" and "2023-08-04" tie |
| `TodoTable.AstralCharacterCountsTwice` | src/components/TodoList/TodoTable.tsx:18 | witness: a name made of one emoji (U+1F600) ties with "ab", as JavaScript `length` gives 2 for both |
| `TodoTable.SortedByPriorityRanksDescend` | src/components/TodoList/TodoTable.tsx:24-35 | in a list ordered by the priority sorter, ranks never increase from front to back |

## Left out

- The request thunks (`fetchTodos`, `setAsDone`, `setAsUndone`, `postNewTodo`, `filterTodos`, `updateTodo`, `fetchMetrics`; todosSlice.ts:33-71 and metricsSlice.ts:28-31) are left out. They are HTTP calls through a services module that is not part of this model. Their payloads and failure messages are method parameters.
- The Redux Toolkit machinery (`createSlice`, `builder.addCase`, Immer drafts) and the store wiring in app/store.ts are library plumbing. Only the reducer bodies are modelled.
- The rendering components and the table's row-selection state are UI with no state logic.
- The date fields (`doneDate`, `dueDate`) are opaque values that are only copied. No date arithmetic or formatting is modelled.
- The overdue/approaching row classification is left out because it does not occur in the modelled files.
- The sample rows in TodoTable.tsx:50-93 are fixture content and are left out.
- Overlapping asynchronous requests and their order of arrival are not modelled. A race is one particular order of reducer calls, and each call is modelled.
- Overflows: double rounding of very large counters is not modelled (exact reals are used). JavaScript numbers hold integers exactly only below 2^53. Past that point the increments at todosSlice.ts:146, 151, 152 and 158 can stop changing the value, which the unbounded `int` counters do not capture.
- The array identity of `state.todos = [...state.todos]` (a fresh array with the same rows) is not modelled. Rows are sequence values here, so the copy equals the old list.
- The `payload` of a response is untyped (`any`) in the source. The model assumes it has the documented shapes (`PageResponse`, `Todo`, `Metrics`).
