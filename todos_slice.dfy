/**
 * The todo store of src/features/todos/todosSlice.ts.
 *
 * The slice is a reducer: every outcome of an asynchronous request (pending,
 * fulfilled, rejected) and the two plain setters are transitions over one
 * `TodosState`. `TodosReducer` is that reducer as a function over state
 * values; `TodosStore` is the in-place view of the same store, with one field
 * per state field and one method per reducer case, each proved to land on
 * the state `TodosReducer` prescribes. The HTTP requests that produce the
 * payloads are not modelled: a payload or a failure message is a parameter.
 */
module TodosSlice {
  import opened Wrappers

  datatype Priority = High | Medium | Low

  datatype Status = Done | Undone

  /** A point in time; the reducers only copy dates, so it is kept opaque. */
  datatype Date = Date(epochMillis: int)

  /** One task, as the backend returns it (`interface Todos`). */
  datatype Todo = Todo(
    name: Option<string>,
    priority: Priority,
    state: Status,
    doneDate: Option<Date>,
    dueDate: Option<Date>,
    id: string)

  /** The search criteria staged by `setFilters` (`TodosState['filtering']`). */
  datatype Filtering = Filtering(
    name: Option<string>,
    dueDate: Option<Date>,
    priority: Option<Priority>,
    state: Option<Status>)

  /** The body of a paged list response: `{content, number, totalPages, totalElements}`. */
  datatype PageResponse = PageResponse(
    content: seq<Todo>,
    number: int,
    totalPages: int,
    totalElements: int)

  /** `interface TodosState`. The counters are plain numbers: nothing keeps them non-negative. */
  datatype TodosState = TodosState(
    loading: bool,
    todos: seq<Todo>,
    currentPage: int,
    totalPages: int,
    totalElements: int,
    filtering: Option<Filtering>,
    error: Option<string>)

  /** The number of rows per page that the creation rule assumes. */
  const PageSize: int := 10

  const InitialState: TodosState :=
    TodosState(false, [], 0, 0, 0, None, None)

  /**
   * Every action the slice handles: the three outcomes of each of the six
   * requests, then the two setters. A rejection carries the error's message,
   * which may itself be absent.
   */
  datatype TodosAction =
    | FetchTodosPending
    | FetchTodosFulfilled(page: PageResponse)
    | FetchTodosRejected(message: Option<string>)
    | SetAsDonePending
    | SetAsDoneFulfilled(todo: Todo)
    | SetAsDoneRejected(message: Option<string>)
    | SetAsUndonePending
    | SetAsUndoneFulfilled(todo: Todo)
    | SetAsUndoneRejected(message: Option<string>)
    | PostNewTodoPending
    | PostNewTodoFulfilled(todo: Todo)
    | PostNewTodoRejected(message: Option<string>)
    | FilterTodosPending
    | FilterTodosFulfilled(page: PageResponse)
    | FilterTodosRejected(message: Option<string>)
    | UpdateTodoPending
    | UpdateTodoFulfilled(todo: Todo)
    | UpdateTodoRejected(message: Option<string>)
    | SetCurrentPage(pageNumber: int)
    | SetFilters(filters: Option<Filtering>)
  {
    predicate IsPending() {
      FetchTodosPending? || SetAsDonePending? || SetAsUndonePending? ||
      PostNewTodoPending? || FilterTodosPending? || UpdateTodoPending?
    }

    /** The rejections that leave the rows and the counters alone. */
    predicate IsKeepingRejection() {
      SetAsDoneRejected? || SetAsUndoneRejected? || PostNewTodoRejected? ||
      FilterTodosRejected? || UpdateTodoRejected?
    }

    /** The fulfilments that replace the matching row by the returned todo. */
    predicate IsRowUpdate() {
      SetAsDoneFulfilled? || SetAsUndoneFulfilled? || UpdateTodoFulfilled?
    }
  }

  // ---------------------------------------------------------------------------
  // Row replacement: `state.todos.map(todo => todo.id === payload.id ? payload : todo)`
  // ---------------------------------------------------------------------------

  function ReplaceById(todos: seq<Todo>, payload: Todo): (r: seq<Todo>)
    ensures |r| == |todos|
    ensures forall i :: 0 <= i < |todos| && todos[i].id == payload.id ==> r[i] == payload
    ensures forall i :: 0 <= i < |todos| && todos[i].id != payload.id ==> r[i] == todos[i]
  {
    seq(|todos|, i requires 0 <= i < |todos| => if todos[i].id == payload.id then payload else todos[i])
  }

  /** The ids of a list of rows, in order. */
  function Ids(todos: seq<Todo>): (r: seq<string>)
    ensures |r| == |todos|
  {
    if todos == [] then [] else [todos[0].id] + Ids(todos[1..])
  }

  predicate UniqueIds(todos: seq<Todo>) {
    forall i, j :: 0 <= i < j < |todos| ==> todos[i].id != todos[j].id
  }

  /** Replacing rows by id never changes which id sits at which position. */
  lemma {:induction false} ReplaceByIdKeepsIds(todos: seq<Todo>, payload: Todo)
    ensures Ids(ReplaceById(todos, payload)) == Ids(todos)
  {
    if todos != [] {
      ReplaceByIdKeepsIds(todos[1..], payload);
      assert ReplaceById(todos, payload)[1..] == ReplaceById(todos[1..], payload);
      assert ReplaceById(todos, payload)[0].id == todos[0].id;
    }
  }

  /** So the uniqueness of ids in the store is kept by every row replacement. */
  lemma ReplaceByIdKeepsUniqueIds(todos: seq<Todo>, payload: Todo)
    requires UniqueIds(todos)
    ensures UniqueIds(ReplaceById(todos, payload))
  {
  }

  /** The returned todo shows up exactly when some row carried its id. */
  lemma ReplaceByIdShowsPayload(todos: seq<Todo>, payload: Todo)
    ensures (exists i :: 0 <= i < |todos| && todos[i].id == payload.id) ==> payload in ReplaceById(todos, payload)
    ensures (forall i :: 0 <= i < |todos| ==> todos[i].id != payload.id) ==> ReplaceById(todos, payload) == todos
  {
    var r := ReplaceById(todos, payload);
    if forall i :: 0 <= i < |todos| ==> todos[i].id != payload.id {
      assert forall i :: 0 <= i < |todos| ==> r[i] == todos[i];
    }
  }

  /** A later response for the same id overrides an earlier one completely. */
  lemma ReplaceByIdLastWins(todos: seq<Todo>, first: Todo, second: Todo)
    requires first.id == second.id
    ensures ReplaceById(ReplaceById(todos, first), second) == ReplaceById(todos, second)
  {
    var once := ReplaceById(todos, first);
    assert forall i :: 0 <= i < |todos| ==> (once[i].id == second.id <==> todos[i].id == second.id);
  }

  // ---------------------------------------------------------------------------
  // The page rule applied when a todo is created
  // ---------------------------------------------------------------------------

  /**
   * `(totalElements + 1) / (10 * totalPages) > 1` on JavaScript numbers.
   * A zero divisor gives +Infinity for a positive dividend (so the test
   * holds), NaN for a zero one and -Infinity for a negative one (it fails).
   * Rounding of very large doubles is not modelled.
   */
  predicate Overflows(totalElements: int, totalPages: int): (b: bool)
    ensures totalPages == 0 ==> (b <==> totalElements >= 0)
    ensures totalPages > 0 && totalElements + 1 <= 0 ==> !b
  {
    if totalPages == 0 then totalElements + 1 > 0
    else (totalElements + 1) as real / (PageSize * totalPages) as real > 1.0
  }

  /** For non-negative counters the test is an integer comparison: one row more than the pages hold. */
  lemma OverflowsAsIntegers(totalElements: int, totalPages: int)
    requires totalElements >= 0 && totalPages >= 0
    ensures Overflows(totalElements, totalPages) <==> totalElements + 1 > PageSize * totalPages
  {
    if totalPages > 0 {
      var x, d := (totalElements + 1) as real, (PageSize * totalPages) as real;
      assert x / d * d == x;
      if x / d > 1.0 {
        assert x / d * d > 1.0 * d;
      } else {
        assert x / d * d <= 1.0 * d;
      }
    }
  }

  /**
   * For a non-negative element count and a negative page count the
   * JavaScript test always fails while the integer comparison always holds.
   */
  lemma OverflowsNegativePages(totalElements: int, totalPages: int)
    requires totalElements >= 0 && totalPages < 0
    ensures !Overflows(totalElements, totalPages) && totalElements + 1 > PageSize * totalPages
  {
    var x, d := (totalElements + 1) as real, (PageSize * totalPages) as real;
    assert x / d * d == x;
  }

  predicate OnLastPage(s: TodosState) {
    s.currentPage == s.totalPages - 1
  }

  /** `postNewTodo.fulfilled`, with its branches as written. */
  function Created(s: TodosState, payload: Todo): (r: TodosState)
    ensures r.todos == s.todos || r.todos == s.todos + [payload]
    ensures s.totalPages <= r.totalPages <= s.totalPages + 1
    ensures r.totalElements == s.totalElements + 1 + (r.totalPages - s.totalPages)
    ensures r.filtering == s.filtering && !r.loading && r.error == Some("")
  {
    var settled := s.(loading := false, error := Some(""));
    if Overflows(s.totalElements, s.totalPages) then
      settled.(
        currentPage := if OnLastPage(s) then s.currentPage + 1 else s.totalPages - 1,
        totalElements := s.totalElements + 1 + 1,
        totalPages := s.totalPages + 1)
    else if !OnLastPage(s) then
      settled.(currentPage := s.totalPages - 1, totalElements := s.totalElements + 1)
    else
      settled.(todos := s.todos + [payload], totalElements := s.totalElements + 1)
  }

  // ---------------------------------------------------------------------------
  // The reducer
  // ---------------------------------------------------------------------------

  /**
   * `todosReducer`: the state after one action. `loading` is up exactly
   * after a pending case (the setters leave it alone), only `setFilters`
   * touches the filter, and the cases that neither load a page, nor
   * clear it, nor create, nor set the page keep all three counters.
   */
  function TodosReducer(s: TodosState, action: TodosAction): (r: TodosState)
    ensures r.loading <==> action.IsPending() || ((action.SetCurrentPage? || action.SetFilters?) && s.loading)
    ensures !action.SetFilters? ==> r.filtering == s.filtering
    ensures action.IsPending() || action.IsKeepingRejection() || action.IsRowUpdate() || action.SetFilters? ==>
      r.currentPage == s.currentPage && r.totalPages == s.totalPages && r.totalElements == s.totalElements
  {
    match action
    case FetchTodosPending => s.(loading := true)
    case FetchTodosFulfilled(page) =>
      s.(loading := false, todos := page.content, currentPage := page.number,
         totalPages := page.totalPages, totalElements := page.totalElements, error := Some(""))
    case FetchTodosRejected(message) =>
      s.(loading := false, todos := [], currentPage := 0, totalElements := 0, totalPages := 0, error := message)
    case SetAsDonePending => s.(loading := true)
    case SetAsDoneFulfilled(todo) => s.(loading := false, todos := ReplaceById(s.todos, todo), error := Some(""))
    // `state.todos = [...state.todos]` stores a copy with the same rows
    case SetAsDoneRejected(message) => s.(loading := false, todos := s.todos, error := message)
    case SetAsUndonePending => s.(loading := true)
    case SetAsUndoneFulfilled(todo) => s.(loading := false, todos := ReplaceById(s.todos, todo), error := Some(""))
    case SetAsUndoneRejected(message) => s.(loading := false, todos := s.todos, error := message)
    case PostNewTodoPending => s.(loading := true)
    case PostNewTodoFulfilled(todo) => Created(s, todo)
    case PostNewTodoRejected(message) => s.(loading := false, error := message)
    case FilterTodosPending => s.(loading := true)
    case FilterTodosFulfilled(page) =>
      s.(loading := false, todos := page.content, currentPage := page.number,
         totalPages := page.totalPages, totalElements := page.totalElements, error := Some(""))
    case FilterTodosRejected(message) => s.(loading := false, error := message)
    case UpdateTodoPending => s.(loading := true)
    case UpdateTodoFulfilled(todo) => s.(loading := false, todos := ReplaceById(s.todos, todo), error := Some(""))
    case UpdateTodoRejected(message) => s.(loading := false, error := message)
    case SetCurrentPage(pageNumber) => s.(currentPage := pageNumber)
    case SetFilters(filters) => s.(filtering := filters)
  }

  // ---------------------------------------------------------------------------
  // Properties of the reducer
  // ---------------------------------------------------------------------------

  /** Every pending case raises `loading` and changes nothing else. */
  lemma PendingOnlyRaisesLoading(s: TodosState, action: TodosAction)
    requires action.IsPending()
    ensures TodosReducer(s, action) == s.(loading := true)
  {
  }

  /** A successful fetch or filter takes the rows and counters from the response and clears the error. */
  lemma LoadedTakesResponse(s: TodosState, page: PageResponse)
    ensures var r := TodosReducer(s, FetchTodosFulfilled(page));
      r == TodosReducer(s, FilterTodosFulfilled(page)) &&
      r.todos == page.content && r.currentPage == page.number &&
      r.totalPages == page.totalPages && r.totalElements == page.totalElements &&
      r.error == Some("") && !r.loading && r.filtering == s.filtering
  {
  }

  /** After a successful fetch nothing of the earlier state survives but the staged filter. */
  lemma LoadedForgetsEarlierState(s: TodosState, t: TodosState, page: PageResponse)
    requires s.filtering == t.filtering
    ensures TodosReducer(s, FetchTodosFulfilled(page)) == TodosReducer(t, FetchTodosFulfilled(page))
  {
  }

  /** A failed fetch empties the list and zeroes the counters. */
  lemma FetchRejectedClears(s: TodosState, message: Option<string>)
    ensures var r := TodosReducer(s, FetchTodosRejected(message));
      r.todos == [] && r.currentPage == 0 && r.totalPages == 0 && r.totalElements == 0 &&
      r.error == message && !r.loading && r.filtering == s.filtering
  {
  }

  /** Every other failure changes only `loading` and `error`: the rows and counters stay. */
  lemma KeepingRejectionKeepsRows(s: TodosState, action: TodosAction)
    requires action.IsKeepingRejection()
    ensures TodosReducer(s, action) == s.(loading := false, error := action.message)
  {
  }

  /** The two failure policies differ exactly when there is something to clear. */
  lemma FailurePoliciesDiffer(s: TodosState, message: Option<string>)
    ensures TodosReducer(s, FetchTodosRejected(message)) == TodosReducer(s, FilterTodosRejected(message))
      <==> s.todos == [] && s.currentPage == 0 && s.totalPages == 0 && s.totalElements == 0
  {
  }

  /** An attempt that starts and fails leaves a store that was idle as it was, but for the error. */
  lemma FailedAttemptKeepsState(s: TodosState, pending: TodosAction, rejected: TodosAction)
    requires pending.IsPending() && rejected.IsKeepingRejection() && !s.loading
    ensures TodosReducer(TodosReducer(s, pending), rejected) == s.(error := rejected.message)
  {
  }

  /** Marking done, marking undone and updating all replace the rows carrying the response's id. */
  lemma RowUpdateReplacesById(s: TodosState, action: TodosAction)
    requires action.IsRowUpdate()
    ensures var r := TodosReducer(s, action);
      |r.todos| == |s.todos| &&
      (forall i :: 0 <= i < |s.todos| && s.todos[i].id == action.todo.id ==> r.todos[i] == action.todo) &&
      (forall i :: 0 <= i < |s.todos| && s.todos[i].id != action.todo.id ==> r.todos[i] == s.todos[i]) &&
      Ids(r.todos) == Ids(s.todos) &&
      r.currentPage == s.currentPage && r.totalPages == s.totalPages &&
      r.totalElements == s.totalElements && r.error == Some("") && !r.loading
  {
    ReplaceByIdKeepsIds(s.todos, action.todo);
  }

  /** Toggling a todo done and then undone leaves the row the server returned last. */
  lemma DoneThenUndoneShowsLastResponse(s: TodosState, done: Todo, undone: Todo)
    requires done.id == undone.id
    ensures TodosReducer(TodosReducer(s, SetAsDoneFulfilled(done)), SetAsUndoneFulfilled(undone))
         == TodosReducer(s, SetAsUndoneFulfilled(undone))
  {
    ReplaceByIdLastWins(s.todos, done, undone);
  }

  /** Creation that overflows the pages: one more page, two more elements, rows untouched. */
  lemma CreateOverflowing(s: TodosState, payload: Todo)
    requires s.totalElements >= 0 && s.totalPages >= 0
    requires s.totalElements + 1 > PageSize * s.totalPages
    ensures var r := TodosReducer(s, PostNewTodoFulfilled(payload));
      r.totalPages == s.totalPages + 1 && r.totalElements == s.totalElements + 2 &&
      r.todos == s.todos &&
      r.currentPage == (if OnLastPage(s) then r.totalPages - 1 else s.totalPages - 1) &&
      r.error == Some("") && !r.loading && r.filtering == s.filtering
  {
    OverflowsAsIntegers(s.totalElements, s.totalPages);
  }

  /** Creation that fits: jump to the last page, or append the new row when already there. */
  lemma CreateFitting(s: TodosState, payload: Todo)
    requires s.totalElements >= 0 && s.totalPages >= 0
    requires s.totalElements + 1 <= PageSize * s.totalPages
    ensures var r := TodosReducer(s, PostNewTodoFulfilled(payload));
      r.totalPages == s.totalPages && r.totalElements == s.totalElements + 1 &&
      OnLastPage(r) &&
      (if OnLastPage(s) then r.todos == s.todos + [payload] else r.todos == s.todos) &&
      r.error == Some("") && !r.loading && r.filtering == s.filtering
  {
    OverflowsAsIntegers(s.totalElements, s.totalPages);
  }

  /**
   * The store ends on the last page after a creation, except when the new
   * row opens a new page while the store was elsewhere: then it stops on
   * the page that used to be the last, one before the new row's page.
   */
  lemma CreateLandsOnLastPage(s: TodosState, payload: Todo)
    ensures var r := TodosReducer(s, PostNewTodoFulfilled(payload));
      OnLastPage(r) <==> !(Overflows(s.totalElements, s.totalPages) && !OnLastPage(s))
  {
  }

  /** A new row is added to the visible rows only in the branch that fits on the current last page. */
  lemma CreateShowsRowOnlyWhenFitting(s: TodosState, payload: Todo)
    requires s.totalElements >= 0 && s.totalPages >= 0
    ensures var r := TodosReducer(s, PostNewTodoFulfilled(payload));
      r.todos != s.todos <==> s.totalElements + 1 <= PageSize * s.totalPages && OnLastPage(s)
  {
    OverflowsAsIntegers(s.totalElements, s.totalPages);
    var r := TodosReducer(s, PostNewTodoFulfilled(payload));
    if s.totalElements + 1 <= PageSize * s.totalPages && OnLastPage(s) {
      assert |r.todos| == |s.todos| + 1;
    }
  }

  /**
   * The page never outgrows `PageSize` by a creation, provided the visible
   * rows of the last page are no more than the elements the counters place
   * on it.
   */
  lemma CreateKeepsPageSize(s: TodosState, payload: Todo)
    requires s.totalElements >= 0 && s.totalPages >= 0
    requires |s.todos| <= PageSize
    requires OnLastPage(s) ==> |s.todos| + PageSize * s.currentPage <= s.totalElements
    ensures |TodosReducer(s, PostNewTodoFulfilled(payload)).todos| <= PageSize
  {
    OverflowsAsIntegers(s.totalElements, s.totalPages);
  }

  /**
   * Why `CreateKeepsPageSize` needs its proviso: from a full single page,
   * a first creation moves the cursor to the new page but keeps the ten old
   * rows, and a second creation then appends to them, giving eleven rows.
   */
  lemma CreateTwiceOverfillsPage(row: Todo, first: Todo, second: Todo)
    ensures var s := InitialState.(todos := seq(10, _ => row), totalPages := 1, totalElements := 10);
      var once := TodosReducer(s, PostNewTodoFulfilled(first));
      var twice := TodosReducer(once, PostNewTodoFulfilled(second));
      once.currentPage == 1 && once.totalPages == 2 && once.totalElements == 12 && |once.todos| == 10 &&
      |twice.todos| == 11 && twice.todos[10] == second
  {
    OverflowsAsIntegers(10, 1);
    OverflowsAsIntegers(12, 2);
  }

  /** The first creation in an empty store: the page becomes -1 and two elements are counted. */
  lemma CreateOnEmptyStore(payload: Todo)
    ensures var r := TodosReducer(InitialState, PostNewTodoFulfilled(payload));
      r.currentPage == -1 && r.totalPages == 1 && r.totalElements == 2 && r.todos == []
  {
  }

  /** The setters change only the page cursor and the staged filter respectively. */
  lemma SettersTouchOneField(s: TodosState, pageNumber: int, filters: Option<Filtering>)
    ensures TodosReducer(s, SetCurrentPage(pageNumber)) == s.(currentPage := pageNumber)
    ensures TodosReducer(s, SetFilters(filters)) == s.(filtering := filters)
  {
  }

  // ---------------------------------------------------------------------------
  // The store, updated in place
  // ---------------------------------------------------------------------------

  class TodosStore {
    var loading: bool
    var todos: seq<Todo>
    var currentPage: int
    var totalPages: int
    var totalElements: int
    var filtering: Option<Filtering>
    var error: Option<string>

    function State(): TodosState
      reads this
    {
      TodosState(loading, todos, currentPage, totalPages, totalElements, filtering, error)
    }

    constructor ()
      ensures State() == InitialState
    {
      loading := false;
      todos := [];
      currentPage := 0;
      totalPages := 0;
      totalElements := 0;
      filtering := None;
      error := None;
    }

    method FetchTodosPending()
      modifies this
      ensures State() == TodosReducer(old(State()), TodosAction.FetchTodosPending)
    {
      loading := true;
    }

    method FetchTodosFulfilled(payload: PageResponse)
      modifies this
      ensures State() == TodosReducer(old(State()), TodosAction.FetchTodosFulfilled(payload))
    {
      loading := false;
      todos := payload.content;
      currentPage := payload.number;
      totalPages := payload.totalPages;
      totalElements := payload.totalElements;
      error := Some("");
    }

    method FetchTodosRejected(message: Option<string>)
      modifies this
      ensures State() == TodosReducer(old(State()), TodosAction.FetchTodosRejected(message))
    {
      loading := false;
      todos := [];
      currentPage := 0;
      totalElements := 0;
      totalPages := 0;
      error := message;
    }

    method SetAsDonePending()
      modifies this
      ensures State() == TodosReducer(old(State()), TodosAction.SetAsDonePending)
    {
      loading := true;
    }

    method SetAsDoneFulfilled(payload: Todo)
      modifies this
      ensures State() == TodosReducer(old(State()), TodosAction.SetAsDoneFulfilled(payload))
    {
      loading := false;
      todos := ReplaceById(todos, payload);
      error := Some("");
    }

    method SetAsDoneRejected(message: Option<string>)
      modifies this
      ensures State() == TodosReducer(old(State()), TodosAction.SetAsDoneRejected(message))
    {
      loading := false;
      todos := todos[..];
      error := message;
    }

    method SetAsUndonePending()
      modifies this
      ensures State() == TodosReducer(old(State()), TodosAction.SetAsUndonePending)
    {
      loading := true;
    }

    method SetAsUndoneFulfilled(payload: Todo)
      modifies this
      ensures State() == TodosReducer(old(State()), TodosAction.SetAsUndoneFulfilled(payload))
    {
      loading := false;
      todos := ReplaceById(todos, payload);
      error := Some("");
    }

    method SetAsUndoneRejected(message: Option<string>)
      modifies this
      ensures State() == TodosReducer(old(State()), TodosAction.SetAsUndoneRejected(message))
    {
      loading := false;
      todos := todos[..];
      error := message;
    }

    method PostNewTodoPending()
      modifies this
      ensures State() == TodosReducer(old(State()), TodosAction.PostNewTodoPending)
    {
      loading := true;
    }

    method PostNewTodoFulfilled(payload: Todo)
      modifies this
      ensures State() == TodosReducer(old(State()), TodosAction.PostNewTodoFulfilled(payload))
    {
      loading := false;
      if Overflows(totalElements, totalPages) {
        if currentPage == totalPages - 1 {
          currentPage := currentPage + 1;
        } else {
          currentPage := totalPages - 1;
        }
        totalElements := totalElements + 1;
        totalPages := totalPages + 1;
      } else if currentPage != totalPages - 1 {
        currentPage := totalPages - 1;
      } else {
        todos := todos + [payload];
      }
      totalElements := totalElements + 1;
      error := Some("");
    }

    method PostNewTodoRejected(message: Option<string>)
      modifies this
      ensures State() == TodosReducer(old(State()), TodosAction.PostNewTodoRejected(message))
    {
      loading := false;
      error := message;
    }

    method FilterTodosPending()
      modifies this
      ensures State() == TodosReducer(old(State()), TodosAction.FilterTodosPending)
    {
      loading := true;
    }

    method FilterTodosFulfilled(payload: PageResponse)
      modifies this
      ensures State() == TodosReducer(old(State()), TodosAction.FilterTodosFulfilled(payload))
    {
      loading := false;
      todos := payload.content;
      currentPage := payload.number;
      totalPages := payload.totalPages;
      totalElements := payload.totalElements;
      error := Some("");
    }

    method FilterTodosRejected(message: Option<string>)
      modifies this
      ensures State() == TodosReducer(old(State()), TodosAction.FilterTodosRejected(message))
    {
      loading := false;
      error := message;
    }

    method UpdateTodoPending()
      modifies this
      ensures State() == TodosReducer(old(State()), TodosAction.UpdateTodoPending)
    {
      loading := true;
    }

    method UpdateTodoFulfilled(payload: Todo)
      modifies this
      ensures State() == TodosReducer(old(State()), TodosAction.UpdateTodoFulfilled(payload))
    {
      loading := false;
      todos := ReplaceById(todos, payload);
      error := Some("");
    }

    method UpdateTodoRejected(message: Option<string>)
      modifies this
      ensures State() == TodosReducer(old(State()), TodosAction.UpdateTodoRejected(message))
    {
      loading := false;
      error := message;
    }

    method SetCurrentPage(payload: int)
      modifies this
      ensures State() == TodosReducer(old(State()), TodosAction.SetCurrentPage(payload))
    {
      currentPage := payload;
    }

    method SetFilters(payload: Option<Filtering>)
      modifies this
      ensures State() == TodosReducer(old(State()), TodosAction.SetFilters(payload))
    {
      filtering := payload;
    }
  }
}
