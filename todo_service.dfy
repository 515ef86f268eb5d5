/** The service layer (`TodoService.java`): listing with filters, sorting and
    pages, and the create, update, complete, reopen and delete operations on
    top of the repository, with the exceptions they throw. */
module Service {
  import opened Wrappers
  import opened Seqs
  import opened Text
  import opened TodoEntity
  import opened TodoRepository
  import opened TodoQuery

  /** The request parameter defaults of `TodoController.getAllTodos`. */
  const DefaultPage: int := 0
  const DefaultSize: int := 10

  datatype PageResponse = PageResponse(data: seq<TodoRecord>, totalItems: int)

  /** What every stored todo satisfies once it went through the service. */
  predicate Storable(t: TodoRecord) {
    t.id.Some? && AcceptableText(t.text) && t.priority.Some? && DoneDateConsistent(t)
  }

  // ---------------------------------------------------------------------
  // getAllTodos
  // ---------------------------------------------------------------------

  /** The filtered todos, sorted by the parsed criteria, cut to one page;
      the total counts every filtered todo. */
  function ListTodos(rows: seq<TodoRecord>, page: int, size: int, sortBy: Option<string>,
                     status: Option<string>, text: Option<string>, priority: Option<Priority>)
    : (r: Result<PageResponse, ServiceError>)
    requires TextFilterSafe(rows, status, text)
    ensures r.Err? <==> page * size < 0 || size < 0
    ensures page * size < 0 ==> r == Err(NegativeSkip(page * size))
    ensures r.Ok? ==>
              var filtered := FilterRows(rows, status, text, priority);
              r.value.totalItems == |filtered| && |r.value.data| <= size
              && (forall i :: 0 <= i < |r.value.data| ==> Matches(status, text, priority, r.value.data[i]))
              && multiset(r.value.data) <= multiset(filtered)
    ensures r.Ok? ==>
              var filtered := FilterRows(rows, status, text, priority);
              var sorted := Sort(ParseSortBy(sortBy), filtered);
              var n := page * size;
              |r.value.data| == Min(size, if n <= |filtered| then |filtered| - n else 0)
              && (forall i :: 0 <= i < |r.value.data| ==> r.value.data[i] == sorted[n + i])
              && SortedBy(ParseSortBy(sortBy), r.value.data)
  {
    var filtered := FilterRows(rows, status, text, priority);
    var sorted := Sort(ParseSortBy(sortBy), filtered);
    match Slice(sorted, page * size, size)
    case Err(e) => Err(e)
    case Ok(data) =>
      SliceIsSubMultiset(sorted, page * size, size);
      WindowKeepsOrder(ParseSortBy(sortBy), sorted, page * size, size);
      assert forall i :: 0 <= i < |data| ==> Matches(status, text, priority, data[i]) by {
        forall i | 0 <= i < |data| ensures Matches(status, text, priority, data[i]) {
          assert data[i] in multiset(filtered);
        }
      }
      Ok(PageResponse(data, |filtered|))
  }

  lemma SliceIsSubMultiset(s: seq<TodoRecord>, n: int, m: int)
    requires Slice(s, n, m).Ok?
    ensures multiset(Slice(s, n, m).value) <= multiset(s)
  {
    var from := Min(n, |s|);
    var to := Min(from + m, |s|);
    assert s == s[..from] + s[from..to] + s[to..];
  }

  /** A page cut from a sorted list is itself sorted. */
  lemma WindowKeepsOrder(cs: seq<SortCriterion>, s: seq<TodoRecord>, n: int, m: int)
    requires AdjacentSortedBy(cs, s) && Slice(s, n, m).Ok?
    ensures SortedBy(cs, Slice(s, n, m).value)
  {
    var w := Slice(s, n, m).value;
    assert AdjacentSortedBy(cs, w) by {
      forall i | 0 <= i < |w| - 1 ensures Compare(cs, w[i], w[i + 1]) <= 0 {
        assert w[i] == s[n + i] && w[i + 1] == s[n + i + 1];
      }
    }
    AdjacentSortedIsSorted(cs, w);
  }

  /** The page of a request without parameters is the first ten todos in
      stored order, and the total is the number of stored todos. */
  lemma DefaultRequestIsFirstTen(rows: seq<TodoRecord>)
    ensures ListTodos(rows, DefaultPage, DefaultSize, None, None, None, None)
            == Ok(PageResponse(rows[..Min(10, |rows|)], |rows|))
  {
    NoCriteriaKeepsOrder(rows);
  }

  /** The total does not depend on the page asked for. */
  lemma TotalIgnoresPaging(rows: seq<TodoRecord>, p1: int, s1: int, p2: int, s2: int, sortBy1: Option<string>,
                           sortBy2: Option<string>, status: Option<string>, text: Option<string>,
                           priority: Option<Priority>)
    requires TextFilterSafe(rows, status, text)
    requires ListTodos(rows, p1, s1, sortBy1, status, text, priority).Ok?
    requires ListTodos(rows, p2, s2, sortBy2, status, text, priority).Ok?
    ensures ListTodos(rows, p1, s1, sortBy1, status, text, priority).value.totalItems
            == ListTodos(rows, p2, s2, sortBy2, status, text, priority).value.totalItems
  {
  }

  // ---------------------------------------------------------------------
  // createTodo, updateTodo, markAsDone / markAsUndone
  // ---------------------------------------------------------------------

  /** The checks `createTodo` makes before saving, in their order. */
  function CreateCheck(t: TodoRecord): (e: Option<ServiceError>)
    ensures e.None? <==> AcceptableText(t.text) && t.priority.Some?
  {
    if t.text.None? then Some(TextMissing)
    else if Utf16Length(t.text.value) > MaxTextLength then Some(TextTooLong)
    else if t.priority.None? then Some(PriorityMissing)
    else None
  }

  /** `updateTodo` on the stored todo: a non-null text and a non-null priority
      replace the old ones, the due date is always overwritten (null included). */
  function ApplyUpdate(stored: TodoRecord, upd: TodoRecord): (r: Result<TodoRecord, ServiceError>)
    ensures r.Err? <==> upd.text.Some? && Utf16Length(upd.text.value) > MaxTextLength
    ensures r.Err? ==> r.error == TextRejected
    ensures r.Ok? ==>
              r.value.text == (if upd.text.Some? then upd.text else stored.text)
              && r.value.priority == (if upd.priority.Some? then upd.priority else stored.priority)
              && r.value.dueDate == upd.dueDate
              && r.value.(text := stored.text, priority := stored.priority, dueDate := stored.dueDate) == stored
  {
    var afterText := if upd.text.Some? then SetTextOn(stored, upd.text) else Some(stored);
    match afterText
    case None => Err(TextRejected)
    case Some(t1) =>
      var t2 := if upd.priority.Some? then SetPriorityOn(t1, upd.priority).value else t1;
      Ok(SetDueDateOn(t2, upd.dueDate))
  }

  datatype Marked = Marked(rows: seq<TodoRecord>, todo: TodoRecord)

  /** `markAsDone` (`done` true) and `markAsUndone` (`done` false): a todo
      already in the wanted state is returned untouched and not saved again. */
  function MarkOn(rows: seq<TodoRecord>, id: int, done: bool, now: DateTime): (r: Result<Marked, ServiceError>)
    ensures r.Err? <==> !Stored(rows, id)
    ensures r.Err? ==> r.error == NotFound(id)
    ensures r.Ok? ==>
              var k := FirstIndexOf(rows, id);
              r.value.todo.done == done && r.value.todo.id == Some(id)
              && |r.value.rows| == |rows| && r.value.rows[k] == r.value.todo
              && (forall j :: 0 <= j < |rows| && j != k ==> r.value.rows[j] == rows[j])
              && (rows[k].done == done ==> r.value.todo == rows[k])
              && (rows[k].done != done ==> r.value.todo == SetDoneOn(rows[k], done, now))
  {
    var k := FirstIndexOf(rows, id);
    if k == |rows| then Err(NotFound(id))
    else if rows[k].done == done then Ok(Marked(rows, rows[k]))
    else
      var t := SetDoneOn(rows[k], done, now);
      Ok(Marked(rows[k := t], t))
  }

  lemma FirstIndexAfterReplace(rows: seq<TodoRecord>, id: int, t: TodoRecord)
    requires Stored(rows, id) && t.id == Some(id)
    ensures FirstIndexOf(rows[FirstIndexOf(rows, id) := t], id) == FirstIndexOf(rows, id)
  {
    var k := FirstIndexOf(rows, id);
    var k' := FirstIndexOf(rows[k := t], id);
    assert HasId(rows[k := t][k], id);
    assert k' <= k;
  }

  /** Marking twice with the same status changes nothing the second time. */
  lemma {:induction false} MarkIsIdempotent(rows: seq<TodoRecord>, id: int, done: bool, t1: DateTime, t2: DateTime)
    requires MarkOn(rows, id, done, t1).Ok?
    ensures var m := MarkOn(rows, id, done, t1).value;
            MarkOn(m.rows, id, done, t2) == Ok(m)
  {
    var m := MarkOn(rows, id, done, t1).value;
    var k := FirstIndexOf(rows, id);
    if rows[k].done != done {
      FirstIndexAfterReplace(rows, id, m.todo);
    }
    assert Stored(m.rows, id) by { assert HasId(m.rows[k], id); }
  }

  /** Completing an open todo and reopening it restores the stored list. */
  lemma {:induction false} DoneThenUndoneRestores(rows: seq<TodoRecord>, id: int, t1: DateTime, t2: DateTime)
    requires Stored(rows, id)
    requires !rows[FirstIndexOf(rows, id)].done && DoneDateConsistent(rows[FirstIndexOf(rows, id)])
    ensures var m := MarkOn(rows, id, true, t1).value;
            MarkOn(m.rows, id, false, t2) == Ok(Marked(rows, rows[FirstIndexOf(rows, id)]))
  {
    var k := FirstIndexOf(rows, id);
    var m := MarkOn(rows, id, true, t1).value;
    FirstIndexAfterReplace(rows, id, m.todo);
    assert Stored(m.rows, id) by { assert HasId(m.rows[k], id); }
    DoneThenUndone(rows[k], t1);
    assert m.rows[k := rows[k]] == rows;
  }

  // ---------------------------------------------------------------------
  // The service object
  // ---------------------------------------------------------------------

  class TodoService {
    const repo: InMemoryTodoRepository

    /** Every stored todo has an id, an acceptable text, a priority and a
        completion time exactly when done. */
    ghost predicate Valid()
      reads this, repo
    {
      repo.Valid() && forall i :: 0 <= i < |repo.todos| ==> Storable(repo.todos[i])
    }

    constructor (repo: InMemoryTodoRepository)
      requires repo.Valid() && forall i :: 0 <= i < |repo.todos| ==> Storable(repo.todos[i])
      ensures this.repo == repo && Valid()
    {
      this.repo := repo;
    }

    method GetAllTodos(page: int, size: int, sortBy: Option<string>, status: Option<string>,
                       text: Option<string>, priority: Option<Priority>)
      returns (r: Result<PageResponse, ServiceError>)
      requires Valid()
      ensures r == ListTodos(repo.todos, page, size, sortBy, status, text, priority)
    {
      var filtered := repo.FindAllMatching(status, text, priority);
      var total := |filtered|;
      var criteria := ParseSortBy(sortBy);
      var sorted := Sort(criteria, filtered);
      var cut := Slice(sorted, page * size, size);
      match cut {
        case Err(e) => r := Err(e);
        case Ok(data) => r := Ok(PageResponse(data, total));
      }
    }

    method CreateTodo(t: TodoRecord) returns (r: Result<TodoRecord, ServiceError>)
      requires Valid() && DoneDateConsistent(t)
      modifies repo
      ensures Valid()
      ensures r.Err? <==> CreateCheck(t).Some?
      ensures r.Err? ==> r.error == CreateCheck(t).value
                         && repo.todos == old(repo.todos) && repo.nextId == old(repo.nextId)
      ensures r.Ok? ==> SaveOutcome(repo.todos, repo.nextId, r.value)
                        == SaveInto(old(repo.todos), old(repo.nextId), t)
    {
      var check := CreateCheck(t);
      if check.Some? {
        r := Err(check.value);
        return;
      }
      var saved := repo.Save(t);
      r := Ok(saved);
      assert forall i :: 0 <= i < |repo.todos| ==> repo.todos[i] == saved || repo.todos[i] in old(repo.todos);
    }

    method UpdateTodo(id: int, upd: TodoRecord) returns (r: Result<TodoRecord, ServiceError>)
      requires Valid()
      modifies repo
      ensures Valid()
      ensures repo.nextId == old(repo.nextId)
      ensures !Stored(old(repo.todos), id) ==> r == Err(NotFound(id)) && repo.todos == old(repo.todos)
      ensures Stored(old(repo.todos), id) ==>
                var k := FirstIndexOf(old(repo.todos), id);
                r == ApplyUpdate(old(repo.todos)[k], upd)
                && repo.todos == (if r.Ok? then old(repo.todos)[k := r.value] else old(repo.todos))
    {
      var found := repo.FindById(id);
      if found.None? {
        r := Err(NotFound(id));
        return;
      }
      r := ApplyUpdate(found.value, upd);
      if r.Ok? {
        ghost var k := FirstIndexOf(repo.todos, id);
        assert Storable(repo.todos[k]);
        var saved := repo.Save(r.value);
        assert repo.todos == old(repo.todos)[k := r.value];
        r := Ok(saved);
      }
    }

    method MarkAsDone(id: int, now: DateTime) returns (r: Result<TodoRecord, ServiceError>)
      requires Valid()
      modifies repo
      ensures Valid() && repo.nextId == old(repo.nextId)
      ensures match MarkOn(old(repo.todos), id, true, now)
              case Err(e) => r == Err(e) && repo.todos == old(repo.todos)
              case Ok(m) => r == Ok(m.todo) && repo.todos == m.rows
    {
      r := Mark(id, true, now);
    }

    method MarkAsUndone(id: int, now: DateTime) returns (r: Result<TodoRecord, ServiceError>)
      requires Valid()
      modifies repo
      ensures Valid() && repo.nextId == old(repo.nextId)
      ensures match MarkOn(old(repo.todos), id, false, now)
              case Err(e) => r == Err(e) && repo.todos == old(repo.todos)
              case Ok(m) => r == Ok(m.todo) && repo.todos == m.rows
    {
      r := Mark(id, false, now);
    }

    /** The shared body of `markAsDone` and `markAsUndone`. */
    method Mark(id: int, done: bool, now: DateTime) returns (r: Result<TodoRecord, ServiceError>)
      requires Valid()
      modifies repo
      ensures Valid() && repo.nextId == old(repo.nextId)
      ensures match MarkOn(old(repo.todos), id, done, now)
              case Err(e) => r == Err(e) && repo.todos == old(repo.todos)
              case Ok(m) => r == Ok(m.todo) && repo.todos == m.rows
    {
      var found := repo.FindById(id);
      if found.None? {
        r := Err(NotFound(id));
        return;
      }
      var t := found.value;
      if t.done == done {
        r := Ok(t);
        return;
      }
      ghost var k := FirstIndexOf(repo.todos, id);
      assert Storable(repo.todos[k]);
      var saved := repo.Save(SetDoneOn(t, done, now));
      r := Ok(saved);
    }

    method DeleteTodo(id: int) returns (failure: Option<ServiceError>)
      requires Valid()
      modifies repo
      ensures Valid() && repo.nextId == old(repo.nextId)
      ensures failure.Some? <==> !Stored(old(repo.todos), id)
      ensures failure.Some? ==> failure.value == NotFound(id) && repo.todos == old(repo.todos)
      ensures failure.None? ==> repo.todos == RemoveId(old(repo.todos), id)
    {
      var exists_ := repo.ExistsById(id);
      if !exists_ {
        failure := Some(NotFound(id));
        return;
      }
      ghost var before := repo.todos;
      repo.DeleteById(id);
      failure := None;
      forall i | 0 <= i < |repo.todos| ensures Storable(repo.todos[i]) {
        var x := repo.todos[i];
        assert x in multiset(repo.todos);
        assert !HasId(x, id) by { assert !Stored(repo.todos, id); }
        assert x in multiset(before);
      }
    }
  }
}
