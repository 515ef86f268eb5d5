/** The list-backed todo table (`InMemoryTodoRepository.java`): an ordered list
    of todos and the counter that numbers new ones. */
module TodoRepository {
  import opened Wrappers
  import opened Seqs
  import opened Text
  import opened TodoEntity

  predicate HasId(t: TodoRecord, id: int) {
    t.id == Some(id)
  }

  /** Index of the first stored todo carrying `id`; `|rows|` when there is none. */
  function FirstIndexOf(rows: seq<TodoRecord>, id: int): (k: nat)
    ensures k <= |rows|
    ensures k < |rows| ==> HasId(rows[k], id)
    ensures forall j :: 0 <= j < k ==> !HasId(rows[j], id)
  {
    if rows == [] then 0
    else if HasId(rows[0], id) then 0
    else 1 + FirstIndexOf(rows[1..], id)
  }

  predicate Stored(rows: seq<TodoRecord>, id: int) {
    exists i :: 0 <= i < |rows| && HasId(rows[i], id)
  }

  lemma FirstIndexFound(rows: seq<TodoRecord>, id: int)
    ensures FirstIndexOf(rows, id) < |rows| <==> Stored(rows, id)
  {
  }

  // ---------------------------------------------------------------------
  // findAll(status, text, priority)
  // ---------------------------------------------------------------------

  /** A non-null status selects done todos when it is "done" and open ones otherwise. */
  predicate StatusMatches(status: Option<string>, t: TodoRecord) {
    status.None? || t.done == (status.value == "done")
  }

  /** Case-insensitive substring search in the todo's text. */
  predicate TextMatches(text: Option<string>, t: TodoRecord) {
    text.None? || (t.text.Some? && Contains(Lower(t.text.value), Lower(text.value)))
  }

  predicate PriorityMatches(priority: Option<Priority>, t: TodoRecord) {
    priority.None? || t.priority == priority
  }

  predicate Matches(status: Option<string>, text: Option<string>, priority: Option<Priority>, t: TodoRecord) {
    StatusMatches(status, t) && TextMatches(text, t) && PriorityMatches(priority, t)
  }

  /** The text filter reads the text of every todo the status filter lets
      through; Java throws `NullPointerException` if one of them has none. */
  predicate TextFilterSafe(rows: seq<TodoRecord>, status: Option<string>, text: Option<string>) {
    text.Some? ==> forall i :: 0 <= i < |rows| && StatusMatches(status, rows[i]) ==> rows[i].text.Some?
  }

  /** `findAll(status, text, priority)`: the matching todos, in stored order, each as often as stored. */
  function FilterRows(rows: seq<TodoRecord>, status: Option<string>, text: Option<string>,
                      priority: Option<Priority>): (r: seq<TodoRecord>)
    requires TextFilterSafe(rows, status, text)
    ensures IsSubsequence(r, rows)
    ensures forall i :: 0 <= i < |r| ==> Matches(status, text, priority, r[i])
    ensures forall x :: multiset(r)[x] == if Matches(status, text, priority, x) then multiset(rows)[x] else 0
    ensures status.None? && text.None? && priority.None? ==> r == rows
  {
    var r := Filter(rows, t => Matches(status, text, priority, t));
    FilterCounts(rows, t => Matches(status, text, priority, t));
    assert status.None? && text.None? && priority.None? ==> r == rows by {
      if status.None? && text.None? && priority.None? {
        FilterKeepsAll(rows, t => Matches(status, text, priority, t));
      }
    }
    r
  }

  // ---------------------------------------------------------------------
  // save, deleteById
  // ---------------------------------------------------------------------

  datatype SaveOutcome = SaveOutcome(rows: seq<TodoRecord>, nextId: int, saved: TodoRecord)

  /** `save`: a todo without an id is numbered with the counter and appended;
      one whose id is stored replaces the first todo with that id; one with an
      unknown id is appended as it is. */
  function SaveInto(rows: seq<TodoRecord>, nextId: int, t: TodoRecord): (o: SaveOutcome)
    ensures o.saved.(id := t.id) == t
    ensures t.id.None? ==>
              o.saved.id == Some(nextId) && o.nextId == nextId + 1 && o.rows == rows + [o.saved]
    ensures t.id.Some? ==> o.saved == t && o.nextId == nextId
    ensures t.id.Some? && Stored(rows, t.id.value) ==>
              var k := FirstIndexOf(rows, t.id.value);
              |o.rows| == |rows| && o.rows[k] == t
              && forall j :: 0 <= j < |rows| && j != k ==> o.rows[j] == rows[j]
    ensures t.id.Some? && !Stored(rows, t.id.value) ==> o.rows == rows + [t]
  {
    if t.id.None? then
      var s := t.(id := Some(nextId));
      SaveOutcome(rows + [s], nextId + 1, s)
    else
      var k := FirstIndexOf(rows, t.id.value);
      if k < |rows| then SaveOutcome(rows[k := t], nextId, t)
      else SaveOutcome(rows + [t], nextId, t)
  }

  /** `deleteById`: every todo with the id goes, the rest keep their order. */
  function RemoveId(rows: seq<TodoRecord>, id: int): (r: seq<TodoRecord>)
    ensures IsSubsequence(r, rows)
    ensures !Stored(r, id)
    ensures forall x :: !HasId(x, id) ==> multiset(r)[x] == multiset(rows)[x]
    ensures !Stored(rows, id) ==> r == rows
  {
    var r := Filter(rows, t => !HasId(t, id));
    FilterCounts(rows, t => !HasId(t, id));
    assert !Stored(rows, id) ==> r == rows by {
      if !Stored(rows, id) {
        FilterKeepsAll(rows, t => !HasId(t, id));
      }
    }
    r
  }

  // ---------------------------------------------------------------------
  // Numbering
  // ---------------------------------------------------------------------

  /** Every stored id is distinct and was handed out by the counter. */
  ghost predicate WellNumbered(rows: seq<TodoRecord>, nextId: int) {
    1 <= nextId
    && (forall i :: 0 <= i < |rows| ==> rows[i].id.Some? && 1 <= rows[i].id.value < nextId)
    && (forall i, j :: 0 <= i < j < |rows| ==> rows[i].id != rows[j].id)
  }

  /** Ids the counter hands out are fresh and larger than every stored one, and
      replacing a stored todo keeps the numbering; so does appending a todo with
      an explicit id below the counter. */
  lemma SaveKeepsNumbering(rows: seq<TodoRecord>, nextId: int, t: TodoRecord)
    requires WellNumbered(rows, nextId)
    requires t.id.Some? ==> Stored(rows, t.id.value) || 1 <= t.id.value < nextId
    ensures var o := SaveInto(rows, nextId, t);
            WellNumbered(o.rows, o.nextId)
            && (t.id.None? ==> forall i :: 0 <= i < |rows| ==> rows[i].id.value < o.saved.id.value)
  {
    var o := SaveInto(rows, nextId, t);
    if t.id.Some? && Stored(rows, t.id.value) {
      var k := FirstIndexOf(rows, t.id.value);
      forall i, j | 0 <= i < j < |o.rows| ensures o.rows[i].id != o.rows[j].id {
        if i == k { assert o.rows[j] == rows[j]; }
        else if j == k { assert o.rows[i] == rows[i]; }
        else { assert o.rows[i] == rows[i] && o.rows[j] == rows[j]; }
      }
    } else if t.id.Some? {
      assert o.rows == rows + [t];
      forall i | 0 <= i < |o.rows|
        ensures o.rows[i].id.Some? && 1 <= o.rows[i].id.value < o.nextId
      {
        if i < |rows| { assert o.rows[i] == rows[i]; }
      }
      forall i, j | 0 <= i < j < |o.rows| ensures o.rows[i].id != o.rows[j].id {
        if j == |rows| {
          assert o.rows[i] == rows[i];
          assert !HasId(rows[i], t.id.value);
        }
      }
    } else {
      forall i | 0 <= i < |o.rows|
        ensures o.rows[i].id.Some? && 1 <= o.rows[i].id.value < o.nextId
      {
        if i < |rows| { assert o.rows[i] == rows[i]; }
      }
    }
  }

  /** An explicit id the counter has not reached yet is appended without moving
      the counter, so the next numbered todo gets the same id. */
  lemma ExplicitIdIsReissued(t: TodoRecord, u: TodoRecord)
    requires t.id == Some(1) && u.id.None?
    ensures var first := SaveInto([], 1, t);
            var second := SaveInto(first.rows, first.nextId, u);
            |second.rows| == 2 && second.rows[0].id == second.rows[1].id == Some(1)
  {
  }

  /** The table object. */
  class InMemoryTodoRepository {
    var todos: seq<TodoRecord>
    var nextId: int

    /** Every stored todo has an id (Java compares ids with `equals` on the stored side). */
    ghost predicate Valid()
      reads this
    {
      nextId >= 1 && forall i :: 0 <= i < |todos| ==> todos[i].id.Some?
    }

    constructor ()
      ensures Valid() && todos == [] && nextId == 1
      ensures WellNumbered(todos, nextId)
    {
      todos := [];
      nextId := 1;
    }

    /** `findAll()`: a copy of the stored list. */
    method FindAll() returns (r: seq<TodoRecord>)
      ensures r == todos
    {
      r := todos;
    }

    method FindAllMatching(status: Option<string>, text: Option<string>, priority: Option<Priority>)
      returns (r: seq<TodoRecord>)
      requires TextFilterSafe(todos, status, text)
      ensures r == FilterRows(todos, status, text, priority)
    {
      r := FilterRows(todos, status, text, priority);
    }

    /** `findById`: the first stored todo with the id. */
    method FindById(id: int) returns (r: Option<TodoRecord>)
      requires Valid()
      ensures r.Some? <==> Stored(todos, id)
      ensures r.Some? ==> r.value == todos[FirstIndexOf(todos, id)]
    {
      var k := FirstIndexOf(todos, id);
      r := if k < |todos| then Some(todos[k]) else None;
    }

    method ExistsById(id: int) returns (b: bool)
      requires Valid()
      ensures b <==> Stored(todos, id)
    {
      b := FirstIndexOf(todos, id) < |todos|;
    }

    method Save(t: TodoRecord) returns (saved: TodoRecord)
      requires Valid()
      modifies this
      ensures Valid()
      ensures SaveOutcome(todos, nextId, saved) == SaveInto(old(todos), old(nextId), t)
    {
      if t.id.None? {
        saved := t.(id := Some(nextId));
        nextId := nextId + 1;
        todos := todos + [saved];
      } else {
        var index := -1;
        var i := 0;
        while i < |todos|
          invariant 0 <= i <= |todos|
          invariant index == -1
          invariant forall j :: 0 <= j < i ==> !HasId(todos[j], t.id.value)
        {
          if HasId(todos[i], t.id.value) {
            index := i;
            break;
          }
          i := i + 1;
        }
        assert index != -1 ==> index == FirstIndexOf(todos, t.id.value);
        assert index == -1 ==> !Stored(todos, t.id.value);
        if index != -1 {
          todos := todos[index := t];
        } else {
          todos := todos + [t];
        }
        saved := t;
      }
    }

    method DeleteById(id: int)
      requires Valid()
      modifies this
      ensures Valid()
      ensures todos == RemoveId(old(todos), id) && nextId == old(nextId)
    {
      todos := RemoveId(todos, id);
    }
  }
}
