/** The backend's todo entity (`Todo.java`): its fields, its constructors and
    its guarded setters. Times (`LocalDateTime`) are points on an integer time
    line; the clock reading `LocalDateTime.now()` is passed in as `now`. */
module TodoEntity {
  import opened Wrappers
  import opened Text

  /** `Todo.Priority`, declared in the Java order. */
  datatype Priority = HIGH | MEDIUM | LOW

  type DateTime = int

  /** The longest text `setText` accepts. */
  const MaxTextLength: nat := 120

  /** The field values of one todo object; `None` stands for Java's `null`. */
  datatype TodoRecord = TodoRecord(
    id: Option<int>,
    text: Option<string>,
    dueDate: Option<DateTime>,
    done: bool,
    doneDate: Option<DateTime>,
    priority: Option<Priority>,
    creationDate: DateTime)

  /** The invariant `setDone` keeps: a completion time is recorded exactly for done todos. */
  predicate DoneDateConsistent(r: TodoRecord) {
    r.doneDate.Some? <==> r.done
  }

  /** `text != null && text.length() <= 120`, the length counted in UTF-16 units. */
  predicate AcceptableText(text: Option<string>) {
    text.Some? && Utf16Length(text.value) <= MaxTextLength
  }

  /** Sixty-one characters beyond U+FFFF already exceed the limit, while 120
      letters do not. */
  lemma SupplementaryCharactersCountTwice()
    ensures !AcceptableText(Some(seq(61, _ => '\U{1F600}')))
    ensures AcceptableText(Some(seq(120, _ => 'a')))
  {
    var wide: string := seq(61, _ => '\U{1F600}');
    assert forall i :: 0 <= i < |wide| ==> wide[i] as int >= 0x10000;
    var plain: string := seq(120, _ => 'a');
    assert forall i :: 0 <= i < |plain| ==> plain[i] as int < 0x10000;
  }

  /** The state every constructor leaves behind. */
  function Created(id: Option<int>, text: Option<string>, priority: Option<Priority>,
                   dueDate: Option<DateTime>, now: DateTime): (r: TodoRecord)
    ensures !r.done && r.doneDate.None? && DoneDateConsistent(r)
    ensures r.creationDate == now
    ensures r.id == id && r.text == text && r.priority == priority && r.dueDate == dueDate
  {
    TodoRecord(id, text, dueDate, false, None, priority, now)
  }

  /** `setText`: `None` means the setter threw; the record is then left as it was. */
  function SetTextOn(r: TodoRecord, text: Option<string>): (res: Option<TodoRecord>)
    ensures res.Some? <==> AcceptableText(text)
    ensures res.Some? ==> res.value.text == text && res.value.(text := r.text) == r
  {
    if text.Some? && Utf16Length(text.value) <= MaxTextLength then Some(r.(text := text)) else None
  }

  /** `setPriority`: `None` means the setter threw on a null priority. */
  function SetPriorityOn(r: TodoRecord, priority: Option<Priority>): (res: Option<TodoRecord>)
    ensures res.Some? <==> priority.Some?
    ensures res.Some? ==> res.value.priority == priority && res.value.(priority := r.priority) == r
  {
    if priority.None? then None else Some(r.(priority := priority))
  }

  /** `setDueDate` takes any value, null included. */
  function SetDueDateOn(r: TodoRecord, dueDate: Option<DateTime>): (res: TodoRecord)
    ensures res.dueDate == dueDate && res.(dueDate := r.dueDate) == r
  {
    r.(dueDate := dueDate)
  }

  /** `setDone`: completion stamps the current time, reopening clears it. */
  function SetDoneOn(r: TodoRecord, done: bool, now: DateTime): (res: TodoRecord)
    ensures res.done == done && DoneDateConsistent(res)
    ensures done ==> res.doneDate == Some(now)
    ensures res.(done := r.done, doneDate := r.doneDate) == r
  {
    r.(done := done, doneDate := if done then Some(now) else None)
  }

  /** Setting the same status twice stamps the second call's time and nothing else. */
  lemma SetDoneTwice(r: TodoRecord, done: bool, t1: DateTime, t2: DateTime)
    ensures SetDoneOn(SetDoneOn(r, done, t1), done, t2) == SetDoneOn(r, done, t2)
  {
  }

  /** Reopening undoes completion on records that satisfy the invariant and were open. */
  lemma DoneThenUndone(r: TodoRecord, now: DateTime)
    requires DoneDateConsistent(r) && !r.done
    ensures SetDoneOn(SetDoneOn(r, true, now), false, now) == r
  {
  }

  /** A todo object. Its fields are private in Java and only changed through
      the constructors and setters below, so `Valid` holds of every object. */
  class Todo {
    var id: Option<int>
    var text: Option<string>
    var dueDate: Option<DateTime>
    var done: bool
    var doneDate: Option<DateTime>
    var priority: Option<Priority>
    var creationDate: DateTime

    function Record(): TodoRecord
      reads this
    {
      TodoRecord(id, text, dueDate, done, doneDate, priority, creationDate)
    }

    ghost predicate Valid()
      reads this
    {
      DoneDateConsistent(Record())
    }

    /** `Todo()`. */
    constructor Empty(now: DateTime)
      ensures Valid()
      ensures Record() == Created(None, None, None, None, now)
    {
      id, text, dueDate, priority := None, None, None, None;
      done, doneDate, creationDate := false, None, now;
    }

    /** `Todo(text, priority, dueDate)`, the constructor JSON bodies are read with. */
    constructor FromJson(text: Option<string>, priority: Option<Priority>,
                         dueDate: Option<DateTime>, now: DateTime)
      ensures Valid()
      ensures Record() == Created(None, text, priority, dueDate, now)
    {
      this.id := None;
      this.text, this.priority, this.dueDate := text, priority, dueDate;
      this.done, this.doneDate, this.creationDate := false, None, now;
    }

    /** `Todo(id, text, priority, dueDate)`. */
    constructor WithDueDate(id: Option<int>, text: Option<string>, priority: Option<Priority>,
                            dueDate: Option<DateTime>, now: DateTime)
      ensures Valid()
      ensures Record() == Created(id, text, priority, dueDate, now)
    {
      this.id := id;
      this.text, this.priority, this.dueDate := text, priority, dueDate;
      this.done, this.doneDate, this.creationDate := false, None, now;
    }

    /** `Todo(id, text, priority)`, which delegates with a null due date. */
    constructor WithoutDueDate(id: Option<int>, text: Option<string>, priority: Option<Priority>,
                               now: DateTime)
      ensures Valid()
      ensures Record() == Created(id, text, priority, None, now)
    {
      this.id := id;
      this.text, this.priority, this.dueDate := text, priority, None;
      this.done, this.doneDate, this.creationDate := false, None, now;
    }

    method SetId(id: Option<int>)
      requires Valid()
      modifies this
      ensures Valid()
      ensures Record() == old(Record()).(id := id)
    {
      this.id := id;
    }

    /** Returns false where Java throws `IllegalArgumentException`. */
    method SetText(text: Option<string>) returns (ok: bool)
      requires Valid()
      modifies this
      ensures Valid()
      ensures ok <==> AcceptableText(text)
      ensures Record() == SetTextOn(old(Record()), text).GetOr(old(Record()))
    {
      if text.Some? && Utf16Length(text.value) <= MaxTextLength {
        this.text := text;
        ok := true;
      } else {
        ok := false;
      }
    }

    method SetDueDate(dueDate: Option<DateTime>)
      requires Valid()
      modifies this
      ensures Valid()
      ensures Record() == SetDueDateOn(old(Record()), dueDate)
    {
      this.dueDate := dueDate;
    }

    method SetDone(done: bool, now: DateTime)
      requires Valid()
      modifies this
      ensures Valid()
      ensures Record() == SetDoneOn(old(Record()), done, now)
    {
      this.done := done;
      if done {
        this.doneDate := Some(now);
      } else {
        this.doneDate := None;
      }
    }

    /** Returns false where Java throws `IllegalArgumentException`. */
    method SetPriority(priority: Option<Priority>) returns (ok: bool)
      requires Valid()
      modifies this
      ensures Valid()
      ensures ok <==> priority.Some?
      ensures Record() == SetPriorityOn(old(Record()), priority).GetOr(old(Record()))
    {
      if priority.None? {
        ok := false;
      } else {
        this.priority := priority;
        ok := true;
      }
    }
  }
}
