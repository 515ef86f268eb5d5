/** The frontend's data shapes (`types.ts`): the todo as the client receives
    it, the filter, sort and pagination state, and the metrics snapshot.
    Times the client works with are integer milliseconds since the epoch. */
module ViewTypes {
  import opened Wrappers
  import opened TodoEntity

  type Millis = int

  /** The spelling of a priority on the wire and as a metrics key. */
  function PriorityName(p: Priority): (s: string)
    ensures s == "LOW" || s == "MEDIUM" || s == "HIGH"
  {
    match p
    case LOW => "LOW"
    case MEDIUM => "MEDIUM"
    case HIGH => "HIGH"
  }

  lemma PriorityNameInjective(p: Priority, q: Priority)
    ensures PriorityName(p) == PriorityName(q) ==> p == q
  {
  }

  /** A todo as the client holds it; `creationDate` and `doneDate` are the
      instants the backend reported, already read as times. */
  datatype TodoView = TodoView(
    id: int,
    text: string,
    dueDate: Option<string>,
    done: bool,
    doneDate: Option<Millis>,
    priority: Priority,
    creationDate: Millis)

  datatype PriorityChoice = AllPriorities | OnlyPriority(p: Priority)

  datatype StatusChoice = AllStatuses | DoneOnly | UndoneOnly

  /** `TodoFilters`. */
  datatype Filters = Filters(text: string, priority: PriorityChoice, status: StatusChoice)

  /** `Partial<TodoFilters>`: a `None` field is left out of the object. */
  datatype FiltersUpdate = FiltersUpdate(text: Option<string>, priority: Option<PriorityChoice>,
                                         status: Option<StatusChoice>)

  /** `PaginationState`. */
  datatype Pagination = Pagination(pageSize: int, currentPage: int, totalItems: int)

  /** `Partial<PaginationState>` as the query builder reads it. */
  datatype PaginationPart = PaginationPart(pageSize: Option<int>, currentPage: Option<int>)

  /** `TodoMetrics`: minutes, rounded; the per-priority averages are keyed by name. */
  datatype Metrics = Metrics(averageTime: int, byPriority: map<string, int>)

  /** The page the backend answers a listing with. */
  datatype PageView = PageView(data: seq<TodoView>, totalItems: int)
}
