/** The list view's sort header and pager (`TodoList.tsx`): clicking a column
    cycles its direction and sends the combined sort string; Previous, Next
    and the numbered links pick the page to show. */
module TodoListView {
  import opened Wrappers
  import opened Text

  // ---------------------------------------------------------------------
  // handleSort
  // ---------------------------------------------------------------------

  datatype Direction = Asc | Dsc

  datatype SortField = PriorityField | DueDateField

  /** `SortState`: a `None` direction is the `null` of the source. */
  datatype SortState = SortState(priority: Option<Direction>, duedate: Option<Direction>)

  const Unsorted: SortState := SortState(None, None)

  /** One click on a column: null, then "asc", then "dsc", then null again. */
  function NextDirection(d: Option<Direction>): (r: Option<Direction>)
    ensures r != d
  {
    match d
    case None => Some(Asc)
    case Some(Asc) => Some(Dsc)
    case Some(Dsc) => None
  }

  /** Three clicks on a column bring it back to where it was, and fewer do not. */
  lemma ThreeClicksRestore(d: Option<Direction>)
    ensures NextDirection(NextDirection(NextDirection(d))) == d
    ensures NextDirection(NextDirection(d)) != d
  {
  }

  function DirectionOf(s: SortState, f: SortField): Option<Direction> {
    match f
    case PriorityField => s.priority
    case DueDateField => s.duedate
  }

  /** The state after clicking `field`; a null field leaves it as it is. */
  function Toggle(s: SortState, field: Option<SortField>): (r: SortState)
    ensures field.None? ==> r == s
    ensures field.Some? ==> DirectionOf(r, field.value) == NextDirection(DirectionOf(s, field.value))
    ensures forall f: SortField :: field != Some(f) ==> DirectionOf(r, f) == DirectionOf(s, f)
  {
    match field
    case None => s
    case Some(PriorityField) => s.(priority := NextDirection(s.priority))
    case Some(DueDateField) => s.(duedate := NextDirection(s.duedate))
  }

  /** Clicking the same column three times restores the whole sort state. */
  lemma ToggleThriceRestores(s: SortState, field: SortField)
    ensures Toggle(Toggle(Toggle(s, Some(field)), Some(field)), Some(field)) == s
  {
    ThreeClicksRestore(DirectionOf(s, field));
  }

  /** Clicks on different columns commute. */
  lemma ToggleCommutes(s: SortState)
    ensures Toggle(Toggle(s, Some(PriorityField)), Some(DueDateField))
            == Toggle(Toggle(s, Some(DueDateField)), Some(PriorityField))
  {
  }

  function FieldName(f: SortField): string {
    match f
    case PriorityField => "priority"
    case DueDateField => "duedate"
  }

  function DirectionName(d: Direction): string {
    match d
    case Asc => "asc"
    case Dsc => "dsc"
  }

  /** `${field}_${direction}` for a column with a direction, nothing otherwise. */
  function Criterion(f: SortField, d: Option<Direction>): seq<string> {
    match d
    case None => []
    case Some(dir) => [FieldName(f) + "_" + DirectionName(dir)]
  }

  /** The criteria in object key order, priority before duedate, whatever the
      order of the clicks. */
  function Criteria(s: SortState): (r: seq<string>)
    ensures |r| == (if s.priority.Some? then 1 else 0) + (if s.duedate.Some? then 1 else 0)
  {
    Criterion(PriorityField, s.priority) + Criterion(DueDateField, s.duedate)
  }

  /** The string handed to `setSort`. */
  function SortString(s: SortState): string {
    Join(Criteria(s), "-")
  }

  /** The sort string is empty exactly when no column has a direction; it is
      then "" and never null. */
  lemma SortStringEmpty(s: SortState)
    ensures SortString(s) == "" <==> s == Unsorted
  {
    if s.priority.Some? {
      assert SortString(s)[0] == 'p';
    } else if s.duedate.Some? {
      assert SortString(s)[0] == 'd';
    }
  }

  /** With both columns set the string names priority first, then due date. */
  lemma SortStringBoth(p: Direction, d: Direction)
    ensures SortString(SortState(Some(p), Some(d)))
            == "priority_" + DirectionName(p) + "-duedate_" + DirectionName(d)
  {
    var s := SortState(Some(p), Some(d));
    assert FieldName(PriorityField) + "_" == "priority_";
    assert FieldName(DueDateField) + "_" == "duedate_";
    assert Criteria(s) == ["priority_" + DirectionName(p), "duedate_" + DirectionName(d)];
    assert Join(Criteria(s)[1..], "-") == "duedate_" + DirectionName(d);
  }

  /** The header's sort state, updated by `handleSort`. */
  class SortHeader {
    var sortState: SortState

    constructor ()
      ensures sortState == Unsorted
    {
      sortState := Unsorted;
    }

    /** `handleSort(field)`: the sort string sent to `setSort`, `None` when the
        handler returns before sending anything. */
    method HandleSort(field: Option<SortField>) returns (sent: Option<string>)
      modifies this
      ensures field.None? ==> sent.None? && sortState == old(sortState)
      ensures field.Some? ==> sortState == Toggle(old(sortState), field)
                              && sent == Some(SortString(sortState))
    {
      if field.None? {
        return None;
      }
      var newSortState := sortState;
      var current := DirectionOf(newSortState, field.value);
      var next: Option<Direction>;
      if current.None? {
        next := Some(Asc);
      } else if current == Some(Asc) {
        next := Some(Dsc);
      } else {
        next := None;
      }
      match field.value {
        case PriorityField => newSortState := newSortState.(priority := next);
        case DueDateField => newSortState := newSortState.(duedate := next);
      }
      sortState := newSortState;
      sent := Some(SortString(newSortState));
    }
  }

  // ---------------------------------------------------------------------
  // Pagination controls
  // ---------------------------------------------------------------------

  /** `Math.ceil(total / size)` for a positive size. */
  function PageCount(total: int, size: int): (n: int)
    requires size > 0
    ensures (n - 1) * size < total <= n * size
  {
    if total % size == 0 then total / size else total / size + 1
  }

  /** Previous: `Math.max(0, currentPage - 1)`. */
  function PreviousPage(current: int): (r: int)
    ensures r >= 0
    ensures r <= current || current < 0
    ensures current >= 1 ==> r == current - 1
  {
    if current - 1 > 0 then current - 1 else 0
  }

  /** Next: `Math.min(Math.ceil(total / size) - 1, currentPage + 1)`. */
  function NextPage(current: int, total: int, size: int): (r: int)
    requires size > 0
    ensures r <= current + 1
    ensures r <= PageCount(total, size) - 1
    ensures r == current + 1 || r == PageCount(total, size) - 1
  {
    var last := PageCount(total, size) - 1;
    if last < current + 1 then last else current + 1
  }

  /** The indices behind the numbered links: one per page. */
  function PageLinks(total: int, size: int): (links: seq<int>)
    requires size > 0 && total >= 0
    ensures |links| == PageCount(total, size)
    ensures forall i :: 0 <= i < |links| ==> links[i] == i
  {
    seq(PageCount(total, size), i => i)
  }

  /** With at least one item, Next never leaves the last page and Previous
      never goes below the first; from a valid page both stay on a page
      that has a link. */
  lemma PagerStaysInRange(current: int, total: int, size: int)
    requires size > 0 && total > 0
    requires 0 <= current < PageCount(total, size)
    ensures 0 <= NextPage(current, total, size) < |PageLinks(total, size)|
    ensures 0 <= PreviousPage(current) < |PageLinks(total, size)|
    ensures current < PageCount(total, size) - 1 ==> NextPage(current, total, size) == current + 1
    ensures current == PageCount(total, size) - 1 ==> NextPage(current, total, size) == current
  {
  }

  /** Previous is disabled (`pointer-events-none`) on page 0. */
  predicate PreviousEnabled(current: int) {
    current != 0
  }

  /** Next is disabled from the last page on. */
  predicate NextEnabled(current: int, total: int, size: int)
    requires size > 0
  {
    current < PageCount(total, size) - 1
  }

  /** Next is enabled exactly when pressing it moves one page forward. */
  lemma NextEnabledAdvances(current: int, total: int, size: int)
    requires size > 0
    ensures NextEnabled(current, total, size) <==> NextPage(current, total, size) == current + 1
  {
  }

  /** From a page index, Previous is enabled exactly when pressing it moves one page back. */
  lemma PreviousEnabledGoesBack(current: int)
    requires current >= 0
    ensures PreviousEnabled(current) <==> PreviousPage(current) == current - 1
  {
  }

  /** With no items there are no links and Next is disabled, so the page -1
      its formula names is never requested (the pager is not even rendered
      while the list is empty). */
  lemma NextOnEmptyList(current: int, size: int)
    requires size > 0 && current >= 0
    ensures PageLinks(0, size) == []
    ensures !NextEnabled(current, 0, size)
    ensures NextPage(current, 0, size) == -1
  {
  }

  /** `PreviousPage` pressed `k` times. */
  function PressPrevious(current: int, k: nat): int
    decreases k
  {
    if k == 0 then current else PressPrevious(PreviousPage(current), k - 1)
  }

  /** Pressing Previous at least as often as the page index lands on the
      first page, and further presses keep it there. */
  lemma {:induction false} PreviousReachesFirst(current: nat, k: nat)
    requires k >= current
    ensures PressPrevious(current, k) == 0
  {
    if k > 0 {
      PreviousReachesFirst(PreviousPage(current), k - 1);
    }
  }
}
