/** The client's date and duration helpers (`dateUtils.ts`). Parsing and
    formatting of dates belong to the date library; what it answers is taken
    as an input: an instant, an invalid date, or a thrown exception. */
module DateUtils {
  import opened Wrappers
  import opened Text

  /** What `parseISO` hands back for one argument. */
  datatype Parsed = Instant(ms: int) | InvalidDate | Threw

  /** A JavaScript number as far as these helpers produce one. */
  datatype JsNumber = Finite(n: int) | NaN

  // ---------------------------------------------------------------------
  // formatMinutes
  // ---------------------------------------------------------------------

  /** `Math.floor(a / b)` for a positive divisor. */
  function FloorDiv(a: int, b: int): (q: int)
    requires b > 0
    ensures q * b <= a < (q + 1) * b
  {
    a / b
  }

  /** JavaScript's `a % b` for a positive divisor: the sign follows `a`. */
  function JsRem(a: int, b: int): (r: int)
    requires b > 0
    ensures a >= 0 ==> 0 <= r < b
    ensures a < 0 ==> -b < r <= 0
    ensures a >= 0 ==> r == a % b
  {
    if a >= 0 then a % b else -((-a) % b)
  }

  /** `formatMinutes`: whole hours and the minutes left over. */
  function FormatMinutes(minutes: int): string {
    var hours := FloorDiv(minutes, 60);
    var mins := JsRem(minutes, 60);
    if hours > 0 then IntToString(hours) + "h " + IntToString(mins) + "m"
    else IntToString(mins) + "m"
  }

  /** For a non-negative count the two parts are the hour/minute decomposition. */
  lemma MinutesDecompose(minutes: int)
    requires minutes >= 0
    ensures FloorDiv(minutes, 60) * 60 + JsRem(minutes, 60) == minutes
    ensures 0 <= JsRem(minutes, 60) < 60
    ensures FloorDiv(minutes, 60) > 0 <==> minutes >= 60
  {
  }

  /** Under an hour only the minutes are shown; from an hour on both parts,
      even when the minutes are 0. */
  lemma FormatMinutesShape(minutes: int)
    requires minutes >= 0
    ensures minutes < 60 ==> FormatMinutes(minutes) == NatToString(minutes) + "m"
    ensures minutes >= 60 ==>
              FormatMinutes(minutes) == NatToString(minutes / 60) + "h " + NatToString(minutes % 60) + "m"
  {
  }

  lemma OneHourExample()
    ensures FormatMinutes(60) == "1h 0m"
    ensures FormatMinutes(19) == "19m"
  {
    assert NatToString(1) == "1" && NatToString(0) == "0";
    assert NatToString(19) == "19" by {
      assert NatToString(1) == "1";
    }
  }

  // ---------------------------------------------------------------------
  // getTimeDifferenceInMinutes
  // ---------------------------------------------------------------------

  /** `getTimeDifferenceInMinutes`: whole minutes from `start` to `end`,
      rounded down; `NaN` when a date is invalid; 0 when parsing threw. */
  function TimeDifferenceInMinutes(start: Parsed, end: Parsed): (r: JsNumber)
    ensures start.Threw? || end.Threw? ==> r == Finite(0)
    ensures start.Instant? && end.Instant? ==>
              r.Finite? && r.n * 60000 <= end.ms - start.ms < (r.n + 1) * 60000
    ensures (start.InvalidDate? || end.InvalidDate?) && !start.Threw? && !end.Threw? ==> r == NaN
  {
    match (start, end)
    case (Threw, _) => Finite(0)
    case (_, Threw) => Finite(0)
    case (Instant(s), Instant(e)) => Finite(FloorDiv(e - s, 1000 * 60))
    case _ => NaN
  }

  /** The difference is antisymmetric up to rounding: swapping the dates
      gives minus the difference, less one unless it is a whole number of
      minutes. */
  lemma TimeDifferenceSwap(s: int, e: int)
    ensures var d := TimeDifferenceInMinutes(Instant(s), Instant(e)).n;
            var back := TimeDifferenceInMinutes(Instant(e), Instant(s)).n;
            back == (if (e - s) % 60000 == 0 then -d else -d - 1)
  {
  }

  // ---------------------------------------------------------------------
  // getDueDateUrgency
  // ---------------------------------------------------------------------

  datatype Urgency = Urgent | Moderate | Normal

  /** What `differenceInDays` answers: a whole day count, `NaN` for an
      invalid date, or an exception. */
  datatype DayCount = Days(days: int) | NaNDays | DaysThrew

  /** The thresholds: up to 7 days (overdue included) is urgent, up to 14 moderate. */
  function Classify(days: int): Urgency {
    if days <= 7 then Urgent else if days <= 14 then Moderate else Normal
  }

  function Rank(u: Urgency): nat {
    match u
    case Urgent => 0
    case Moderate => 1
    case Normal => 2
  }

  lemma ClassifyThresholds(days: int)
    ensures Classify(days) == Urgent <==> days <= 7
    ensures Classify(days) == Moderate <==> 8 <= days <= 14
    ensures Classify(days) == Normal <==> days > 14
  {
  }

  /** Later due dates are never more urgent. */
  lemma ClassifyMonotone(d1: int, d2: int)
    requires d1 <= d2
    ensures Rank(Classify(d1)) <= Rank(Classify(d2))
  {
  }

  /** `getDueDateUrgency`: null without a due date (`null` or ""), and null
      when the date library throws; a `NaN` day count fails both comparisons. */
  function DueDateUrgency(dueDate: Option<string>, days: DayCount): (r: Option<Urgency>)
    ensures dueDate.None? || dueDate == Some("") ==> r.None?
    ensures r.None? <==> dueDate.None? || dueDate == Some("") || days.DaysThrew?
    ensures r.Some? && days.Days? ==> r.value == Classify(days.days)
    ensures r.Some? && days.NaNDays? ==> r.value == Normal
  {
    if dueDate.None? || dueDate.value == "" then None
    else
      match days
      case DaysThrew => None
      case NaNDays => Some(Normal)
      case Days(n) => Some(Classify(n))
  }

  // ---------------------------------------------------------------------
  // formatDate
  // ---------------------------------------------------------------------

  /** `formatDate`; `formatted` is the library's rendering, `None` when it throws. */
  function FormatDate(dateString: Option<string>, formatted: Option<string>): (r: string)
    ensures dateString.None? || dateString == Some("") ==> r == ""
    ensures r == "" ==> dateString.None? || dateString == Some("") || formatted == Some("")
    ensures dateString.Some? && dateString.value != "" && formatted.Some? ==> r == formatted.value
    ensures dateString.Some? && dateString.value != "" && formatted.None? ==> r == "Invalid date"
  {
    if dateString.None? || dateString.value == "" then ""
    else if formatted.Some? then formatted.value
    else "Invalid date"
  }
}
