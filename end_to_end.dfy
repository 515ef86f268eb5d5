/** How the two halves meet: what the client's query parameters mean once the
    backend reads them. */
module EndToEnd {
  import opened Wrappers
  import opened Text
  import opened TodoEntity
  import opened TodoRepository
  import opened TodoQuery
  import opened Service
  import opened ViewTypes
  import opened TodoApi
  import opened TodoListView
  import opened TodoState

  /** The backend's reading of the status the client sends: `None` when no
      status parameter is sent. */
  function SentStatus(c: StatusChoice): (status: Option<string>)
    ensures Values(QueryPairs(Some(Filters("", AllPriorities, c)), None, None), StatusKey)
            == (if status.Some? then [status.value] else [])
  {
    QueryPairsValues(Some(Filters("", AllPriorities, c)), None, None, StatusKey);
    StatusParamValues();
    match c
    case AllStatuses => None
    case DoneOnly => Some("done")
    case UndoneOnly => Some("undone")
  }

  /** The status the client picks selects exactly the todos it names. */
  lemma StatusChoiceSelects(c: StatusChoice, t: TodoRecord)
    ensures StatusMatches(SentStatus(c), t)
            <==> match c
                 case AllStatuses => true
                 case DoneOnly => t.done
                 case UndoneOnly => !t.done
  {
  }

  /** The criteria the backend should see for a header state: priority first,
      then due date, each ascending exactly when its column says "asc". */
  function IntendedCriteria(s: SortState): seq<SortCriterion> {
    (if s.priority.Some? then [SortCriterion("priority", s.priority.value == Asc)] else [])
    + (if s.duedate.Some? then [SortCriterion("duedate", s.duedate.value == Asc)] else [])
  }

  /** A lower-case word: no underscore and no upper-case letter. */
  predicate LowerWord(s: string) {
    forall i :: 0 <= i < |s| ==> 'a' <= s[i] <= 'z'
  }

  lemma NamesAreLowerWords(f: SortField, d: Direction)
    ensures LowerWord(FieldName(f)) && LowerWord(DirectionName(d))
  {
    match f {
      case PriorityField => assert LowerWord("priority");
      case DueDateField => assert LowerWord("duedate");
    }
    match d {
      case Asc => assert LowerWord("asc");
      case Dsc => assert LowerWord("dsc");
    }
  }

  lemma TokenParses(f: SortField, d: Direction)
    ensures CriterionOf(Token(f, d)) == Some(SortCriterion(FieldName(f), d == Asc))
  {
    NamesAreLowerWords(f, d);
    CriterionOfToken(FieldName(f), DirectionName(d));
    LowerOfLower(FieldName(f));
    LowerOfLower(DirectionName(d));
    assert "dsc" != "asc" by {
      assert "dsc"[0] != "asc"[0];
    }
  }

  function Token(f: SortField, d: Direction): string {
    FieldName(f) + "_" + DirectionName(d)
  }

  lemma TokenShape(f: SortField, d: Direction)
    ensures '-' !in Token(f, d) && Token(f, d) != [] && !IsJavaBlank(Token(f, d))
  {
    assert Token(f, d)[0] > ' ';
    match (f, d) {
      case (PriorityField, Asc) => assert Token(f, d) == "priority_asc";
      case (PriorityField, Dsc) => assert Token(f, d) == "priority_dsc";
      case (DueDateField, Asc) => assert Token(f, d) == "duedate_asc";
      case (DueDateField, Dsc) => assert Token(f, d) == "duedate_dsc";
    }
  }

  lemma ParseOneToken(f: SortField, d: Direction)
    ensures ParseSortBy(Some(Token(f, d))) == [SortCriterion(FieldName(f), d == Asc)]
  {
    TokenShape(f, d);
    ParseSortByTokens([Token(f, d)]);
    TokenParses(f, d);
    assert CriteriaOf([Token(f, d)][1..]) == [];
  }

  lemma ParseTwoTokens(p: Direction, d: Direction)
    ensures ParseSortBy(Some(Token(PriorityField, p) + "-" + Token(DueDateField, d)))
            == [SortCriterion("priority", p == Asc), SortCriterion("duedate", d == Asc)]
  {
    var tokens := [Token(PriorityField, p), Token(DueDateField, d)];
    TokenShape(PriorityField, p);
    TokenShape(DueDateField, d);
    JoinTwoTokens(p, d);
    ParseSortByTokens(tokens);
    CriteriaOfTwoTokens(p, d);
  }

  lemma JoinTwoTokens(p: Direction, d: Direction)
    ensures var tokens := [Token(PriorityField, p), Token(DueDateField, d)];
            Join(tokens, "-") == tokens[0] + "-" + tokens[1] && !IsJavaBlank(Join(tokens, "-"))
  {
    var tokens := [Token(PriorityField, p), Token(DueDateField, d)];
    TokenShape(PriorityField, p);
    assert Join(tokens, "-") == tokens[0] + "-" + tokens[1] by {
      assert Join(tokens[1..], "-") == tokens[1];
    }
    assert Join(tokens, "-")[0] == tokens[0][0];
  }

  lemma CriteriaOfTwoTokens(p: Direction, d: Direction)
    ensures CriteriaOf([Token(PriorityField, p), Token(DueDateField, d)])
            == [SortCriterion("priority", p == Asc), SortCriterion("duedate", d == Asc)]
  {
    var tokens := [Token(PriorityField, p), Token(DueDateField, d)];
    TokenParses(PriorityField, p);
    TokenParses(DueDateField, d);
    assert CriteriaOf(tokens[1..]) == [SortCriterion("duedate", d == Asc)] by {
      assert tokens[1..][1..] == [];
    }
  }

  /** Every sort string the header can send parses, on the backend, into the
      criteria the header shows. */
  lemma SortStringParses(s: SortState)
    ensures ParseSortBy(Some(SortString(s))) == IntendedCriteria(s)
  {
    match s
    case SortState(None, None) =>
      assert SortString(s) == "";
    case SortState(Some(p), None) =>
      assert SortString(s) == Token(PriorityField, p);
      ParseOneToken(PriorityField, p);
    case SortState(None, Some(d)) =>
      assert SortString(s) == Token(DueDateField, d);
      ParseOneToken(DueDateField, d);
    case SortState(Some(p), Some(d)) =>
      assert Criteria(s) == [Token(PriorityField, p), Token(DueDateField, d)];
      assert SortString(s) == Token(PriorityField, p) + "-" + Token(DueDateField, d) by {
        assert Join(Criteria(s)[1..], "-") == Token(DueDateField, d);
      }
      ParseTwoTokens(p, d);
  }

  /** The metrics request carries no parameters, so the backend answers with
      its default page: the first ten todos in stored order. Metrics therefore
      only ever see that page. */
  lemma MetricsSeeFirstPage(rows: seq<TodoRecord>)
    ensures ListingRequest(None, None, None) == Request(Get, "/todos")
    ensures ListTodos(rows, DefaultPage, DefaultSize, None, None, None, None)
            == Ok(PageResponse(rows[..Min(10, |rows|)], |rows|))
  {
    NoArgumentsNoQuery();
    DefaultRequestIsFirstTen(rows);
  }

  /** A page size or page index the client sends reads back as the same number. */
  lemma PagingReadsBack(pageSize: nat, currentPage: nat, f: Option<Filters>, sortString: Option<string>)
    requires pageSize != 0
    ensures var ps := QueryPairs(f, Some(PaginationPart(Some(pageSize), Some(currentPage))), sortString);
            Values(ps, SizeKey) == [NatToString(pageSize)] && Values(ps, PageKey) == [NatToString(currentPage)]
            && ParseDigits(NatToString(pageSize)) == pageSize && ParseDigits(NatToString(currentPage)) == currentPage
  {
    var p := Some(PaginationPart(Some(pageSize), Some(currentPage)));
    QueryPairsValues(f, p, sortString, SizeKey);
    QueryPairsValues(f, p, sortString, PageKey);
    ParseNatToString(pageSize);
    ParseNatToString(currentPage);
  }
}
