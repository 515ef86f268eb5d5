/** The client's view state (`TodoContext.tsx`): the todos on screen, the
    loading flag and error message, the filter, sort and pagination state and
    the metrics snapshot, with the handlers that update them. A request to the
    backend is modelled by the request it sends and the outcome it gets back. */
module TodoState {
  import opened Wrappers
  import opened Text
  import opened ViewTypes
  import opened TodoApi

  datatype Verb = Get | Post | Put

  datatype Request = Request(verb: Verb, path: string)

  /** The outcome of one request. */
  datatype Response<T> = Success(value: T) | Failure

  /** The listing request `fetchTodos(filters, pagination, sortString)` sends. */
  function ListingRequest(filters: Option<Filters>, pagination: Option<PaginationPart>,
                          sortString: Option<string>): Request
  {
    Request(Get, "/todos" + Render(QueryPairs(filters, pagination, sortString)))
  }

  /** The request `fetchTodoMetrics` sends: the listing with no parameters. */
  const MetricsRequest: Request := Request(Get, "/todos")

  lemma MetricsRequestIsListing()
    ensures ListingRequest(None, None, None) == MetricsRequest
  {
    NoArgumentsNoQuery();
    assert "/todos" + "" == "/todos";
  }

  /** `markTodoAsDone` posts to `/todos/{id}/done`, `markTodoAsUndone` puts to `/todos/{id}/undone`. */
  function MarkRequest(id: int, done: bool): Request {
    if done then Request(Post, "/todos/" + IntToString(id) + "/done")
    else Request(Put, "/todos/" + IntToString(id) + "/undone")
  }

  const FetchError: string := "Failed to fetch todos"
  const ToggleError: string := "Failed to update todo status"

  const InitialFilters: Filters := Filters("", AllPriorities, AllStatuses)
  const InitialPagination: Pagination := Pagination(10, 0, 0)

  /** The starting snapshot spells its keys in lower case, unlike the
      snapshots `fetchTodoMetrics` computes. */
  const InitialMetrics: Metrics := Metrics(0, map["high" := 0, "medium" := 0, "low" := 0])

  /** Everything the provider holds. */
  datatype ViewState = ViewState(
    todos: seq<TodoView>,
    isLoading: bool,
    error: Option<string>,
    filters: Filters,
    sortString: Option<string>,
    pagination: Pagination,
    metrics: Metrics)

  // ---------------------------------------------------------------------
  // Filters
  // ---------------------------------------------------------------------

  /** `{ ...prev, ...newFilters }`: a field the update carries wins. */
  function MergeFilters(f: Filters, u: FiltersUpdate): (r: Filters)
    ensures r.text == (if u.text.Some? then u.text.value else f.text)
    ensures r.priority == (if u.priority.Some? then u.priority.value else f.priority)
    ensures r.status == (if u.status.Some? then u.status.value else f.status)
  {
    Filters(u.text.GetOr(f.text), u.priority.GetOr(f.priority), u.status.GetOr(f.status))
  }

  /** `{ ...u, ...v }` on two partial filter objects. */
  function CombineUpdates(u: FiltersUpdate, v: FiltersUpdate): FiltersUpdate {
    FiltersUpdate(if v.text.Some? then v.text else u.text,
                  if v.priority.Some? then v.priority else u.priority,
                  if v.status.Some? then v.status else u.status)
  }

  const NoChange: FiltersUpdate := FiltersUpdate(None, None, None)

  /** An empty update keeps the filters; applying an update twice is the same
      as applying it once; two updates in a row act as their combination. */
  lemma MergeLaws(f: Filters, u: FiltersUpdate, v: FiltersUpdate)
    ensures MergeFilters(f, NoChange) == f
    ensures MergeFilters(MergeFilters(f, u), u) == MergeFilters(f, u)
    ensures MergeFilters(MergeFilters(f, u), v) == MergeFilters(f, CombineUpdates(u, v))
  {
  }

  /** An update carrying every field replaces the filters wholesale. */
  lemma MergeFullUpdate(f: Filters, g: Filters)
    ensures MergeFilters(f, FiltersUpdate(Some(g.text), Some(g.priority), Some(g.status))) == g
  {
  }

  // ---------------------------------------------------------------------
  // Fetching
  // ---------------------------------------------------------------------

  /** The listing request for the current state: the filters, the page size
      and the current page (both always present), and the sort string. */
  function StateRequest(s: ViewState): Request {
    ListingRequest(Some(s.filters), Some(PaginationPart(Some(s.pagination.pageSize), Some(s.pagination.currentPage))),
                   s.sortString)
  }

  lemma InitialPairs()
    ensures QueryPairs(Some(InitialFilters), Some(PaginationPart(Some(10), Some(0))), None)
            == [(SizeKey, "10"), (PageKey, "0")]
  {
    var f, p := Some(InitialFilters), Some(PaginationPart(Some(10), Some(0)));
    assert TextPair(f) == [] && PriorityPair(f) == [] && StatusPair(f) == [] && SortPair(None) == [];
    assert NatToString(10) == "10" by {
      assert NatToString(1) == "1";
    }
    assert SizePair(p) == [(SizeKey, "10")];
    assert PagePair(p) == [(PageKey, "0")];
  }

  lemma RenderInitialPairs()
    ensures Render([(SizeKey, "10"), (PageKey, "0")]) == "?size=10&page=0"
  {
    var pairs := [(SizeKey, "10"), (PageKey, "0")];
    assert EncodePairs(pairs) == ["size=10", "page=0"] by {
      var last := [(PageKey, "0")];
      assert pairs[1..] == last && last[1..] == [];
      assert "page" + "=" + "0" == "page=0";
      assert "size" + "=" + "10" == "size=10";
      assert EncodePairs(last) == [KeyName(PageKey) + "=" + "0"];
    }
    assert Join(["size=10", "page=0"], "&") == "size=10&page=0" by {
      assert Join(["size=10", "page=0"][1..], "&") == "page=0";
    }
  }

  /** The first listing request: no filter and no sort, ten todos of page 0. */
  lemma InitialRequest(todos: seq<TodoView>, metrics: Metrics)
    ensures StateRequest(ViewState(todos, false, None, InitialFilters, None, InitialPagination, metrics))
            == Request(Get, "/todos?size=10&page=0")
  {
    var s := ViewState(todos, false, None, InitialFilters, None, InitialPagination, metrics);
    var query := Render(QueryPairs(Some(InitialFilters), Some(PaginationPart(Some(10), Some(0))), None));
    assert query == "?size=10&page=0" by {
      InitialPairs();
      RenderInitialPairs();
    }
    assert StateRequest(s) == Request(Get, "/todos" + query);
    InitialPath();
  }

  lemma InitialPath()
    ensures "/todos" + "?size=10&page=0" == "/todos?size=10&page=0"
  {
  }

  /** `refreshMetrics`: `fetchTodoMetrics` fetches the default page and
      computes the snapshot; a failure keeps the old one. */
  function AfterRefresh(s: ViewState, metricsPage: Response<PageView>, round: real -> int): ViewState {
    match metricsPage
    case Success(page) => s.(metrics := MetricsOf(page.data, round))
    case Failure => s
  }

  /** `fetchTodos`: on success the page's todos, its total and fresh metrics;
      on failure the error message; never loading afterwards. */
  function AfterFetch(s: ViewState, listing: Response<PageView>, metricsPage: Response<PageView>,
                      round: real -> int): ViewState
  {
    match listing
    case Success(page) =>
      AfterRefresh(s, metricsPage, round).(todos := page.data, isLoading := false, error := None,
                                           pagination := s.pagination.(totalItems := page.totalItems))
    case Failure => s.(isLoading := false, error := Some(FetchError))
  }

  /** The state a successful fetch leaves, field by field. */
  lemma FetchSucceeded(s: ViewState, t: ViewState, page: PageView, metricsPage: Response<PageView>,
                       round: real -> int)
    requires t.todos == page.data && !t.isLoading && t.error.None?
    requires t.filters == s.filters && t.sortString == s.sortString
    requires t.pagination == s.pagination.(totalItems := page.totalItems)
    requires t.metrics == AfterRefresh(s, metricsPage, round).metrics
    ensures t == AfterFetch(s, Success(page), metricsPage, round)
  {
  }

  /** A fetch changes neither the filters, the sort nor the page being shown;
      success touches only `totalItems` within the pagination; failure keeps
      the todos and the metrics. */
  lemma FetchEffects(s: ViewState, listing: Response<PageView>, metricsPage: Response<PageView>,
                     round: real -> int)
    ensures var t := AfterFetch(s, listing, metricsPage, round);
            t.filters == s.filters && t.sortString == s.sortString && !t.isLoading
            && t.pagination.pageSize == s.pagination.pageSize
            && t.pagination.currentPage == s.pagination.currentPage
            && StateRequest(t) == StateRequest(s)
    ensures listing.Success? ==>
              var t := AfterFetch(s, listing, metricsPage, round);
              t.todos == listing.value.data && t.error.None?
              && t.pagination.totalItems == listing.value.totalItems
              && t.metrics == (if metricsPage.Success? then MetricsOf(metricsPage.value.data, round) else s.metrics)
    ensures listing.Failure? ==>
              AfterFetch(s, listing, metricsPage, round) == s.(isLoading := false, error := Some(FetchError))
  {
  }

  /** `toggleTodoStatus` after the mark request: on success a fetch and a
      second metrics refresh; on failure only the error message. */
  function AfterToggle(s: ViewState, marked: bool, listing: Response<PageView>,
                       metricsPage: Response<PageView>, metricsAgain: Response<PageView>,
                       round: real -> int): ViewState
  {
    if marked then AfterRefresh(AfterFetch(s, listing, metricsPage, round), metricsAgain, round).(isLoading := false)
    else s.(isLoading := false, error := Some(ToggleError))
  }

  /** A failed mark request reports the toggle error and changes nothing else;
      a successful one leaves the toggle error unset, reporting only a failed
      reload. */
  lemma ToggleEffects(s: ViewState, marked: bool, listing: Response<PageView>,
                      metricsPage: Response<PageView>, metricsAgain: Response<PageView>, round: real -> int)
    ensures var t := AfterToggle(s, marked, listing, metricsPage, metricsAgain, round);
            !t.isLoading && t.filters == s.filters && t.sortString == s.sortString
            && (t.error == Some(ToggleError) <==> !marked)
    ensures !marked ==> AfterToggle(s, marked, listing, metricsPage, metricsAgain, round)
                        == s.(isLoading := false, error := Some(ToggleError))
    ensures marked ==> AfterToggle(s, marked, listing, metricsPage, metricsAgain, round).error
                       == (if listing.Success? then None else Some(FetchError))
  {
  }

  /** The requests a successful toggle goes on to send: the reload of the
      listing (and its metrics refresh when the listing arrives), then a
      second metrics refresh. */
  function ToggleReloads(s: ViewState, listing: Response<PageView>): seq<Request> {
    [StateRequest(s)] + (if listing.Success? then [MetricsRequest] else []) + [MetricsRequest]
  }

  /** The provider. */
  class TodoContext {
    var todos: seq<TodoView>
    var isLoading: bool
    var error: Option<string>
    var filters: Filters
    var sortString: Option<string>
    var pagination: Pagination
    var metrics: Metrics

    function State(): ViewState
      reads this
    {
      ViewState(todos, isLoading, error, filters, sortString, pagination, metrics)
    }

    /** `initialState`. */
    constructor ()
      ensures State() == ViewState([], false, None, InitialFilters, None, InitialPagination, InitialMetrics)
    {
      todos := [];
      isLoading := false;
      error := None;
      filters := InitialFilters;
      sortString := None;
      pagination := InitialPagination;
      metrics := InitialMetrics;
    }

    /** `handleSetFilters`: back to the first page, the update merged in. */
    method SetFilters(newFilters: FiltersUpdate)
      modifies this
      ensures State() == old(State()).(filters := MergeFilters(old(filters), newFilters),
                                        pagination := old(pagination).(currentPage := 0))
    {
      pagination := pagination.(currentPage := 0);
      filters := MergeFilters(filters, newFilters);
    }

    /** `handleSetSort`: the sorting replaced wholesale. */
    method SetSort(s: Option<string>)
      modifies this
      ensures State() == old(State()).(sortString := s)
    {
      sortString := s;
    }

    /** `setPage`: any index, unclamped. */
    method SetPage(page: int)
      modifies this
      ensures State() == old(State()).(pagination := old(pagination).(currentPage := page))
    {
      pagination := pagination.(currentPage := page);
    }

    /** `setPageSize`: the new size, back to the first page. */
    method SetPageSize(size: int)
      modifies this
      ensures State() == old(State()).(pagination := old(pagination).(pageSize := size, currentPage := 0))
    {
      pagination := pagination.(pageSize := size, currentPage := 0);
    }

    /** `refreshMetrics`, given the outcome of the default-page fetch it makes. */
    method RefreshMetrics(metricsPage: Response<PageView>, round: real -> int) returns (sent: Request)
      modifies this
      ensures sent == MetricsRequest
      ensures State() == AfterRefresh(old(State()), metricsPage, round)
    {
      var query := BuildQueryParams(None, None, None);
      NoArgumentsNoQuery();
      sent := Request(Get, "/todos" + query);
      assert "/todos" + query == "/todos";
      if metricsPage.Success? {
        var m := ComputeMetrics(metricsPage.value, round);
        metrics := m;
      }
    }

    /** `fetchTodos`, given the outcomes of the listing request and of the
        metrics request made after it; answers the requests sent, in order. */
    method FetchTodos(listing: Response<PageView>, metricsPage: Response<PageView>, round: real -> int)
      returns (sent: seq<Request>)
      modifies this
      ensures sent == [StateRequest(old(State()))] + (if listing.Success? then [MetricsRequest] else [])
      ensures State() == AfterFetch(old(State()), listing, metricsPage, round)
    {
      isLoading := true;
      error := None;
      var query := BuildQueryParams(Some(filters), Some(PaginationPart(Some(pagination.pageSize),
                                                                        Some(pagination.currentPage))), sortString);
      sent := [Request(Get, "/todos" + query)];
      if listing.Success? {
        var metricsRequest := RefreshMetrics(metricsPage, round);
        sent := sent + [metricsRequest];
        todos := listing.value.data;
        pagination := pagination.(totalItems := listing.value.totalItems);
        isLoading := false;
        FetchSucceeded(old(State()), State(), listing.value, metricsPage, round);
      } else {
        error := Some(FetchError);
        isLoading := false;
      }
    }

    /** `toggleTodoStatus(id, done)`, given whether the mark request succeeded
        and the outcomes of the requests made after it. */
    method ToggleTodoStatus(id: int, done: bool, marked: bool, listing: Response<PageView>,
                            metricsPage: Response<PageView>, metricsAgain: Response<PageView>,
                            round: real -> int)
      returns (sent: seq<Request>)
      modifies this
      ensures sent == [MarkRequest(id, done)]
                      + (if marked then ToggleReloads(old(State()).(isLoading := true, error := None), listing) else [])
      ensures State() == AfterToggle(old(State()).(isLoading := true, error := None), marked, listing,
                                     metricsPage, metricsAgain, round)
    {
      isLoading := true;
      error := None;
      ghost var start := State();
      assert start == old(State()).(isLoading := true, error := None);
      sent := [MarkRequest(id, done)];
      if marked {
        var reload := FetchTodos(listing, metricsPage, round);
        ghost var fetched := State();
        assert fetched == AfterFetch(start, listing, metricsPage, round);
        var again := RefreshMetrics(metricsAgain, round);
        assert State() == AfterRefresh(fetched, metricsAgain, round);
        assert reload + [again] == ToggleReloads(start, listing);
        sent := sent + (reload + [again]);
      } else {
        error := Some(ToggleError);
      }
      isLoading := false;
    }
  }
}
