/** The frontend's API helpers (`todoService.ts`): the query string of a
    listing request and the completion-time metrics computed from a page of
    todos. `URLSearchParams` is modelled as its ordered list of (key, value)
    pairs, rendered without percent-encoding. */
module TodoApi {
  import opened Wrappers
  import opened Seqs
  import opened Text
  import opened TodoEntity
  import opened ViewTypes

  // ---------------------------------------------------------------------
  // buildQueryParams
  // ---------------------------------------------------------------------

  /** The six parameter names `buildQueryParams` may append. */
  datatype ParamKey = TextKey | PriorityKey | StatusKey | SizeKey | PageKey | SortByKey

  function KeyName(k: ParamKey): string {
    match k
    case TextKey => "text"
    case PriorityKey => "priority"
    case StatusKey => "status"
    case SizeKey => "size"
    case PageKey => "page"
    case SortByKey => "sortBy"
  }

  type Param = (ParamKey, string)

  /** The `TodoFilters.status` literal. */
  function StatusName(s: StatusChoice): string {
    match s
    case AllStatuses => "ALL"
    case DoneOnly => "DONE"
    case UndoneOnly => "UNDONE"
  }

  /** `filters.text && filters.text.trim() !== ""`. */
  predicate SendsText(filters: Option<Filters>) {
    filters.Some? && !IsJsBlank(filters.value.text)
  }

  predicate SendsPriority(filters: Option<Filters>) {
    filters.Some? && filters.value.priority.OnlyPriority?
  }

  predicate SendsStatus(filters: Option<Filters>) {
    filters.Some? && !filters.value.status.AllStatuses?
  }

  /** `pagination.pageSize` is truthy: present and not 0. */
  predicate SendsSize(pagination: Option<PaginationPart>) {
    pagination.Some? && pagination.value.pageSize.Some? && pagination.value.pageSize.value != 0
  }

  predicate SendsPage(pagination: Option<PaginationPart>) {
    pagination.Some? && pagination.value.currentPage.Some?
  }

  /** `sortString` is truthy: present and not empty. */
  predicate SendsSort(sortString: Option<string>) {
    sortString.Some? && sortString.value != ""
  }

  function Single(present: bool, key: ParamKey, value: string): (r: seq<Param>)
    ensures present ==> r == [(key, value)]
    ensures !present ==> r == []
  {
    if present then [(key, value)] else []
  }

  function TextPair(filters: Option<Filters>): seq<Param> {
    Single(SendsText(filters), TextKey, if filters.Some? then filters.value.text else "")
  }

  function PriorityPair(filters: Option<Filters>): seq<Param> {
    Single(SendsPriority(filters), PriorityKey,
           if SendsPriority(filters) then PriorityName(filters.value.priority.p) else "")
  }

  function StatusPair(filters: Option<Filters>): seq<Param> {
    Single(SendsStatus(filters), StatusKey, if filters.Some? then Lower(StatusName(filters.value.status)) else "")
  }

  function SizePair(pagination: Option<PaginationPart>): seq<Param> {
    Single(SendsSize(pagination), SizeKey,
           if SendsSize(pagination) then IntToString(pagination.value.pageSize.value) else "")
  }

  function PagePair(pagination: Option<PaginationPart>): seq<Param> {
    Single(SendsPage(pagination), PageKey,
           if SendsPage(pagination) then IntToString(pagination.value.currentPage.value) else "")
  }

  function SortPair(sortString: Option<string>): seq<Param> {
    Single(SendsSort(sortString), SortByKey, if sortString.Some? then sortString.value else "")
  }

  /** The parameters appended, in the order `buildQueryParams` appends them. */
  function QueryPairs(filters: Option<Filters>, pagination: Option<PaginationPart>,
                      sortString: Option<string>): seq<Param>
  {
    TextPair(filters) + PriorityPair(filters) + StatusPair(filters)
      + SizePair(pagination) + PagePair(pagination) + SortPair(sortString)
  }

  function EncodePairs(ps: seq<Param>): (r: seq<string>)
    ensures |r| == |ps|
    ensures forall i :: 0 <= i < |ps| ==> r[i] == KeyName(ps[i].0) + "=" + ps[i].1
  {
    if ps == [] then [] else [KeyName(ps[0].0) + "=" + ps[0].1] + EncodePairs(ps[1..])
  }

  /** `params.toString()` behind a "?", or "" when nothing was appended. */
  function Render(ps: seq<Param>): (s: string)
    ensures s == "" <==> ps == []
    ensures ps != [] ==> s[0] == '?'
  {
    if ps == [] then "" else "?" + Join(EncodePairs(ps), "&")
  }

  /** `buildQueryParams`, appending to the parameter list step by step. */
  method BuildQueryParams(filters: Option<Filters>, pagination: Option<PaginationPart>,
                          sortString: Option<string>) returns (query: string)
    ensures query == Render(QueryPairs(filters, pagination, sortString))
  {
    var params: seq<Param> := [];
    if filters.Some? {
      var f := filters.value;
      if f.text != "" && !IsJsBlank(f.text) {
        params := params + [(TextKey, f.text)];
      }
      assert params == TextPair(filters);
      if f.priority.OnlyPriority? {
        params := params + [(PriorityKey, PriorityName(f.priority.p))];
      }
      assert params == TextPair(filters) + PriorityPair(filters);
      if !f.status.AllStatuses? {
        params := params + [(StatusKey, Lower(StatusName(f.status)))];
      }
    }
    assert params == TextPair(filters) + PriorityPair(filters) + StatusPair(filters);
    ghost var fromFilters := params;
    if pagination.Some? {
      var p := pagination.value;
      if p.pageSize.Some? && p.pageSize.value != 0 {
        params := params + [(SizeKey, IntToString(p.pageSize.value))];
      }
      assert params == fromFilters + SizePair(pagination);
      if p.currentPage.Some? {
        params := params + [(PageKey, IntToString(p.currentPage.value))];
      }
    }
    assert params == fromFilters + SizePair(pagination) + PagePair(pagination);
    ghost var fromPagination := params;
    if sortString.Some? && sortString.value != "" {
      params := params + [(SortByKey, sortString.value)];
    }
    assert params == fromPagination + SortPair(sortString);
    query := Render(params);
  }

  /** The values sent under `key`, in order (`URLSearchParams.getAll`). */
  function Values(ps: seq<Param>, key: ParamKey): seq<string> {
    if ps == [] then [] else (if ps[0].0 == key then [ps[0].1] else []) + Values(ps[1..], key)
  }

  lemma {:induction false} ValuesAppend(a: seq<Param>, b: seq<Param>, key: ParamKey)
    ensures Values(a + b, key) == Values(a, key) + Values(b, key)
  {
    if a != [] {
      assert (a + b)[1..] == a[1..] + b;
      ValuesAppend(a[1..], b, key);
    } else {
      assert a + b == b;
    }
  }

  function Keys(ps: seq<Param>): (ks: seq<ParamKey>)
    ensures |ks| == |ps| && forall i :: 0 <= i < |ps| ==> ks[i] == ps[i].0
  {
    if ps == [] then [] else [ps[0].0] + Keys(ps[1..])
  }

  /** The order parameters may appear in. */
  const ParamOrder: seq<ParamKey> := [TextKey, PriorityKey, StatusKey, SizeKey, PageKey, SortByKey]

  lemma {:induction false} KeysAppend(a: seq<Param>, b: seq<Param>)
    ensures Keys(a + b) == Keys(a) + Keys(b)
  {
    if a != [] {
      assert (a + b)[1..] == a[1..] + b;
      KeysAppend(a[1..], b);
    } else {
      assert a + b == b;
    }
  }

  function KeyOf(present: bool, key: ParamKey): seq<ParamKey> {
    if present then [key] else []
  }

  lemma ValuesSingle(present: bool, k: ParamKey, v: string, key: ParamKey)
    ensures Values(Single(present, k, v), key) == if present && k == key then [v] else []
  {
    if present {
      assert [(k, v)][1..] == [];
    }
  }

  /** The values the source appends under `key`: one value when the key's
      condition holds, none otherwise. */
  function Expected(filters: Option<Filters>, pagination: Option<PaginationPart>,
                    sortString: Option<string>, key: ParamKey): seq<string>
  {
    match key
    case TextKey => if SendsText(filters) then [filters.value.text] else []
    case PriorityKey => if SendsPriority(filters) then [PriorityName(filters.value.priority.p)] else []
    case StatusKey => if SendsStatus(filters) then [Lower(StatusName(filters.value.status))] else []
    case SizeKey => if SendsSize(pagination) then [IntToString(pagination.value.pageSize.value)] else []
    case PageKey => if SendsPage(pagination) then [IntToString(pagination.value.currentPage.value)] else []
    case SortByKey => if SendsSort(sortString) then [sortString.value] else []
  }

  lemma QueryValuesSplit(filters: Option<Filters>, pagination: Option<PaginationPart>,
                         sortString: Option<string>, key: ParamKey)
    ensures Values(QueryPairs(filters, pagination, sortString), key)
            == Values(TextPair(filters), key) + Values(PriorityPair(filters), key)
               + Values(StatusPair(filters), key) + Values(SizePair(pagination), key)
               + Values(PagePair(pagination), key) + Values(SortPair(sortString), key)
  {
    ValuesOfSix(TextPair(filters), PriorityPair(filters), StatusPair(filters),
                SizePair(pagination), PagePair(pagination), SortPair(sortString), key);
  }

  lemma ValuesOfSix(a: seq<Param>, b: seq<Param>, c: seq<Param>, d: seq<Param>, e: seq<Param>,
                    f: seq<Param>, key: ParamKey)
    ensures Values(a + b + c + d + e + f, key)
            == Values(a, key) + Values(b, key) + Values(c, key) + Values(d, key) + Values(e, key) + Values(f, key)
  {
    ValuesAppend(a + b + c + d + e, f, key);
    ValuesAppend(a + b + c + d, e, key);
    ValuesAppend(a + b + c, d, key);
    ValuesAppend(a + b, c, key);
    ValuesAppend(a, b, key);
  }

  lemma FilterPartValues(filters: Option<Filters>, pagination: Option<PaginationPart>,
                         sortString: Option<string>, key: ParamKey)
    ensures var e := Expected(filters, pagination, sortString, key);
            Values(TextPair(filters), key) == (if key == TextKey then e else [])
            && Values(PriorityPair(filters), key) == (if key == PriorityKey then e else [])
            && Values(StatusPair(filters), key) == (if key == StatusKey then e else [])
  {
    ValuesSingle(SendsText(filters), TextKey, if filters.Some? then filters.value.text else "", key);
    ValuesSingle(SendsPriority(filters), PriorityKey,
                 if SendsPriority(filters) then PriorityName(filters.value.priority.p) else "", key);
    ValuesSingle(SendsStatus(filters), StatusKey,
                 if filters.Some? then Lower(StatusName(filters.value.status)) else "", key);
  }

  lemma OtherPartValues(filters: Option<Filters>, pagination: Option<PaginationPart>,
                        sortString: Option<string>, key: ParamKey)
    ensures var e := Expected(filters, pagination, sortString, key);
            Values(SizePair(pagination), key) == (if key == SizeKey then e else [])
            && Values(PagePair(pagination), key) == (if key == PageKey then e else [])
            && Values(SortPair(sortString), key) == (if key == SortByKey then e else [])
  {
    ValuesSingle(SendsSize(pagination), SizeKey,
                 if SendsSize(pagination) then IntToString(pagination.value.pageSize.value) else "", key);
    ValuesSingle(SendsPage(pagination), PageKey,
                 if SendsPage(pagination) then IntToString(pagination.value.currentPage.value) else "", key);
    ValuesSingle(SendsSort(sortString), SortByKey, if sortString.Some? then sortString.value else "", key);
  }

  /** Six parts, one per key, of which only the part of `key` is not empty. */
  lemma OnlyPartOfKey(v0: seq<string>, v1: seq<string>, v2: seq<string>, v3: seq<string>,
                      v4: seq<string>, v5: seq<string>, key: ParamKey, e: seq<string>)
    requires v0 == (if key == TextKey then e else []) && v1 == (if key == PriorityKey then e else [])
    requires v2 == (if key == StatusKey then e else []) && v3 == (if key == SizeKey then e else [])
    requires v4 == (if key == PageKey then e else []) && v5 == (if key == SortByKey then e else [])
    ensures v0 + v1 + v2 + v3 + v4 + v5 == e
  {
    match key
    case TextKey => assert v0 + v1 + v2 + v3 + v4 + v5 == e + [] + [] + [] + [] + [];
    case PriorityKey => assert v0 + v1 + v2 + v3 + v4 + v5 == [] + e + [] + [] + [] + [];
    case StatusKey => assert v0 + v1 + v2 + v3 + v4 + v5 == [] + [] + e + [] + [] + [];
    case SizeKey => assert v0 + v1 + v2 + v3 + v4 + v5 == [] + [] + [] + e + [] + [];
    case PageKey => assert v0 + v1 + v2 + v3 + v4 + v5 == [] + [] + [] + [] + e + [];
    case SortByKey => assert v0 + v1 + v2 + v3 + v4 + v5 == [] + [] + [] + [] + [] + e;
  }

  /** What `buildQueryParams` sends: each parameter once, holding its value,
      exactly when its condition holds, and not at all otherwise. */
  lemma QueryPairsValues(filters: Option<Filters>, pagination: Option<PaginationPart>,
                         sortString: Option<string>, key: ParamKey)
    ensures Values(QueryPairs(filters, pagination, sortString), key) == Expected(filters, pagination, sortString, key)
  {
    QueryValuesSplit(filters, pagination, sortString, key);
    FilterPartValues(filters, pagination, sortString, key);
    OtherPartValues(filters, pagination, sortString, key);
    OnlyPartOfKey(Values(TextPair(filters), key), Values(PriorityPair(filters), key),
                  Values(StatusPair(filters), key), Values(SizePair(pagination), key),
                  Values(PagePair(pagination), key), Values(SortPair(sortString), key),
                  key, Expected(filters, pagination, sortString, key));
  }

  lemma KeysSingle(present: bool, k: ParamKey, v: string)
    ensures Keys(Single(present, k, v)) == KeyOf(present, k)
  {
    if present {
      assert [(k, v)][1..] == [];
    }
  }

  lemma QueryKeys(filters: Option<Filters>, pagination: Option<PaginationPart>, sortString: Option<string>)
    ensures Keys(QueryPairs(filters, pagination, sortString))
            == KeyOf(SendsText(filters), TextKey) + KeyOf(SendsPriority(filters), PriorityKey)
               + KeyOf(SendsStatus(filters), StatusKey) + KeyOf(SendsSize(pagination), SizeKey)
               + KeyOf(SendsPage(pagination), PageKey) + KeyOf(SendsSort(sortString), SortByKey)
  {
    KeysOfSix(TextPair(filters), PriorityPair(filters), StatusPair(filters),
              SizePair(pagination), PagePair(pagination), SortPair(sortString));
    FilterPartKeys(filters);
    OtherPartKeys(pagination, sortString);
  }

  lemma FilterPartKeys(filters: Option<Filters>)
    ensures Keys(TextPair(filters)) == KeyOf(SendsText(filters), TextKey)
    ensures Keys(PriorityPair(filters)) == KeyOf(SendsPriority(filters), PriorityKey)
    ensures Keys(StatusPair(filters)) == KeyOf(SendsStatus(filters), StatusKey)
  {
    KeysSingle(SendsText(filters), TextKey, if filters.Some? then filters.value.text else "");
    KeysSingle(SendsPriority(filters), PriorityKey,
               if SendsPriority(filters) then PriorityName(filters.value.priority.p) else "");
    KeysSingle(SendsStatus(filters), StatusKey, if filters.Some? then Lower(StatusName(filters.value.status)) else "");
  }

  lemma OtherPartKeys(pagination: Option<PaginationPart>, sortString: Option<string>)
    ensures Keys(SizePair(pagination)) == KeyOf(SendsSize(pagination), SizeKey)
    ensures Keys(PagePair(pagination)) == KeyOf(SendsPage(pagination), PageKey)
    ensures Keys(SortPair(sortString)) == KeyOf(SendsSort(sortString), SortByKey)
  {
    KeysSingle(SendsSize(pagination), SizeKey,
               if SendsSize(pagination) then IntToString(pagination.value.pageSize.value) else "");
    KeysSingle(SendsPage(pagination), PageKey,
               if SendsPage(pagination) then IntToString(pagination.value.currentPage.value) else "");
    KeysSingle(SendsSort(sortString), SortByKey, if sortString.Some? then sortString.value else "");
  }

  lemma KeysOfSix(a: seq<Param>, b: seq<Param>, c: seq<Param>, d: seq<Param>, e: seq<Param>, f: seq<Param>)
    ensures Keys(a + b + c + d + e + f) == Keys(a) + Keys(b) + Keys(c) + Keys(d) + Keys(e) + Keys(f)
  {
    KeysAppend(a + b + c + d + e, f);
    KeysAppend(a + b + c + d, e);
    KeysAppend(a + b + c, d);
    KeysAppend(a + b, c);
    KeysAppend(a, b);
  }

  /** Any selection of the six keys, taken in order, is a subsequence of `ParamOrder`. */
  lemma KeyOfOrder(b1: bool, b2: bool, b3: bool, b4: bool, b5: bool, b6: bool)
    ensures IsSubsequence(KeyOf(b1, TextKey) + KeyOf(b2, PriorityKey) + KeyOf(b3, StatusKey)
                          + KeyOf(b4, SizeKey) + KeyOf(b5, PageKey) + KeyOf(b6, SortByKey), ParamOrder)
  {
    var k1, k2, k3 := KeyOf(b1, TextKey), KeyOf(b2, PriorityKey), KeyOf(b3, StatusKey);
    var k4, k5, k6 := KeyOf(b4, SizeKey), KeyOf(b5, PageKey), KeyOf(b6, SortByKey);
    var tail := k3 + k4 + k5 + k6;
    KeySuffixOrder(b3, b4, b5, b6);
    AppendAssoc(k1 + k2, k3, k4);
    AppendAssoc(k1 + k2, k3 + k4, k5);
    AppendAssoc(k1 + k2, k3 + k4 + k5, k6);
    AppendAssoc(k1, k2, tail);
    SubsequenceCons(b2, PriorityKey, tail, ParamOrder[2..]);
    assert [PriorityKey] + ParamOrder[2..] == ParamOrder[1..];
    SubsequenceCons(b1, TextKey, k2 + tail, ParamOrder[1..]);
    assert [TextKey] + ParamOrder[1..] == ParamOrder;
  }

  /** The selection from the last four keys, a subsequence of the last four
      entries of `ParamOrder`. */
  lemma KeySuffixOrder(b3: bool, b4: bool, b5: bool, b6: bool)
    ensures IsSubsequence(KeyOf(b3, StatusKey) + KeyOf(b4, SizeKey) + KeyOf(b5, PageKey) + KeyOf(b6, SortByKey),
                          ParamOrder[2..])
  {
    var k3, k4, k5, k6 := KeyOf(b3, StatusKey), KeyOf(b4, SizeKey), KeyOf(b5, PageKey), KeyOf(b6, SortByKey);
    SubsequenceOfEmpty<ParamKey>([]);
    SubsequenceCons(b6, SortByKey, [], []);
    assert k6 + [] == k6;
    SubsequenceCons(b5, PageKey, k6, [SortByKey]);
    SubsequenceCons(b4, SizeKey, k5 + k6, [PageKey, SortByKey]);
    SubsequenceCons(b3, StatusKey, k4 + (k5 + k6), [SizeKey, PageKey, SortByKey]);
    assert ParamOrder[2..] == [StatusKey, SizeKey, PageKey, SortByKey];
    AppendAssoc(k3, k4, k5);
    AppendAssoc(k3, k4 + k5, k6);
    AppendAssoc(k4, k5, k6);
  }

  /** The parameters come in the fixed order text, priority, status, size,
      page, sortBy, each at most once. */
  lemma QueryPairsOrder(filters: Option<Filters>, pagination: Option<PaginationPart>,
                        sortString: Option<string>)
    ensures IsSubsequence(Keys(QueryPairs(filters, pagination, sortString)), ParamOrder)
  {
    QueryKeys(filters, pagination, sortString);
    KeyOfOrder(SendsText(filters), SendsPriority(filters), SendsStatus(filters),
               SendsSize(pagination), SendsPage(pagination), SendsSort(sortString));
  }

  /** The status filter is sent lower-cased: "done" and "undone". */
  lemma StatusParamValues()
    ensures Lower(StatusName(DoneOnly)) == "done"
    ensures Lower(StatusName(UndoneOnly)) == "undone"
  {
    assert Lower("DONE") == "done" by {
      assert forall i :: 0 <= i < 4 ==> Lower("DONE")[i] == "done"[i];
    }
    assert Lower("UNDONE") == "undone" by {
      assert forall i :: 0 <= i < 6 ==> Lower("UNDONE")[i] == "undone"[i];
    }
  }

  /** `fetchTodos()` without arguments sends no query string at all, so the
      backend falls back to its default page and size. */
  lemma NoArgumentsNoQuery()
    ensures QueryPairs(None, None, None) == []
    ensures Render(QueryPairs(None, None, None)) == ""
  {
  }

  // ---------------------------------------------------------------------
  // fetchTodoMetrics
  // ---------------------------------------------------------------------

  /** `todo.done && todo.doneDate`. */
  predicate IsCompleted(t: TodoView) {
    t.done && t.doneDate.Some?
  }

  function Completed(todos: seq<TodoView>): seq<TodoView> {
    Filter(todos, IsCompleted)
  }

  /** Completion time in milliseconds; only taken of completed todos. */
  function DurationMs(t: TodoView): int {
    match t.doneDate
    case Some(d) => d - t.creationDate
    case None => 0
  }

  function SumMs(s: seq<TodoView>): int {
    if s == [] then 0 else SumMs(s[..|s| - 1]) + DurationMs(s[|s| - 1])
  }

  /** The todos of priority `p`, in order. */
  function GroupOf(s: seq<TodoView>, p: Priority): (g: seq<TodoView>)
    ensures |g| <= |s|
  {
    if s == [] then []
    else GroupOf(s[..|s| - 1], p) + (if s[|s| - 1].priority == p then [s[|s| - 1]] else [])
  }

  /** The mean in minutes of `count` durations summing to `sumMs` milliseconds. */
  function MeanMinutes(sumMs: int, count: int): real
    requires count > 0
  {
    (sumMs as real / 60000.0) / count as real
  }

  /** A group's rounded mean, 0 for a group nobody completed. */
  function AverageOf(s: seq<TodoView>, round: real -> int): int {
    if |s| == 0 then 0 else round(MeanMinutes(SumMs(s), |s|))
  }

  const MetricKeys: set<string> := {"LOW", "MEDIUM", "HIGH"}

  /** `{ LOW: low, MEDIUM: medium, HIGH: high }`. */
  function ByName(low: int, medium: int, high: int): (r: map<string, int>)
    ensures r.Keys == MetricKeys
    ensures r["LOW"] == low && r["MEDIUM"] == medium && r["HIGH"] == high
  {
    assert "LOW"[0] != "MEDIUM"[0] && "LOW"[0] != "HIGH"[0] && "MEDIUM"[0] != "HIGH"[0];
    map["LOW" := low, "MEDIUM" := medium, "HIGH" := high]
  }

  const ZeroMetrics: Metrics := Metrics(0, ByName(0, 0, 0))

  /** The metrics snapshot of a page of todos; `round` is the
      `toFixed(0)`-then-`parseFloat` rounding. */
  function MetricsOf(todos: seq<TodoView>, round: real -> int): Metrics {
    var c := Completed(todos);
    if c == [] then ZeroMetrics
    else
      Metrics(AverageOf(c, round),
              ByName(AverageOf(GroupOf(c, LOW), round), AverageOf(GroupOf(c, MEDIUM), round),
                     AverageOf(GroupOf(c, HIGH), round)))
  }

  /** The snapshot holds the three priority keys, each mapped to the rounded
      mean of its completed todos, and the overall rounded mean; with nothing
      completed everything is 0. */
  lemma MetricsContents(todos: seq<TodoView>, round: real -> int)
    ensures var m := MetricsOf(todos, round);
            m.byPriority.Keys == MetricKeys
            && (Completed(todos) == [] ==> m == ZeroMetrics)
            && m.byPriority["LOW"] == AverageOf(GroupOf(Completed(todos), LOW), round)
            && m.byPriority["MEDIUM"] == AverageOf(GroupOf(Completed(todos), MEDIUM), round)
            && m.byPriority["HIGH"] == AverageOf(GroupOf(Completed(todos), HIGH), round)
            && m.averageTime == AverageOf(Completed(todos), round)
  {
    var c := Completed(todos);
    if c == [] {
      assert GroupOf(c, LOW) == [] && GroupOf(c, MEDIUM) == [] && GroupOf(c, HIGH) == [];
    }
  }

  lemma SumMsSnoc(s: seq<TodoView>, x: TodoView)
    ensures SumMs(s + [x]) == SumMs(s) + DurationMs(x)
  {
    assert (s + [x])[..|s|] == s;
  }

  lemma GroupStep(s: seq<TodoView>, i: nat, p: Priority)
    requires i < |s|
    ensures GroupOf(s[..i + 1], p) == GroupOf(s[..i], p) + (if s[i].priority == p then [s[i]] else [])
  {
    assert s[..i + 1][..i] == s[..i];
  }

  /** `completionTimes.reduce((acc, time) => acc + time, 0)`, in milliseconds. */
  method TotalTime(completed: seq<TodoView>) returns (total: int)
    ensures total == SumMs(completed)
  {
    total := 0;
    var i := 0;
    while i < |completed|
      invariant 0 <= i <= |completed|
      invariant total == SumMs(completed[..i])
    {
      SumMsSnoc(completed[..i], completed[i]);
      assert completed[..i + 1] == completed[..i] + [completed[i]];
      total := total + DurationMs(completed[i]);
      i := i + 1;
    }
    assert completed[..i] == completed;
  }

  /** A `{ sum, count }` accumulator per priority: present exactly for the
      priorities some todo has, holding that group's total time and size. */
  ghost predicate Accumulates(acc: map<Priority, (int, int)>, s: seq<TodoView>) {
    forall p :: Accumulated(acc, s, p)
  }

  ghost predicate Accumulated(acc: map<Priority, (int, int)>, s: seq<TodoView>, p: Priority) {
    (p in acc <==> GroupOf(s, p) != []) && (p in acc ==> acc[p] == (SumMs(GroupOf(s, p)), |GroupOf(s, p)|))
  }

  /** Taking one more todo into its priority's accumulator, creating the
      accumulator at `{ sum: 0, count: 0 }` if the priority was not met yet. */
  lemma AccumulateStep(prev: map<Priority, (int, int)>, acc: map<Priority, (int, int)>, s: seq<TodoView>,
                       t: TodoView)
    requires Accumulates(prev, s)
    requires var (sum, count) := if t.priority in prev then prev[t.priority] else (0, 0);
             acc == prev[t.priority := (sum + DurationMs(t), count + 1)]
    ensures Accumulates(acc, s + [t])
  {
    assert (s + [t])[..|s|] == s;
    SumMsSnoc(GroupOf(s, t.priority), t);
    forall q ensures Accumulated(acc, s + [t], q) {
      assert Accumulated(prev, s, q);
      if q == t.priority {
        assert GroupOf(s + [t], q) == GroupOf(s, q) + [t];
      } else {
        assert GroupOf(s + [t], q) == GroupOf(s, q);
      }
    }
  }

  /** `completedTodos.reduce(...)` into the per-priority accumulators. */
  method Accumulate(completed: seq<TodoView>) returns (acc: map<Priority, (int, int)>)
    ensures Accumulates(acc, completed)
  {
    acc := map[];
    var i := 0;
    while i < |completed|
      invariant 0 <= i <= |completed|
      invariant Accumulates(acc, completed[..i])
    {
      var t := completed[i];
      ghost var prev, seen := acc, completed[..i];
      assert completed[..i + 1] == seen + [t];
      if t.priority !in acc {
        acc := acc[t.priority := (0, 0)];
      }
      acc := acc[t.priority := (acc[t.priority].0 + DurationMs(t), acc[t.priority].1 + 1)];
      AccumulateStep(prev, acc, seen, t);
      i := i + 1;
    }
    assert completed[..i] == completed;
  }

  /** The average under `p`, or the default 0 when `p` has none. */
  function OrZero(averages: map<Priority, int>, p: Priority): int {
    if p in averages then averages[p] else 0
  }

  /** `Object.entries(acc).reduce(...)`: the rounded mean of each group met. */
  method Averages(acc: map<Priority, (int, int)>, completed: seq<TodoView>, round: real -> int)
    returns (averages: map<Priority, int>)
    requires Accumulates(acc, completed)
    ensures averages.Keys == acc.Keys
    ensures forall p :: p in averages ==> averages[p] == AverageOf(GroupOf(completed, p), round)
  {
    averages := map[];
    var pending := acc.Keys;
    while pending != {}
      invariant pending <= acc.Keys
      invariant forall p :: p in averages <==> p in acc && p !in pending
      invariant forall p :: p in averages ==> averages[p] == AverageOf(GroupOf(completed, p), round)
      decreases |pending|
    {
      var p :| p in pending;
      var entry := acc[p];
      var average := if entry.1 > 0 then round(MeanMinutes(entry.0, entry.1)) else 0;
      AverageOfGroup(acc, completed, p, round);
      averages := averages[p := average];
      pending := pending - {p};
    }
  }

  /** The accumulator of a group met gives that group's rounded mean. */
  lemma AverageOfGroup(acc: map<Priority, (int, int)>, completed: seq<TodoView>, p: Priority, round: real -> int)
    requires Accumulates(acc, completed) && p in acc
    ensures (if acc[p].1 > 0 then round(MeanMinutes(acc[p].0, acc[p].1)) else 0)
            == AverageOf(GroupOf(completed, p), round)
  {
    assert Accumulated(acc, completed, p);
  }

  /** Once every group met has its average, the default 0 of the others is
      their average too. */
  lemma DefaultsAreAverages(acc: map<Priority, (int, int)>, averages: map<Priority, int>,
                            completed: seq<TodoView>, round: real -> int)
    requires Accumulates(acc, completed) && averages.Keys == acc.Keys
    requires forall p :: p in averages ==> averages[p] == AverageOf(GroupOf(completed, p), round)
    ensures OrZero(averages, LOW) == AverageOf(GroupOf(completed, LOW), round)
    ensures OrZero(averages, MEDIUM) == AverageOf(GroupOf(completed, MEDIUM), round)
    ensures OrZero(averages, HIGH) == AverageOf(GroupOf(completed, HIGH), round)
  {
    forall p | p !in averages ensures AverageOf(GroupOf(completed, p), round) == 0 {
      assert Accumulated(acc, completed, p);
    }
  }

  /** `fetchTodoMetrics` on the page it fetched: the two `reduce` passes and
      the conversion to averages. */
  method ComputeMetrics(page: PageView, round: real -> int) returns (m: Metrics)
    ensures m == MetricsOf(page.data, round)
  {
    var completed := Filter(page.data, IsCompleted);
    if |completed| == 0 {
      m := ZeroMetrics;
      return;
    }
    var total := TotalTime(completed);
    var averageTime := round(MeanMinutes(total, |completed|));
    var acc := Accumulate(completed);
    var averages := Averages(acc, completed, round);
    DefaultsAreAverages(acc, averages, completed, round);
    // `{ LOW: 0, MEDIUM: 0, HIGH: 0, ...averages }`
    var byPriority := ByName(OrZero(averages, LOW), OrZero(averages, MEDIUM), OrZero(averages, HIGH));
    m := Metrics(averageTime, byPriority);
  }

  /** The three priority groups split the completed todos: their sizes and
      their total times add up to those of all completed todos. */
  lemma {:induction false} GroupsPartition(s: seq<TodoView>)
    ensures |GroupOf(s, LOW)| + |GroupOf(s, MEDIUM)| + |GroupOf(s, HIGH)| == |s|
    ensures SumMs(GroupOf(s, LOW)) + SumMs(GroupOf(s, MEDIUM)) + SumMs(GroupOf(s, HIGH)) == SumMs(s)
  {
    if s != [] {
      var n := |s| - 1;
      var x := s[n];
      GroupsPartition(s[..n]);
      assert s[..n + 1] == s;
      GroupStep(s, n, LOW);
      GroupStep(s, n, MEDIUM);
      GroupStep(s, n, HIGH);
      var low, medium, high := GroupOf(s[..n], LOW), GroupOf(s[..n], MEDIUM), GroupOf(s[..n], HIGH);
      assert SumMs(s) == SumMs(s[..n]) + DurationMs(x);
      match x.priority
      case LOW =>
        SumMsSnoc(low, x);
        assert GroupOf(s, LOW) == low + [x];
        assert GroupOf(s, MEDIUM) == medium && GroupOf(s, HIGH) == high;
      case MEDIUM =>
        SumMsSnoc(medium, x);
        assert GroupOf(s, MEDIUM) == medium + [x];
        assert GroupOf(s, LOW) == low && GroupOf(s, HIGH) == high;
      case HIGH =>
        SumMsSnoc(high, x);
        assert GroupOf(s, HIGH) == high + [x];
        assert GroupOf(s, LOW) == low && GroupOf(s, MEDIUM) == medium;
    }
  }

  /** Todos that are not completed do not move the metrics. */
  lemma MetricsIgnoreOpen(todos: seq<TodoView>, open: seq<TodoView>, round: real -> int)
    requires forall i :: 0 <= i < |open| ==> !IsCompleted(open[i])
    ensures MetricsOf(todos + open, round) == MetricsOf(todos, round)
    ensures MetricsOf(open + todos, round) == MetricsOf(todos, round)
  {
    FilterAppend(todos, open, IsCompleted);
    FilterAppend(open, todos, IsCompleted);
    FilterDropsAll(open, IsCompleted);
    assert Completed(todos + open) == Completed(todos);
    assert Completed(open + todos) == Completed(todos);
  }

  /** One medium-priority todo finished 19 minutes after it was created gives
      19 minutes overall and for MEDIUM, and 0 for the other priorities. */
  lemma NineteenMinuteExample(round: real -> int)
    requires round(19.0) == 19
    ensures MetricsOf([TodoView(1, "Task", None, true, Some(1140000), MEDIUM, 0)], round)
            == Metrics(19, map["LOW" := 0, "MEDIUM" := 19, "HIGH" := 0])
  {
    var t := TodoView(1, "Task", None, true, Some(1140000), MEDIUM, 0);
    assert Completed([t]) == [t] by {
      assert Filter([t][1..], IsCompleted) == [];
    }
    assert GroupOf([t], MEDIUM) == [t] by {
      assert [t][..0] == [];
    }
    assert GroupOf([t], LOW) == [] by {
      assert [t][..0] == [];
    }
    assert GroupOf([t], HIGH) == [] by {
      assert [t][..0] == [];
    }
    assert SumMs([t]) == 1140000 by {
      assert [t][..0] == [];
    }
    assert MeanMinutes(1140000, 1) == 19.0;
  }
}
