/** The listing pipeline of `TodoService.getAllTodos`: reading the `sortBy`
    parameter, the lexicographic comparator, the stable sort and the
    `skip`/`limit` page cut. */
module TodoQuery {
  import opened Wrappers
  import opened Seqs
  import opened Text
  import opened TodoEntity

  /** The exceptions the service layer lets escape. */
  datatype ServiceError =
    | TextMissing          // `NullPointerException` from `getText().length()`
    | TextTooLong          // "Text cannot be longer than 120 characters"
    | PriorityMissing      // "Priority cannot be null"
    | TextRejected         // `setText`'s "Text is required and must not exceed 120 characters"
    | NotFound(id: int)    // "Todo not found with id: " + id
    | NegativeSkip(n: int) // `Stream.skip` with a negative count
    | NegativeLimit(n: int) // `Stream.limit` with a negative count

  // ---------------------------------------------------------------------
  // parseSortBy
  // ---------------------------------------------------------------------

  datatype SortCriterion = SortCriterion(field: string, ascending: bool)

  /** One `field_direction` token. Only a token that splits into exactly two
      parts is a criterion; any direction other than "asc" is descending. */
  function CriterionOf(token: string): (c: Option<SortCriterion>)
    ensures c.Some? <==> |JavaSplit(token, '_')| == 2
    ensures c.Some? ==> Lower(c.value.field) == c.value.field
  {
    var parts := JavaSplit(token, '_');
    if |parts| != 2 then None
    else
      LowerIdempotent(parts[0]);
      Some(SortCriterion(Lower(parts[0]), Lower(parts[1]) == "asc"))
  }

  /** The criteria of the well-formed tokens, in token order. */
  function CriteriaOf(tokens: seq<string>): (cs: seq<SortCriterion>)
    ensures |cs| <= |tokens|
    ensures forall i :: 0 <= i < |cs| ==> Lower(cs[i].field) == cs[i].field
  {
    if tokens == [] then []
    else
      var rest := CriteriaOf(tokens[1..]);
      match CriterionOf(tokens[0])
      case None => rest
      case Some(c) => [c] + rest
  }

  /** `parseSortBy`: a missing or blank parameter gives no criteria; otherwise
      the `-`-separated tokens are read one by one and malformed ones dropped. */
  function ParseSortBy(sortBy: Option<string>): (cs: seq<SortCriterion>)
    ensures sortBy.None? || IsJavaBlank(sortBy.value) ==> cs == []
    ensures sortBy.Some? ==> |cs| <= |JavaSplit(sortBy.value, '-')|
    ensures forall i :: 0 <= i < |cs| ==> Lower(cs[i].field) == cs[i].field
  {
    if sortBy.None? || IsJavaBlank(sortBy.value) then []
    else CriteriaOf(JavaSplit(sortBy.value, '-'))
  }

  /** A token `field_direction` whose parts hold no underscore and whose
      direction is not empty reads as the lower-cased field, ascending exactly
      when the direction is "asc" in any case. */
  lemma CriterionOfToken(field: string, direction: string)
    requires '_' !in field && '_' !in direction && direction != []
    ensures CriterionOf(field + "_" + direction)
            == Some(SortCriterion(Lower(field), Lower(direction) == "asc"))
  {
    var parts := [field, direction];
    assert Join(parts, "_") == field + "_" + direction by {
      assert Join(parts[1..], "_") == direction;
    }
    JavaSplitJoin(parts, '_');
  }

  /** A token without an underscore is ignored. */
  lemma CriterionOfBareToken(token: string)
    requires '_' !in token
    ensures CriterionOf(token) == None
  {
  }

  /** A token with three underscore-separated parts, such as "due_date_asc",
      is ignored. */
  lemma CriterionOfThreeParts(a: string, b: string, c: string)
    requires '_' !in a + b + c && c != []
    ensures CriterionOf(a + "_" + b + "_" + c) == None
  {
    assert '_' !in a && '_' !in b && '_' !in c by {
      assert forall x :: x in a || x in b || x in c ==> x in a + b + c;
    }
    var parts := [a, b, c];
    assert Join(parts, "_") == a + "_" + b + "_" + c by {
      assert Join(parts[1..], "_") == b + "_" + c by {
        assert Join(parts[2..], "_") == c;
      }
    }
    JavaSplitJoin(parts, '_');
  }

  /** A token ending in its only underscore, such as "priority_", is ignored:
      Java's `split` discards the empty direction and leaves one part. */
  lemma CriterionOfTrailingUnderscore(a: string)
    requires '_' !in a
    ensures CriterionOf(a + "_") == None
  {
    SplitAfterPrefix(a, '_', "");
    assert a + "_" == a + ['_'] + "";
    assert '_' in a + "_";
  }

  /** The `-`-joined form of a list of tokens parses token by token. */
  lemma ParseSortByTokens(tokens: seq<string>)
    requires |tokens| >= 1 && tokens[|tokens| - 1] != []
    requires forall k :: 0 <= k < |tokens| ==> '-' !in tokens[k]
    requires !IsJavaBlank(Join(tokens, "-"))
    ensures ParseSortBy(Some(Join(tokens, "-"))) == CriteriaOf(tokens)
  {
    JavaSplitJoin(tokens, '-');
  }

  // ---------------------------------------------------------------------
  // The comparator
  // ---------------------------------------------------------------------

  /** `PRIORITY_VALUES`. A todo without a priority has no entry; Java throws
      there, and the service never stores such a todo. */
  function PriorityValue(p: Option<Priority>): int {
    match p
    case Some(HIGH) => 3
    case Some(MEDIUM) => 2
    case Some(LOW) => 1
    case None => 0
  }

  /** The sign of `Integer.compare` and `LocalDateTime.compareTo`. */
  function IntCompare(a: int, b: int): int {
    if a < b then -1 else if a > b then 1 else 0
  }

  /** Due dates in the criterion's order: ascending puts missing dates last,
      descending puts them first. */
  predicate DueBefore(x: Option<DateTime>, y: Option<DateTime>, ascending: bool) {
    if ascending then x.Some? && (y.None? || x.value < y.value)
    else y.Some? && (x.None? || x.value > y.value)
  }

  /** One criterion of the comparator: "priority" and "duedate" order, any other field ties. */
  function CompareBy(c: SortCriterion, a: TodoRecord, b: TodoRecord): (r: int)
    ensures -1 <= r <= 1
    ensures c.field == "priority" ==>
              (r == 0 <==> PriorityValue(a.priority) == PriorityValue(b.priority))
              && (r < 0 <==> if c.ascending then PriorityValue(a.priority) < PriorityValue(b.priority)
                             else PriorityValue(a.priority) > PriorityValue(b.priority))
    ensures c.field == "duedate" ==>
              (r == 0 <==> a.dueDate == b.dueDate)
              && (r < 0 <==> DueBefore(a.dueDate, b.dueDate, c.ascending))
    ensures c.field != "priority" && c.field != "duedate" ==> r == 0
  {
    if c.field == "priority" then
      var r := IntCompare(PriorityValue(a.priority), PriorityValue(b.priority));
      if c.ascending then r else -r
    else if c.field == "duedate" then
      if a.dueDate.None? && b.dueDate.None? then 0
      else if a.dueDate.None? then (if c.ascending then 1 else -1)
      else if b.dueDate.None? then (if c.ascending then -1 else 1)
      else
        var r := IntCompare(a.dueDate.value, b.dueDate.value);
        if c.ascending then r else -r
    else 0
  }

  /** The comparator: the first criterion that does not tie decides. */
  function Compare(cs: seq<SortCriterion>, a: TodoRecord, b: TodoRecord): (r: int)
    ensures -1 <= r <= 1
  {
    if cs == [] then 0
    else
      var r := CompareBy(cs[0], a, b);
      if r != 0 then r else Compare(cs[1..], a, b)
  }

  /** Two todos tie exactly when every criterion ties; otherwise the outcome is
      that of the first criterion that does not tie. */
  lemma {:induction false} CompareIsLexicographic(cs: seq<SortCriterion>, a: TodoRecord, b: TodoRecord)
    ensures Compare(cs, a, b) == 0 <==> forall i :: 0 <= i < |cs| ==> CompareBy(cs[i], a, b) == 0
    ensures Compare(cs, a, b) != 0 ==>
              exists k :: 0 <= k < |cs| && Compare(cs, a, b) == CompareBy(cs[k], a, b)
                          && forall i :: 0 <= i < k ==> CompareBy(cs[i], a, b) == 0
  {
    if cs != [] {
      CompareIsLexicographic(cs[1..], a, b);
      assert forall i :: 1 <= i < |cs| ==> cs[i] == cs[1..][i - 1];
      if CompareBy(cs[0], a, b) == 0 && Compare(cs, a, b) != 0 {
        var k :| 0 <= k < |cs[1..]| && Compare(cs[1..], a, b) == CompareBy(cs[1..][k], a, b)
                 && forall i :: 0 <= i < k ==> CompareBy(cs[1..][i], a, b) == 0;
        assert Compare(cs, a, b) == CompareBy(cs[k + 1], a, b);
      }
    }
  }

  lemma CompareByFlip(c: SortCriterion, a: TodoRecord, b: TodoRecord)
    ensures CompareBy(c, b, a) == -CompareBy(c, a, b)
  {
  }

  lemma CompareByChain(c: SortCriterion, a: TodoRecord, b: TodoRecord, d: TodoRecord)
    ensures CompareBy(c, a, b) == 0 && CompareBy(c, b, d) == 0 ==> CompareBy(c, a, d) == 0
    ensures CompareBy(c, a, b) < 0 && CompareBy(c, b, d) <= 0 ==> CompareBy(c, a, d) < 0
    ensures CompareBy(c, a, b) <= 0 && CompareBy(c, b, d) < 0 ==> CompareBy(c, a, d) < 0
  {
  }

  /** Swapping the arguments negates the comparison. */
  lemma {:induction false} CompareFlip(cs: seq<SortCriterion>, a: TodoRecord, b: TodoRecord)
    ensures Compare(cs, b, a) == -Compare(cs, a, b)
  {
    if cs != [] {
      CompareByFlip(cs[0], a, b);
      CompareFlip(cs[1..], a, b);
    }
  }

  /** The comparator is transitive, both for ties and for "not after". */
  lemma {:induction false} CompareChain(cs: seq<SortCriterion>, a: TodoRecord, b: TodoRecord, d: TodoRecord)
    ensures Compare(cs, a, b) == 0 && Compare(cs, b, d) == 0 ==> Compare(cs, a, d) == 0
    ensures Compare(cs, a, b) <= 0 && Compare(cs, b, d) <= 0 ==> Compare(cs, a, d) <= 0
  {
    if cs != [] {
      CompareByChain(cs[0], a, b, d);
      CompareChain(cs[1..], a, b, d);
    }
  }

  // ---------------------------------------------------------------------
  // The stable sort of `Stream.sorted`
  // ---------------------------------------------------------------------

  /** Each todo is placed no later than any todo it does not come after. */
  predicate SortedBy(cs: seq<SortCriterion>, s: seq<TodoRecord>) {
    forall i, j :: 0 <= i < j < |s| ==> Compare(cs, s[i], s[j]) <= 0
  }

  predicate AdjacentSortedBy(cs: seq<SortCriterion>, s: seq<TodoRecord>) {
    forall i :: 0 <= i < |s| - 1 ==> Compare(cs, s[i], s[i + 1]) <= 0
  }

  /** `x` placed before the first todo it does not come after. */
  function Insert(cs: seq<SortCriterion>, x: TodoRecord, l: seq<TodoRecord>): (r: seq<TodoRecord>)
    ensures |r| == |l| + 1 && multiset(r) == multiset(l) + multiset{x}
    ensures r[0] == x || (l != [] && r[0] == l[0])
  {
    if l == [] || Compare(cs, x, l[0]) <= 0 then [x] + l
    else
      var rest := Insert(cs, x, l[1..]);
      assert l == [l[0]] + l[1..];
      [l[0]] + rest
  }

  /** Inserting into a sorted sequence keeps it sorted. */
  lemma {:induction false} InsertKeepsSorted(cs: seq<SortCriterion>, x: TodoRecord, l: seq<TodoRecord>)
    requires AdjacentSortedBy(cs, l)
    ensures AdjacentSortedBy(cs, Insert(cs, x, l))
  {
    var r := Insert(cs, x, l);
    if l == [] || Compare(cs, x, l[0]) <= 0 {
      forall i | 0 <= i < |r| - 1 ensures Compare(cs, r[i], r[i + 1]) <= 0 {
        if i > 0 {
          assert r[i] == l[i - 1] && r[i + 1] == l[i];
        }
      }
    } else {
      var tail := l[1..];
      assert AdjacentSortedBy(cs, tail) by {
        forall i | 0 <= i < |tail| - 1 ensures Compare(cs, tail[i], tail[i + 1]) <= 0 {
          assert tail[i] == l[i + 1] && tail[i + 1] == l[i + 2];
        }
      }
      var rest := Insert(cs, x, tail);
      InsertKeepsSorted(cs, x, tail);
      CompareFlip(cs, x, l[0]);
      assert r == [l[0]] + rest;
      forall i | 0 <= i < |r| - 1 ensures Compare(cs, r[i], r[i + 1]) <= 0 {
        if i > 0 {
          assert r[i] == rest[i - 1] && r[i + 1] == rest[i];
        }
      }
    }
  }

  /** The sorted order `Stream.sorted` produces with the comparator. */
  function Sort(cs: seq<SortCriterion>, s: seq<TodoRecord>): (r: seq<TodoRecord>)
    ensures multiset(r) == multiset(s) && |r| == |s|
    ensures AdjacentSortedBy(cs, r)
  {
    if s == [] then []
    else
      assert s == [s[0]] + s[1..];
      InsertKeepsSorted(cs, s[0], Sort(cs, s[1..]));
      Insert(cs, s[0], Sort(cs, s[1..]))
  }

  /** Ordering neighbours orders every pair. */
  lemma {:induction false} AdjacentSortedIsSorted(cs: seq<SortCriterion>, s: seq<TodoRecord>)
    requires AdjacentSortedBy(cs, s)
    ensures SortedBy(cs, s)
  {
    if |s| > 1 {
      AdjacentSortedIsSorted(cs, s[1..]);
      forall j | 1 < j < |s| ensures Compare(cs, s[0], s[j]) <= 0 {
        assert Compare(cs, s[1], s[j]) <= 0 by { assert s[1] == s[1..][0] && s[j] == s[1..][j - 1]; }
        CompareChain(cs, s[0], s[1], s[j]);
      }
      forall i, j | 0 <= i < j < |s| ensures Compare(cs, s[i], s[j]) <= 0 {
        if i > 0 { assert s[i] == s[1..][i - 1] && s[j] == s[1..][j - 1]; }
      }
    }
  }

  /** The sort returns an ordered permutation. */
  lemma SortIsOrderedPermutation(cs: seq<SortCriterion>, s: seq<TodoRecord>)
    ensures multiset(Sort(cs, s)) == multiset(s)
    ensures SortedBy(cs, Sort(cs, s))
  {
    AdjacentSortedIsSorted(cs, Sort(cs, s));
  }

  /** An already ordered list is left as it is. */
  lemma {:induction false} SortKeepsOrderedInput(cs: seq<SortCriterion>, s: seq<TodoRecord>)
    requires AdjacentSortedBy(cs, s)
    ensures Sort(cs, s) == s
  {
    if s != [] {
      assert AdjacentSortedBy(cs, s[1..]) by {
        forall i | 0 <= i < |s[1..]| - 1 ensures Compare(cs, s[1..][i], s[1..][i + 1]) <= 0 {
          assert s[1..][i] == s[i + 1] && s[1..][i + 1] == s[i + 2];
        }
      }
      SortKeepsOrderedInput(cs, s[1..]);
      assert s == [s[0]] + s[1..];
    }
  }

  /** Without criteria every pair ties, so the stored order is kept. */
  lemma NoCriteriaKeepsOrder(s: seq<TodoRecord>)
    ensures Sort([], s) == s
  {
    SortKeepsOrderedInput([], s);
  }

  /** The todos tying with `y`. */
  function TiesWith(cs: seq<SortCriterion>, s: seq<TodoRecord>, y: TodoRecord): seq<TodoRecord> {
    Filter(s, TieTest(cs, y))
  }

  function TieTest(cs: seq<SortCriterion>, y: TodoRecord): TodoRecord -> bool {
    e => Compare(cs, e, y) == 0
  }

  lemma {:induction false} InsertIsStable(cs: seq<SortCriterion>, x: TodoRecord, l: seq<TodoRecord>, y: TodoRecord)
    ensures TiesWith(cs, Insert(cs, x, l), y) == TiesWith(cs, [x] + l, y)
  {
    var p := TieTest(cs, y);
    if l != [] && Compare(cs, x, l[0]) > 0 {
      InsertIsStable(cs, x, l[1..], y);
      FilterAppend([l[0]], Insert(cs, x, l[1..]), p);
      FilterAppend([x], l[1..], p);
      FilterAppend([l[0]], [x] + l[1..], p);
      FilterAppend([x], l, p);
      FilterAppend([l[0]], l[1..], p);
      assert l == [l[0]] + l[1..];
      assert [x] + l == [x] + ([l[0]] + l[1..]);
      assert !(p(x) && p(l[0])) by {
        if p(x) && p(l[0]) {
          CompareFlip(cs, l[0], y);
          CompareChain(cs, x, y, l[0]);
        }
      }
    }
  }

  /** The sort is stable: the todos tying with any given one keep their relative order. */
  lemma {:induction false} SortIsStable(cs: seq<SortCriterion>, s: seq<TodoRecord>, y: TodoRecord)
    ensures TiesWith(cs, Sort(cs, s), y) == TiesWith(cs, s, y)
  {
    if s != [] {
      var p := TieTest(cs, y);
      var rest := Sort(cs, s[1..]);
      assert s == [s[0]] + s[1..];
      calc {
        TiesWith(cs, Sort(cs, s), y);
        Filter(Insert(cs, s[0], rest), p);
        { InsertIsStable(cs, s[0], rest, y); }
        Filter([s[0]] + rest, p);
        { FilterAppend([s[0]], rest, p); }
        Filter([s[0]], p) + Filter(rest, p);
        { SortIsStable(cs, s[1..], y); }
        Filter([s[0]], p) + Filter(s[1..], p);
        { FilterAppend([s[0]], s[1..], p); }
        Filter(s, p);
      }
    }
  }

  // ---------------------------------------------------------------------
  // skip(page * size).limit(size)
  // ---------------------------------------------------------------------

  function Min(a: int, b: int): int { if a <= b then a else b }

  /** `skip(n).limit(m)`: both counts must be non-negative. */
  function Slice<T>(s: seq<T>, n: int, m: int): (r: Result<seq<T>, ServiceError>)
    ensures r.Err? <==> n < 0 || m < 0
    ensures n < 0 ==> r == Err(NegativeSkip(n))
    ensures 0 <= n && m < 0 ==> r == Err(NegativeLimit(m))
    ensures r.Ok? ==> |r.value| == Min(m, if n <= |s| then |s| - n else 0)
                      && forall i :: 0 <= i < |r.value| ==> r.value[i] == s[n + i]
  {
    if n < 0 then Err(NegativeSkip(n))
    else if m < 0 then Err(NegativeLimit(m))
    else
      var from := Min(n, |s|);
      Ok(s[from..Min(from + m, |s|)])
  }

  /** Two adjacent windows of one size make up the double-size window at the first one. */
  lemma AdjacentWindows<T>(s: seq<T>, n: nat, size: nat)
    ensures Slice(s, n, size).value + Slice(s, n + size, size).value == Slice(s, n, 2 * size).value
  {
    var a := Slice(s, n, size).value;
    var b := Slice(s, n + size, size).value;
    var c := Slice(s, n, 2 * size).value;
    assert |a + b| == |c|;
    forall i | 0 <= i < |c| ensures (a + b)[i] == c[i] {
      if i >= |a| {
        assert |a| == size;
      }
    }
  }

  /** Two consecutive pages of one size are the double-size window at the first one. */
  lemma ConsecutivePages<T>(s: seq<T>, page: nat, size: nat)
    ensures Slice(s, page * size, size).value + Slice(s, (page + 1) * size, size).value
            == Slice(s, page * size, 2 * size).value
  {
    assert (page + 1) * size == page * size + size;
    AdjacentWindows(s, page * size, size);
  }
}
