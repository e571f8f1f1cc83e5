/**
 The query for the last key of the next chunk, in its two forms.
 */
module RangeEnd {
  import opened Wrappers
  import opened Keys
  import opened Projection
  import opened RangePredicate
  import opened Ordering
  import opened RangeQuery

  /** `Offset`: the row after the first `skip` ones. `Last`: the last of the first `limit` ones. */
  datatype Pick = Offset(skip: int) | Last(limit: int)

  /** Keys of a union whose parts may each be ordered and limited, ordered, and one of them picked. */
  datatype EndQuery = EndQuery(query: Query, partLimit: Option<int>, pick: Pick)

  // ----- what the query answers on a table

  function Project(rows: seq<TableRow>, columns: seq<string>): (keys: seq<Key>)
    requires RowsHave(rows, columns)
    ensures |keys| == |rows|
  {
    if rows == [] then [] else [KeyOf(rows[0], columns)] + Project(rows[1..], columns)
  }

  lemma {:induction false} FilterHas(p: Pred, table: seq<TableRow>, args: seq<Value>, columns: seq<string>)
    requires |args| == Holes(p) && RowsHave(table, columns)
    ensures RowsHave(Filter(p, table, args), columns)
  {
    if table != [] {
      FilterHas(p, table[1..], args, columns);
    }
  }

  function Parts(selects: seq<Pred>, table: seq<TableRow>, args: seq<Value>, columns: seq<string>): seq<seq<Key>>
    requires |args| == HolesOf(selects) && RowsHave(table, columns)
  {
    if selects == [] then []
    else
      var h := Holes(selects[0]);
      FilterHas(selects[0], table, args[..h], columns);
      [Project(Filter(selects[0], table, args[..h]), columns)] + Parts(selects[1..], table, args[h..], columns)
  }

  function Picked(pick: Pick, ordered: seq<Key>): Option<Key> {
    match pick
    case Offset(skip) => if 0 <= skip < |ordered| then Some(ordered[skip]) else None
    case Last(limit) =>
      if limit <= 0 || ordered == [] then None
      else Some(ordered[(if limit < |ordered| then limit else |ordered|) - 1])
  }

  function Answer(q: EndQuery, table: seq<TableRow>, columns: seq<string>): Option<Key>
    requires |q.query.args| == HolesOf(q.query.selects) && RowsHave(table, columns)
    requires q.partLimit.Some? ==> q.partLimit.value >= 0
  {
    var parts := Parts(q.query.selects, table, q.query.args, columns);
    Picked(q.pick, Sort(if q.partLimit.Some? then Limited(parts, q.partLimit.value) else Concat(parts)))
  }

  // ----- what it ought to answer

  lemma {:induction false} IntervalHas(table: seq<TableRow>, columns: seq<string>, start: Key, inclusive: bool,
                                       end: Key)
    ensures RowsHave(Interval(table, columns, start, inclusive, end), columns)
  {
    if table != [] {
      IntervalHas(table[1..], columns, start, inclusive, end);
    }
  }

  /** The table's keys in the interval, in order. */
  function IntervalKeys(table: seq<TableRow>, columns: seq<string>, start: Key, inclusive: bool, end: Key): seq<Key> {
    IntervalHas(table, columns, start, inclusive, end);
    Sort(Project(Interval(table, columns, start, inclusive, end), columns))
  }

  /** How many rows of the table lie in the interval before `k`, or up to it. */
  function CountTo(table: seq<TableRow>, columns: seq<string>, start: Key, inclusive: bool, end: Key, k: Key,
                   upTo: bool): nat {
    if table == [] then 0
    else
      var rest := CountTo(table[1..], columns, start, inclusive, end, k, upTo);
      if InInterval(table[0], columns, start, inclusive, end) &&
         (if upTo then Leq(KeyOf(table[0], columns), k) else Less(KeyOf(table[0], columns), k)) then rest + 1
      else rest
  }

  /** `k` is key number `m` of the interval: with fewer rows before it, and as many up to it. */
  predicate IsNumber(table: seq<TableRow>, columns: seq<string>, start: Key, inclusive: bool, end: Key, m: int, k: Key)
  {
    && (exists i :: 0 <= i < |table| && InInterval(table[i], columns, start, inclusive, end) &&
                    KeyOf(table[i], columns) == k)
    && CountTo(table, columns, start, inclusive, end, k, false) < m
    && m <= CountTo(table, columns, start, inclusive, end, k, true)
  }

  /** The answer is key number `n`, or the last key if there are fewer and `atMost`; none if there is no such key. */
  predicate IsEnd(answer: Option<Key>, table: seq<TableRow>, columns: seq<string>, start: Key, inclusive: bool,
                  end: Key, n: int, atMost: bool) {
    var count := |Interval(table, columns, start, inclusive, end)|;
    var m := if atMost && count < n then count else n;
    if 1 <= m <= count then answer.Some? && IsNumber(table, columns, start, inclusive, end, m, answer.value)
    else answer.None?
  }

  /** On every table the query answers with that key. */
  ghost predicate FindsEnd(q: EndQuery, n: int, atMost: bool, columns: seq<string>, start: Key, inclusive: bool,
                           end: Key) {
    && |q.query.args| == HolesOf(q.query.selects)
    && (q.partLimit.Some? ==> q.partLimit.value >= 0)
    && forall table | RowsHave(table, columns) ::
      IsEnd(Answer(q, table, columns), table, columns, start, inclusive, end, n, atMost)
  }

  // ----- the picked key is that key

  function Counted(keys: seq<Key>, k: Key, upTo: bool): nat {
    if keys == [] then 0
    else if (if upTo then Leq(keys[0], k) else Less(keys[0], k)) then Counted(keys[1..], k, upTo) + 1
    else Counted(keys[1..], k, upTo)
  }

  lemma {:induction false} CountedProject(table: seq<TableRow>, columns: seq<string>, start: Key, inclusive: bool,
                                          end: Key, k: Key, upTo: bool)
    ensures RowsHave(Interval(table, columns, start, inclusive, end), columns)
    ensures Counted(Project(Interval(table, columns, start, inclusive, end), columns), k, upTo) ==
            CountTo(table, columns, start, inclusive, end, k, upTo)
  {
    if table != [] {
      CountedProject(table[1..], columns, start, inclusive, end, k, upTo);
    }
  }

  lemma {:induction false} CountedMerge(a: seq<Key>, b: seq<Key>, k: Key, upTo: bool)
    ensures Counted(Merge(a, b), k, upTo) == Counted(a, k, upTo) + Counted(b, k, upTo)
    decreases |a| + |b|
  {
    if a != [] && b != [] {
      if Leq(a[0], b[0]) {
        CountedMerge(a[1..], b, k, upTo);
        assert ([a[0]] + Merge(a[1..], b))[1..] == Merge(a[1..], b);
      } else {
        CountedMerge(a, b[1..], k, upTo);
        assert ([b[0]] + Merge(a, b[1..]))[1..] == Merge(a, b[1..]);
      }
    }
  }

  lemma {:induction false} CountedSort(keys: seq<Key>, k: Key, upTo: bool)
    ensures Counted(Sort(keys), k, upTo) == Counted(keys, k, upTo)
  {
    if keys != [] {
      CountedSort(keys[1..], k, upTo);
      CountedMerge([keys[0]], Sort(keys[1..]), k, upTo);
    }
  }

  /** At least the first `m` keys count. */
  lemma {:induction false} CountedFirst(keys: seq<Key>, m: nat, k: Key, upTo: bool)
    requires m <= |keys| && forall i | 0 <= i < m :: if upTo then Leq(keys[i], k) else Less(keys[i], k)
    ensures m <= Counted(keys, k, upTo)
  {
    if m > 0 {
      assert forall i | 0 <= i < m - 1 :: keys[1..][i] == keys[i + 1];
      CountedFirst(keys[1..], m - 1, k, upTo);
    }
  }

  /** Only the first `m` keys count. */
  lemma {:induction false} CountedOnly(keys: seq<Key>, m: nat, k: Key, upTo: bool)
    requires m <= |keys| && forall i | m <= i < |keys| :: !(if upTo then Leq(keys[i], k) else Less(keys[i], k))
    ensures Counted(keys, k, upTo) <= m
  {
    if keys != [] {
      var rest := if m > 0 then m - 1 else 0;
      assert forall i | rest <= i < |keys| - 1 :: keys[1..][i] == keys[i + 1];
      CountedOnly(keys[1..], rest, k, upTo);
    }
  }

  /** In a sorted sequence the counts say where a key stands. */
  lemma SortedNumber(keys: seq<Key>, m: nat, k: Key)
    requires Sorted(keys) && 1 <= m <= |keys|
    ensures keys[m - 1] == k <==> Counted(keys, k, false) < m <= Counted(keys, k, true)
  {
    var e := keys[m - 1];
    LessTotal(e, k);
    forall i | 0 <= i < m ensures Leq(keys[i], e) {
    }
    forall i | m - 1 <= i < |keys| ensures Leq(e, keys[i]) {
    }
    if e == k {
      CountedFirst(keys, m, k, true);
      forall i | m - 1 <= i < |keys| ensures !Less(keys[i], k) {
        NotLeqIsGreater(k, keys[i]);
      }
      CountedOnly(keys, m - 1, k, false);
    } else if Less(e, k) {
      forall i | 0 <= i < m ensures Less(keys[i], k) {
        LeqTransitive(keys[i], e, k);
      }
      CountedFirst(keys, m, k, false);
    } else {
      forall i | m - 1 <= i < |keys| ensures !Leq(keys[i], k) {
        LeqTransitive(k, e, keys[i]);
        NotLeqIsGreater(keys[i], k);
      }
      CountedOnly(keys, m - 1, k, true);
    }
  }

  lemma {:induction false} KeyOfRow(table: seq<TableRow>, columns: seq<string>, start: Key, inclusive: bool, end: Key,
                                    k: Key)
    ensures RowsHave(Interval(table, columns, start, inclusive, end), columns)
    ensures k in Project(Interval(table, columns, start, inclusive, end), columns) ==>
              exists i :: 0 <= i < |table| && InInterval(table[i], columns, start, inclusive, end) &&
                          KeyOf(table[i], columns) == k
  {
    if table != [] {
      KeyOfRow(table[1..], columns, start, inclusive, end, k);
      assert forall i | 0 <= i < |table| - 1 :: table[1..][i] == table[i + 1];
    }
  }

  /** The key in place `m` of the ordered keys is key number `m`, and no other key is. */
  lemma NumberIsPlace(table: seq<TableRow>, columns: seq<string>, start: Key, inclusive: bool, end: Key, m: nat, k: Key)
    requires 1 <= m <= |IntervalKeys(table, columns, start, inclusive, end)|
    ensures IsNumber(table, columns, start, inclusive, end, m, k) <==>
            IntervalKeys(table, columns, start, inclusive, end)[m - 1] == k
  {
    IntervalHas(table, columns, start, inclusive, end);
    var keys := Project(Interval(table, columns, start, inclusive, end), columns);
    CountedProject(table, columns, start, inclusive, end, k, false);
    CountedProject(table, columns, start, inclusive, end, k, true);
    CountedSort(keys, k, false);
    CountedSort(keys, k, true);
    SortSorts(keys);
    SortedNumber(Sort(keys), m, k);
    if Sort(keys)[m - 1] == k {
      assert k in multiset(Sort(keys));
      assert k in multiset(keys);
      KeyOfRow(table, columns, start, inclusive, end, k);
    }
  }

  lemma CountOfKeys(table: seq<TableRow>, columns: seq<string>, start: Key, inclusive: bool, end: Key)
    ensures |IntervalKeys(table, columns, start, inclusive, end)| == |Interval(table, columns, start, inclusive, end)|
  {
    IntervalHas(table, columns, start, inclusive, end);
    SortLength(Project(Interval(table, columns, start, inclusive, end), columns));
  }

  /** What is picked is the end looked for, and nothing else is. */
  lemma PickedIsEnd(answer: Option<Key>, pick: Pick, table: seq<TableRow>, columns: seq<string>, start: Key,
                    inclusive: bool, end: Key, n: int)
    requires n >= 1 && (pick == Offset(n - 1) || pick == Last(n))
    ensures IsEnd(answer, table, columns, start, inclusive, end, n, pick.Last?) <==>
            answer == Picked(pick, IntervalKeys(table, columns, start, inclusive, end))
  {
    var count := |Interval(table, columns, start, inclusive, end)|;
    var m := if pick.Last? && count < n then count else n;
    CountOfKeys(table, columns, start, inclusive, end);
    if 1 <= m <= count && answer.Some? {
      NumberIsPlace(table, columns, start, inclusive, end, m, answer.value);
    }
  }

  // ----- an exact query answers right

  lemma {:induction false} ProjectAppend(a: seq<TableRow>, b: seq<TableRow>, columns: seq<string>)
    requires RowsHave(a, columns) && RowsHave(b, columns)
    ensures RowsHave(a + b, columns) && Project(a + b, columns) == Project(a, columns) + Project(b, columns)
  {
    if a == [] {
      assert a + b == b;
    } else {
      assert (a + b)[0] == a[0] && (a + b)[1..] == a[1..] + b;
      ProjectAppend(a[1..], b, columns);
    }
  }

  lemma {:induction false} PartsAreUnion(selects: seq<Pred>, table: seq<TableRow>, args: seq<Value>,
                                         columns: seq<string>)
    requires |args| == HolesOf(selects) && RowsHave(table, columns)
    ensures RowsHave(UnionAll(selects, table, args), columns)
    ensures Concat(Parts(selects, table, args, columns)) == Project(UnionAll(selects, table, args), columns)
  {
    if selects != [] {
      var h := Holes(selects[0]);
      var first := Filter(selects[0], table, args[..h]);
      FilterHas(selects[0], table, args[..h], columns);
      PartsAreUnion(selects[1..], table, args[h..], columns);
      ProjectAppend(first, UnionAll(selects[1..], table, args[h..]), columns);
      var rest := Parts(selects[1..], table, args[h..], columns);
      assert ([Project(first, columns)] + rest)[1..] == rest;
    }
  }

  lemma WithoutOne(a: seq<TableRow>, before: seq<TableRow>, row: TableRow, after: seq<TableRow>)
    requires a != [] && a[0] == row && multiset(a) == multiset(before + ([row] + after))
    ensures multiset(a[1..]) == multiset(before + after)
  {
    assert a == [row] + a[1..];
    assert multiset(a[1..]) == multiset(a) - multiset{row};
  }

  /** Equal rows in another order have equal keys in another order. */
  lemma {:induction false} SameRowsSameKeys(a: seq<TableRow>, b: seq<TableRow>, columns: seq<string>)
    requires RowsHave(a, columns) && RowsHave(b, columns) && multiset(a) == multiset(b)
    ensures multiset(Project(a, columns)) == multiset(Project(b, columns))
  {
    if a == [] {
      assert |multiset(b)| == |multiset(a)| == 0;
    } else {
      assert a[0] in multiset(b);
      var j :| 0 <= j < |b| && b[j] == a[0];
      var before, after := b[..j], b[j + 1..];
      assert b == before + ([a[0]] + after);
      WithoutOne(a, before, a[0], after);
      ProjectAround(before, a[0], after, columns);
      SameRowsSameKeys(a[1..], before + after, columns);
    }
  }

  lemma ProjectAround(before: seq<TableRow>, row: TableRow, after: seq<TableRow>, columns: seq<string>)
    requires RowsHave(before, columns) && HasNames(row, columns) && RowsHave(after, columns)
    ensures RowsHave(before + ([row] + after), columns) && RowsHave(before + after, columns)
    ensures multiset(Project(before + ([row] + after), columns)) ==
            multiset{KeyOf(row, columns)} + multiset(Project(before + after, columns))
  {
    ProjectAppend(before, after, columns);
    ProjectAppend(before, [row] + after, columns);
    assert ([row] + after)[1..] == after;
  }

  lemma PickedFromFirst(pick: Pick, n: nat, a: seq<Key>, b: seq<Key>)
    requires n >= 1 && (pick == Offset(n - 1) || pick == Last(n)) && Take(a, n) == Take(b, n)
    ensures Picked(pick, a) == Picked(pick, b)
  {
    if n <= |a| {
      assert a[n - 1] == a[..n][n - 1];
      assert n <= |b| ==> b[n - 1] == b[..n][n - 1];
    }
  }

  predicate Picks(q: EndQuery, n: int) {
    && n >= 1
    && (q.pick == Offset(n - 1) || q.pick == Last(n))
    && (q.partLimit.None? || q.partLimit == Some(n))
  }

  /** Limiting the parts to the chunk size does not change the answer. */
  lemma LimitsDoNotMatter(q: EndQuery, n: int, table: seq<TableRow>, columns: seq<string>)
    requires |q.query.args| == HolesOf(q.query.selects) && RowsHave(table, columns) && Picks(q, n)
    ensures RowsHave(UnionAll(q.query.selects, table, q.query.args), columns)
    ensures Answer(q, table, columns) ==
            Picked(q.pick, Sort(Project(UnionAll(q.query.selects, table, q.query.args), columns)))
  {
    var parts := Parts(q.query.selects, table, q.query.args, columns);
    PartsAreUnion(q.query.selects, table, q.query.args, columns);
    if q.partLimit.Some? {
      LimitedUnion(parts, n);
      PickedFromFirst(q.pick, n, Sort(Limited(parts, n)), Sort(Concat(parts)));
    }
  }

  /**
   An exact query answers, on every table, with key number n of the interval, or with the
   last key if there are fewer and it is the form that asks for at most n.
   */
  lemma ExactFindsEnd(q: EndQuery, n: int, columns: seq<string>, start: Key, inclusive: bool, end: Key)
    requires SelectsExactly(q.query, columns, start, inclusive, end) && Picks(q, n)
    ensures FindsEnd(q, n, q.pick.Last?, columns, start, inclusive, end)
  {
    forall table | RowsHave(table, columns)
      ensures IsEnd(Answer(q, table, columns), table, columns, start, inclusive, end, n, q.pick.Last?)
    {
      var all := UnionAll(q.query.selects, table, q.query.args);
      var interval := Interval(table, columns, start, inclusive, end);
      LimitsDoNotMatter(q, n, table, columns);
      IntervalHas(table, columns, start, inclusive, end);
      ExactQueryCopiesInterval(q.query, table, columns, start, inclusive, end);
      SameRowsSameKeys(all, interval, columns);
      SortOfSame(Project(all, columns), Project(interval, columns));
      PickedIsEnd(Answer(q, table, columns), q.pick, table, columns, start, inclusive, end, n);
    }
  }

  // ----- a query that is wrong about one row answers wrong on some table

  function Copies(row: TableRow, n: nat): (table: seq<TableRow>)
    ensures |table| == n && forall x | x in table :: x == row
  {
    if n == 0 then [] else [row] + Copies(row, n - 1)
  }

  lemma {:induction false} CopiesCount(row: TableRow, n: nat)
    ensures multiset(Copies(row, n))[row] == n
  {
    if n > 0 {
      CopiesCount(row, n - 1);
    }
  }

  lemma {:induction false} CopiesInterval(row: TableRow, n: nat, columns: seq<string>, start: Key, inclusive: bool,
                                          end: Key)
    ensures Interval(Copies(row, n), columns, start, inclusive, end) ==
            if InInterval(row, columns, start, inclusive, end) then Copies(row, n) else []
  {
    if n > 0 {
      CopiesInterval(row, n - 1, columns, start, inclusive, end);
      assert Copies(row, n)[1..] == Copies(row, n - 1);
    }
  }

  lemma {:induction false} UnionAllOf(selects: seq<Pred>, row: TableRow, n: nat, args: seq<Value>)
    requires |args| == HolesOf(selects)
    ensures Hits(selects, row, args) == 0 ==> UnionAll(selects, Copies(row, n), args) == []
    ensures Hits(selects, row, args) > 0 ==> |UnionAll(selects, Copies(row, n), args)| >= n
  {
    if selects != [] {
      var h := Holes(selects[0]);
      FilterCopies(selects[0], row, n, args[..h]);
      UnionAllOf(selects[1..], row, n, args[h..]);
    }
  }

  lemma {:induction false} FilterCopies(p: Pred, row: TableRow, n: nat, args: seq<Value>)
    requires |args| == Holes(p)
    ensures Filter(p, Copies(row, n), args) == if Eval(p, row, args) then Copies(row, n) else []
  {
    if n > 0 {
      FilterCopies(p, row, n - 1, args);
      assert Copies(row, n)[1..] == Copies(row, n - 1);
    }
  }

  lemma SortLength(s: seq<Key>)
    ensures |Sort(s)| == |s|
  {
    SortSorts(s);
    assert |Sort(s)| == |multiset(Sort(s))| == |s|;
  }

  /** Selecting a row that is not in the interval, or missing one that is, shows in the answer. */
  lemma WrongRowShows(q: EndQuery, n: int, columns: seq<string>, start: Key, inclusive: bool, end: Key, row: TableRow)
    requires |q.query.args| == HolesOf(q.query.selects) && Picks(q, n) && HasNames(row, columns)
    requires InInterval(row, columns, start, inclusive, end) <==> Hits(q.query.selects, row, q.query.args) == 0
    ensures !IsEnd(Answer(q, Copies(row, n), columns), Copies(row, n), columns, start, inclusive, end, n, q.pick.Last?)
  {
    var table := Copies(row, n);
    var all := UnionAll(q.query.selects, table, q.query.args);
    LimitsDoNotMatter(q, n, table, columns);
    UnionAllOf(q.query.selects, row, n, q.query.args);
    CopiesInterval(row, n, columns, start, inclusive, end);
    SortLength(Project(all, columns));
  }

  // ----- the builders

  function PreparedValues(columns: seq<string>): (values: seq<string>)
    ensures |values| == |columns| && forall i | 0 <= i < |values| :: values[i] != ""
  {
    seq(|columns|, i => "?")
  }

  lemma WrongBoundsShow(q: EndQuery, n: int, columns: seq<string>, start: seq<Arg>, inclusive: bool, end: seq<Arg>)
    requires |columns| == |start| == |end| == 2 && columns[0] != columns[1] && Picks(q, n)
    requires q.query == TwoColumn(columns, PreparedValues(columns), PreparedValues(columns), start, inclusive, end)
    requires !TwoColumnIsExact(start, inclusive, end)
    ensures !FindsEnd(q, n, q.pick.Last?, columns, Values(start), inclusive, Values(end))
  {
    var row := WrongRow(columns, start, end);
    WrongRowIsWrong(columns, PreparedValues(columns), PreparedValues(columns), start, inclusive, end);
    WrongRowShows(q, n, columns, Values(start), inclusive, Values(end), row);
    assert RowsHave(Copies(row, n), columns);
  }

  /** The two-column query ends chunks right if and only if it selects exactly the interval. */
  lemma TwoColumnEndsExactlyWhen(q: EndQuery, n: int, columns: seq<string>, start: seq<Arg>, inclusive: bool,
                                 end: seq<Arg>)
    requires |columns| == |start| == |end| == 2 && columns[0] != columns[1] && Picks(q, n)
    requires q.query == TwoColumn(columns, PreparedValues(columns), PreparedValues(columns), start, inclusive, end)
    ensures FindsEnd(q, n, q.pick.Last?, columns, Values(start), inclusive, Values(end)) <==>
            TwoColumnIsExact(start, inclusive, end)
  {
    TwoColumnExactlyWhen(columns, PreparedValues(columns), PreparedValues(columns), start, inclusive, end);
    if TwoColumnIsExact(start, inclusive, end) {
      ExactFindsEnd(q, n, columns, Values(start), inclusive, Values(end));
    } else {
      WrongBoundsShow(q, n, columns, start, inclusive, end);
    }
  }

  /** The where clause of both forms for a key that does not have two columns. */
  method BuildInterval(columns: seq<string>, start: seq<Arg>, end: seq<Arg>, inclusive: bool) returns (r: Result<Query>)
    ensures r.Ok? <==> columns != [] && |columns| == |start| == |end| && "" !in columns
    ensures r.Ok? ==> SelectsExactly(r.value, columns, Values(start), inclusive, Values(end))
  {
    var startRangeComparisonSign := Gt;
    if inclusive {
      startRangeComparisonSign := Ge;
    }
    var values := PreparedValues(columns);
    var low := BuildRangeComparison(columns, values, Values(start), startRangeComparisonSign);
    if low.Err? {
      return Err(low.error);
    }
    var high := BuildRangeComparison(columns, values, Values(end), Le);
    if high.Err? {
      return Err(high.error);
    }
    GeneralIsExact(columns, values, values, Values(start), inclusive, Values(end));
    return Ok(Query([And([low.value.pred, high.value.pred])], low.value.args + high.value.args));
  }

  method BuildRangeEndTwoColumn(columns: seq<string>, start: seq<Arg>, end: seq<Arg>, chunkSize: int, pick: Pick,
                                inclusive: bool)
    returns (r: Result<EndQuery>)
    requires |columns| == 2 && (pick == Offset(chunkSize - 1) || pick == Last(chunkSize))
    ensures r.Ok? <==> |start| == |end| == 2
    ensures r.Ok? ==> r.value.pick == pick
    ensures r.Ok? && chunkSize >= 1 && DistinctNames(columns) ==>
              (FindsEnd(r.value, chunkSize, pick.Last?, columns, Values(start), inclusive, Values(end)) <==>
               TwoColumnIsExact(start, inclusive, end))
  {
    if |start| != 2 || |end| != 2 {
      return Err("expected 2 range args");
    }
    var values := PreparedValues(columns);
    var q;
    if SameFirstColumnValue(start, end) {
      q := EndQuery(SameFirst(columns, values, values, Values(start), inclusive, Values(end)), None, pick);
    } else {
      q := EndQuery(UnionParts(columns, values, values, Values(start), inclusive, Values(end)), Some(chunkSize), pick);
    }
    ghost var distinct := columns[0] != columns[1];
    if chunkSize >= 1 && distinct {
      TwoColumnEndsExactlyWhen(q, chunkSize, columns, start, inclusive, end);
    }
    return Ok(q);
  }

  method BuildRangeEndViaOffset(columns: seq<string>, start: seq<Arg>, end: seq<Arg>, chunkSize: int, inclusive: bool)
    returns (r: Result<EndQuery>)
    ensures r.Ok? <==> columns != [] && |columns| == |start| == |end| && (|columns| == 2 || "" !in columns)
    ensures r.Ok? ==> r.value.pick == Offset(chunkSize - 1)
    ensures r.Ok? && chunkSize >= 1 && DistinctNames(columns) ==>
              (FindsEnd(r.value, chunkSize, false, columns, Values(start), inclusive, Values(end)) <==>
               IsExact(columns, start, inclusive, end))
  {
    if columns == [] {
      return Err("no columns");
    }
    if |columns| == 2 {
      r := BuildRangeEndTwoColumn(columns, start, end, chunkSize, Offset(chunkSize - 1), inclusive);
      return;
    }
    var interval := BuildInterval(columns, start, end, inclusive);
    if interval.Err? {
      return Err(interval.error);
    }
    var q := EndQuery(interval.value, None, Offset(chunkSize - 1));
    if chunkSize >= 1 {
      ExactFindsEnd(q, chunkSize, columns, Values(start), inclusive, Values(end));
    }
    return Ok(q);
  }

  method BuildRangeEndViaTemptable(columns: seq<string>, start: seq<Arg>, end: seq<Arg>, chunkSize: int,
                                   inclusive: bool)
    returns (r: Result<EndQuery>)
    ensures r.Ok? <==> columns != [] && |columns| == |start| == |end| && (|columns| == 2 || "" !in columns)
    ensures r.Ok? ==> r.value.pick == Last(chunkSize)
    ensures r.Ok? && chunkSize >= 1 && DistinctNames(columns) ==>
              (FindsEnd(r.value, chunkSize, true, columns, Values(start), inclusive, Values(end)) <==>
               IsExact(columns, start, inclusive, end))
  {
    if columns == [] {
      return Err("no columns");
    }
    if |columns| == 2 {
      r := BuildRangeEndTwoColumn(columns, start, end, chunkSize, Last(chunkSize), inclusive);
      return;
    }
    var interval := BuildInterval(columns, start, end, inclusive);
    if interval.Err? {
      return Err(interval.error);
    }
    var q := EndQuery(interval.value, None, Last(chunkSize));
    if chunkSize >= 1 {
      ExactFindsEnd(q, chunkSize, columns, Values(start), inclusive, Values(end));
    }
    return Ok(q);
  }
}
