/**
 The chunk queries: which rows a range copy selects, and which key ends a chunk.
 */
module RangeQuery {
  import opened Wrappers
  import opened Keys
  import opened Projection
  import opened RangePredicate

  /** A bound argument: its place in the column's order, and how it prints. */
  datatype Arg = Arg(value: Value, text: string)

  function Values(args: seq<Arg>): (k: Key)
    ensures |k| == |args| && forall i | 0 <= i < |k| :: k[i] == args[i].value
  {
    seq(|args|, i requires 0 <= i < |args| => args[i].value)
  }

  /** A union of selects over one table, whose placeholders share the arguments. */
  datatype Query = Query(selects: seq<Pred>, args: seq<Value>)

  // ----- what a query selects

  /** How often a row appears in the union for each time it is in the table. */
  function Hits(selects: seq<Pred>, row: TableRow, args: seq<Value>): nat
    requires |args| == HolesOf(selects)
  {
    if selects == [] then 0
    else
      var h := Holes(selects[0]);
      if Eval(selects[0], row, args[..h]) then 1 + Hits(selects[1..], row, args[h..])
      else Hits(selects[1..], row, args[h..])
  }

  predicate InInterval(row: TableRow, columns: seq<string>, start: Key, inclusive: bool, end: Key) {
    HasNames(row, columns) && Between(start, inclusive, end, KeyOf(row, columns))
  }

  /** The query selects every row of the key interval once, and no other row. */
  ghost predicate SelectsExactly(q: Query, columns: seq<string>, start: Key, inclusive: bool, end: Key) {
    && |q.args| == HolesOf(q.selects)
    && forall row | HasNames(row, columns) ::
      Hits(q.selects, row, q.args) == if InInterval(row, columns, start, inclusive, end) then 1 else 0
  }

  lemma HitsCons(p: Pred, rest: seq<Pred>, row: TableRow, x: seq<Value>, y: seq<Value>)
    requires |x| == Holes(p) && |y| == HolesOf(rest)
    ensures HolesOf([p] + rest) == |x + y|
    ensures Hits([p] + rest, row, x + y) == Hits(rest, row, y) + if Eval(p, row, x) then 1 else 0
  {
    assert ([p] + rest)[1..] == rest && (x + y)[..|x|] == x && (x + y)[|x|..] == y;
  }

  lemma HitsOne(p: Pred, row: TableRow, x: seq<Value>)
    requires |x| == Holes(p)
    ensures HolesOf([p]) == |x| && Hits([p], row, x) == if Eval(p, row, x) then 1 else 0
  {
    HitsCons(p, [], row, x, []);
    assert [p] + [] == [p] && x + [] == x;
  }

  // ----- one or more than two key columns

  function StartSign(inclusive: bool): Sign {
    if inclusive then Ge else Gt
  }

  function General(columns: seq<string>, startValues: seq<string>, endValues: seq<string>, start: Key, inclusive: bool,
                   end: Key): Query
    requires |columns| == |startValues| == |endValues|
  {
    Query([And([RangeComparison(columns, startValues, StartSign(inclusive)), RangeComparison(columns, endValues, Le)])],
          RangeArgs(start, StartSign(inclusive)) + RangeArgs(end, Le))
  }

  lemma GeneralRow(columns: seq<string>, startValues: seq<string>, endValues: seq<string>, start: Key, inclusive: bool,
                   end: Key, row: TableRow)
    requires |columns| == |startValues| == |endValues| == |start| == |end| && HasNames(row, columns)
    ensures var q := General(columns, startValues, endValues, start, inclusive, end);
            && |q.args| == HolesOf(q.selects)
            && Hits(q.selects, row, q.args) == if InInterval(row, columns, start, inclusive, end) then 1 else 0
  {
    var low := RangeComparison(columns, startValues, StartSign(inclusive));
    var high := RangeComparison(columns, endValues, Le);
    var x, y := RangeArgs(start, StartSign(inclusive)), RangeArgs(end, Le);
    RangeComparisonIsLexicographic(columns, startValues, start, StartSign(inclusive), row);
    RangeComparisonIsLexicographic(columns, endValues, end, Le, row);
    BothConjuncts(low, high, row, x, y);
    HitsOne(And([low, high]), row, x + y);
  }

  function EmptyRow(columns: seq<string>): (row: TableRow)
    ensures HasNames(row, columns)
  {
    map c | c in columns :: 0.0
  }

  lemma GeneralIsExact(columns: seq<string>, startValues: seq<string>, endValues: seq<string>, start: Key,
                       inclusive: bool, end: Key)
    requires |columns| == |startValues| == |endValues| == |start| == |end|
    ensures SelectsExactly(General(columns, startValues, endValues, start, inclusive, end), columns, start, inclusive,
                           end)
  {
    var q := General(columns, startValues, endValues, start, inclusive, end);
    GeneralRow(columns, startValues, endValues, start, inclusive, end, EmptyRow(columns));
    forall row | HasNames(row, columns)
      ensures Hits(q.selects, row, q.args) == if InInterval(row, columns, start, inclusive, end) then 1 else 0
    {
      GeneralRow(columns, startValues, endValues, start, inclusive, end, row);
    }
  }

  // ----- two key columns

  predicate SameFirstColumnValue(start: seq<Arg>, end: seq<Arg>) {
    start != [] && end != [] && start[0].text == end[0].text
  }

  /** All rows of the interval share the first column's value. */
  function SameFirst(columns: seq<string>, startValues: seq<string>, endValues: seq<string>, start: Key,
                     inclusive: bool, end: Key): Query
    requires |columns| == |startValues| == |endValues| == |start| == |end| == 2
  {
    Query([And([Compare(columns[0], Eq, startValues[0]),
                And([Compare(columns[1], StartSign(inclusive), startValues[1]),
                     Compare(columns[1], Le, endValues[1])])])],
          [start[0], start[1], end[1]])
  }

  function UnionParts(columns: seq<string>, startValues: seq<string>, endValues: seq<string>, start: Key,
                      inclusive: bool, end: Key): Query
    requires |columns| == |startValues| == |endValues| == |start| == |end| == 2
  {
    Query([And([Compare(columns[0], Eq, startValues[0]), Compare(columns[1], StartSign(inclusive), startValues[1])]),
           And([Compare(columns[0], Gt, startValues[0]), Compare(columns[0], Lt, endValues[0])]),
           And([Compare(columns[0], Eq, endValues[0]), Compare(columns[1], Le, endValues[1])])],
          [start[0], start[1], start[0], end[0], end[0], end[1]])
  }

  function TwoColumn(columns: seq<string>, startValues: seq<string>, endValues: seq<string>, start: seq<Arg>,
                     inclusive: bool, end: seq<Arg>): Query
    requires |columns| == |startValues| == |endValues| == |start| == |end| == 2
  {
    if SameFirstColumnValue(start, end) then
      SameFirst(columns, startValues, endValues, Values(start), inclusive, Values(end))
    else UnionParts(columns, startValues, endValues, Values(start), inclusive, Values(end))
  }

  lemma LessTwo(a: Key, b: Key)
    requires |a| == |b| == 2
    ensures Less(a, b) <==> a[0] < b[0] || (a[0] == b[0] && a[1] < b[1])
    ensures a == b <==> a[0] == b[0] && a[1] == b[1]
  {
    assert a[1..][1..] == [] && b[1..][1..] == [];
    assert Less(a[1..], b[1..]) <==> a[1] < b[1];
  }

  lemma BetweenTwo(start: Key, inclusive: bool, end: Key, k: Key)
    requires |start| == |end| == |k| == 2
    ensures Between(start, inclusive, end, k) <==>
            && (k[0] > start[0] || (k[0] == start[0] && Holds(StartSign(inclusive), k[1], start[1])))
            && (k[0] < end[0] || (k[0] == end[0] && k[1] <= end[1]))
  {
    LessTwo(start, k);
    LessTwo(k, end);
  }

  function One(b: bool): nat {
    if b then 1 else 0
  }

  lemma CompareBoth(c: string, d: string, sign: Sign, other: Sign, v: string, w: string, row: TableRow, x: Value,
                    y: Value)
    requires c in row && d in row
    ensures Holes(And([Compare(c, sign, v), Compare(d, other, w)])) == 2
    ensures Eval(And([Compare(c, sign, v), Compare(d, other, w)]), row, [x, y]) <==>
            Holds(sign, row[c], x) && Holds(other, row[d], y)
  {
    BothConjuncts(Compare(c, sign, v), Compare(d, other, w), row, [x], [y]);
    assert [x] + [y] == [x, y];
  }

  lemma SameFirstHits(columns: seq<string>, startValues: seq<string>, endValues: seq<string>, start: Key,
                      inclusive: bool, end: Key, row: TableRow)
    requires |columns| == |startValues| == |endValues| == |start| == |end| == 2 && HasNames(row, columns)
    ensures var q, k := SameFirst(columns, startValues, endValues, start, inclusive, end), KeyOf(row, columns);
            && |q.args| == HolesOf(q.selects)
            && Hits(q.selects, row, q.args) ==
               One(k[0] == start[0] && Holds(StartSign(inclusive), k[1], start[1]) && k[1] <= end[1])
  {
    var c, d := columns[0], columns[1];
    var first := Compare(c, Eq, startValues[0]);
    var rest := And([Compare(d, StartSign(inclusive), startValues[1]), Compare(d, Le, endValues[1])]);
    CompareBoth(d, d, StartSign(inclusive), Le, startValues[1], endValues[1], row, start[1], end[1]);
    BothConjuncts(first, rest, row, [start[0]], [start[1], end[1]]);
    assert [start[0]] + [start[1], end[1]] == [start[0], start[1], end[1]];
    HitsOne(And([first, rest]), row, [start[0], start[1], end[1]]);
  }

  lemma UnionHits(columns: seq<string>, startValues: seq<string>, endValues: seq<string>, start: Key, inclusive: bool,
                  end: Key, row: TableRow)
    requires |columns| == |startValues| == |endValues| == |start| == |end| == 2 && HasNames(row, columns)
    ensures var q, k := UnionParts(columns, startValues, endValues, start, inclusive, end), KeyOf(row, columns);
            && |q.args| == HolesOf(q.selects)
            && Hits(q.selects, row, q.args) ==
               One(k[0] == start[0] && Holds(StartSign(inclusive), k[1], start[1])) +
               One(start[0] < k[0] < end[0]) +
               One(k[0] == end[0] && k[1] <= end[1])
  {
    var q := UnionParts(columns, startValues, endValues, start, inclusive, end);
    var c, d := columns[0], columns[1];
    var p1, p2, p3 := q.selects[0], q.selects[1], q.selects[2];
    var x1, x2, x3 := [start[0], start[1]], [start[0], end[0]], [end[0], end[1]];
    CompareBoth(c, d, Eq, StartSign(inclusive), startValues[0], startValues[1], row, start[0], start[1]);
    CompareBoth(c, c, Gt, Lt, startValues[0], endValues[0], row, start[0], end[0]);
    CompareBoth(c, d, Eq, Le, endValues[0], endValues[1], row, end[0], end[1]);
    HitsOne(p3, row, x3);
    HitsCons(p2, [p3], row, x2, x3);
    HitsCons(p1, [p2] + [p3], row, x1, x2 + x3);
    assert [p1] + ([p2] + [p3]) == q.selects && x1 + (x2 + x3) == q.args;
  }

  /**
   When the two-column form is right: printed equality of the first values must
   agree with their order, and a start beyond the end must select nothing.
   */
  predicate TwoColumnIsExact(start: seq<Arg>, inclusive: bool, end: seq<Arg>)
    requires |start| == |end| == 2
  {
    if SameFirstColumnValue(start, end) then
      start[0].value == end[0].value ||
      (start[0].value > end[0].value && !Holds(StartSign(inclusive), end[1].value, start[1].value))
    else start[0].value < end[0].value
  }

  lemma TwoColumnHits(columns: seq<string>, startValues: seq<string>, endValues: seq<string>, start: seq<Arg>,
                      inclusive: bool, end: seq<Arg>, row: TableRow)
    requires |columns| == |startValues| == |endValues| == |start| == |end| == 2 && HasNames(row, columns)
    ensures var q := TwoColumn(columns, startValues, endValues, start, inclusive, end);
            && |q.args| == HolesOf(q.selects)
            && (TwoColumnIsExact(start, inclusive, end) ==>
                  Hits(q.selects, row, q.args) == One(InInterval(row, columns, Values(start), inclusive, Values(end))))
  {
    BetweenTwo(Values(start), inclusive, Values(end), KeyOf(row, columns));
    if SameFirstColumnValue(start, end) {
      SameFirstHits(columns, startValues, endValues, Values(start), inclusive, Values(end), row);
    } else {
      UnionHits(columns, startValues, endValues, Values(start), inclusive, Values(end), row);
    }
  }

  /** A row that the two-column form misses or wrongly selects, when the condition fails. */
  function WrongRow(columns: seq<string>, start: seq<Arg>, end: seq<Arg>): (row: TableRow)
    requires |columns| == |start| == |end| == 2 && columns[0] != columns[1]
    ensures HasNames(row, columns)
  {
    var s, e := Values(start), Values(end);
    if SameFirstColumnValue(start, end) then
      map[columns[0] := if s[0] < e[0] then e[0] else s[0], columns[1] := e[1]]
    else
      map[columns[0] := s[0], columns[1] := if s[1] < e[1] then e[1] + 1.0 else s[1] + 1.0]
  }

  lemma WrongRowIsWrong(columns: seq<string>, startValues: seq<string>, endValues: seq<string>, start: seq<Arg>,
                        inclusive: bool, end: seq<Arg>)
    requires |columns| == |startValues| == |endValues| == |start| == |end| == 2 && columns[0] != columns[1]
    requires !TwoColumnIsExact(start, inclusive, end)
    ensures var q := TwoColumn(columns, startValues, endValues, start, inclusive, end);
            var row := WrongRow(columns, start, end);
            && |q.args| == HolesOf(q.selects)
            && (InInterval(row, columns, Values(start), inclusive, Values(end)) <==> Hits(q.selects, row, q.args) == 0)
  {
    var row := WrongRow(columns, start, end);
    BetweenTwo(Values(start), inclusive, Values(end), KeyOf(row, columns));
    if SameFirstColumnValue(start, end) {
      SameFirstHits(columns, startValues, endValues, Values(start), inclusive, Values(end), row);
    } else {
      UnionHits(columns, startValues, endValues, Values(start), inclusive, Values(end), row);
    }
  }

  /** The two-column form selects exactly the interval if and only if the condition holds. */
  lemma TwoColumnExactlyWhen(columns: seq<string>, startValues: seq<string>, endValues: seq<string>, start: seq<Arg>,
                             inclusive: bool, end: seq<Arg>)
    requires |columns| == |startValues| == |endValues| == |start| == |end| == 2 && columns[0] != columns[1]
    ensures SelectsExactly(TwoColumn(columns, startValues, endValues, start, inclusive, end), columns, Values(start),
                           inclusive, Values(end))
            <==> TwoColumnIsExact(start, inclusive, end)
  {
    var q := TwoColumn(columns, startValues, endValues, start, inclusive, end);
    TwoColumnHits(columns, startValues, endValues, start, inclusive, end, EmptyRow(columns));
    if TwoColumnIsExact(start, inclusive, end) {
      forall row | HasNames(row, columns)
        ensures Hits(q.selects, row, q.args) ==
                if InInterval(row, columns, Values(start), inclusive, Values(end)) then 1 else 0
      {
        TwoColumnHits(columns, startValues, endValues, start, inclusive, end, row);
      }
    } else {
      WrongRowIsWrong(columns, startValues, endValues, start, inclusive, end);
    }
  }

  /** Bounds in order whose first values print alike exactly when equal are always handled right. */
  lemma OrderedBoundsAreExact(start: seq<Arg>, inclusive: bool, end: seq<Arg>)
    requires |start| == |end| == 2 && Leq(Values(start), Values(end))
    requires start[0].text == end[0].text <==> start[0].value == end[0].value
    ensures TwoColumnIsExact(start, inclusive, end)
  {
    LessTwo(Values(start), Values(end));
  }

  /** First values equal in the column's collation but spelled differently: rows past the end are selected. */
  lemma CollationEqualBoundsSelectTooMuch()
    ensures var start, end := [Arg(1.0, "a"), Arg(5.0, "5")], [Arg(1.0, "A"), Arg(7.0, "7")];
            var q := TwoColumn(["x", "y"], ["?", "?"], ["?", "?"], start, false, end);
            var inside, past := map["x" := 1.0, "y" := 6.0], map["x" := 1.0, "y" := 9.0];
            && |q.args| == HolesOf(q.selects)
            && Hits(q.selects, inside, q.args) == 2
            && Hits(q.selects, past, q.args) == 1 && !InInterval(past, ["x", "y"], Values(start), false, Values(end))
  {
    var start, end := [Arg(1.0, "a"), Arg(5.0, "5")], [Arg(1.0, "A"), Arg(7.0, "7")];
    assert start[0].text[0] != end[0].text[0];
    UnionHits(["x", "y"], ["?", "?"], ["?", "?"], Values(start), false, Values(end), map["x" := 1.0, "y" := 6.0]);
    UnionHits(["x", "y"], ["?", "?"], ["?", "?"], Values(start), false, Values(end), map["x" := 1.0, "y" := 9.0]);
    BetweenTwo(Values(start), false, Values(end), KeyOf(map["x" := 1.0, "y" := 9.0], ["x", "y"]));
  }

  // ----- the builder

  /** The bounds are ones that the form chosen for this many columns handles right. */
  predicate IsExact(columns: seq<string>, start: seq<Arg>, inclusive: bool, end: seq<Arg>)
    requires |columns| == |start| == |end|
  {
    |columns| == 2 ==> TwoColumnIsExact(start, inclusive, end)
  }

  /** `insert ignore into` the mapped columns of what the query selects of the shared ones. */
  datatype Insert = Insert(sharing: Sharing, query: Query)

  method BuildRangeInsertQuery(sharing: Sharing, columns: seq<string>, startValues: seq<string>, endValues: seq<string>,
                               start: seq<Arg>, end: seq<Arg>, inclusive: bool)
    returns (r: Result<Insert>)
    ensures r.Ok? <==>
            && sharing.shared != [] && columns != [] && |columns| == |startValues| == |endValues| == |start| == |end|
            && (|columns| == 2 || (Named(columns, startValues) && Named(columns, endValues)))
    ensures r.Ok? ==> r.value.sharing == sharing
    ensures r.Ok? && DistinctNames(columns) ==>
              (SelectsExactly(r.value.query, columns, Values(start), inclusive, Values(end)) <==>
               IsExact(columns, start, inclusive, end))
  {
    if sharing.shared == [] {
      return Err("no shared columns");
    }
    var minRangeComparisonSign := Gt;
    if inclusive {
      minRangeComparisonSign := Ge;
    }
    if |columns| == 2 {
      var two := BuildRangeInsertQueryTwoColumn(columns, startValues, endValues, start, end, inclusive);
      return if two.Ok? then Ok(Insert(sharing, two.value)) else Err(two.error);
    }
    var low := BuildRangeComparison(columns, startValues, Values(start), minRangeComparisonSign);
    if low.Err? {
      return Err(low.error);
    }
    var high := BuildRangeComparison(columns, endValues, Values(end), Le);
    if high.Err? {
      return Err(high.error);
    }
    GeneralIsExact(columns, startValues, endValues, Values(start), inclusive, Values(end));
    return Ok(Insert(sharing, Query([And([low.value.pred, high.value.pred])], low.value.args + high.value.args)));
  }

  method BuildRangeInsertQueryTwoColumn(columns: seq<string>, startValues: seq<string>, endValues: seq<string>,
                                        start: seq<Arg>, end: seq<Arg>, inclusive: bool)
    returns (r: Result<Query>)
    requires |columns| == 2
    ensures r.Ok? <==> |columns| == |startValues| == |endValues| == |start| == |end|
    ensures r.Ok? && DistinctNames(columns) ==>
              (SelectsExactly(r.value, columns, Values(start), inclusive, Values(end)) <==>
               TwoColumnIsExact(start, inclusive, end))
  {
    if |columns| != |startValues| || |columns| != |endValues| || |columns| != |start| || |columns| != |end| {
      return Err("columns, values and args differ");
    }
    ghost var distinct := columns[0] != columns[1];
    if distinct {
      TwoColumnExactlyWhen(columns, startValues, endValues, start, inclusive, end);
    }
    if SameFirstColumnValue(start, end) {
      return Ok(SameFirst(columns, startValues, endValues, Values(start), inclusive, Values(end)));
    }
    return Ok(UnionParts(columns, startValues, endValues, Values(start), inclusive, Values(end)));
  }

  // ----- on a table

  function Filter(p: Pred, table: seq<TableRow>, args: seq<Value>): seq<TableRow>
    requires |args| == Holes(p)
  {
    if table == [] then []
    else if Eval(p, table[0], args) then [table[0]] + Filter(p, table[1..], args)
    else Filter(p, table[1..], args)
  }

  function UnionAll(selects: seq<Pred>, table: seq<TableRow>, args: seq<Value>): seq<TableRow>
    requires |args| == HolesOf(selects)
  {
    if selects == [] then []
    else
      var h := Holes(selects[0]);
      Filter(selects[0], table, args[..h]) + UnionAll(selects[1..], table, args[h..])
  }

  /** The rows of the interval, each as often as the table has it. */
  function Interval(table: seq<TableRow>, columns: seq<string>, start: Key, inclusive: bool, end: Key): seq<TableRow> {
    if table == [] then []
    else if InInterval(table[0], columns, start, inclusive, end) then
      [table[0]] + Interval(table[1..], columns, start, inclusive, end)
    else Interval(table[1..], columns, start, inclusive, end)
  }

  lemma {:induction false} FilterCount(p: Pred, table: seq<TableRow>, args: seq<Value>, row: TableRow)
    requires |args| == Holes(p)
    ensures multiset(Filter(p, table, args))[row] == if Eval(p, row, args) then multiset(table)[row] else 0
  {
    if table != [] {
      FilterCount(p, table[1..], args, row);
      assert table == [table[0]] + table[1..];
    }
  }

  lemma {:induction false} IntervalCount(table: seq<TableRow>, columns: seq<string>, start: Key, inclusive: bool,
                                         end: Key, row: TableRow)
    ensures multiset(Interval(table, columns, start, inclusive, end))[row] ==
            if InInterval(row, columns, start, inclusive, end) then multiset(table)[row] else 0
  {
    if table != [] {
      IntervalCount(table[1..], columns, start, inclusive, end, row);
      assert table == [table[0]] + table[1..];
    }
  }

  /** `n` times `m`. */
  function Times(n: nat, m: nat): nat {
    if n == 0 then 0 else m + Times(n - 1, m)
  }

  lemma {:induction false} UnionAllCount(selects: seq<Pred>, table: seq<TableRow>, args: seq<Value>, row: TableRow)
    requires |args| == HolesOf(selects)
    ensures multiset(UnionAll(selects, table, args))[row] == Times(Hits(selects, row, args), multiset(table)[row])
  {
    if selects != [] {
      var h := Holes(selects[0]);
      FilterCount(selects[0], table, args[..h], row);
      UnionAllCount(selects[1..], table, args[h..], row);
    }
  }

  predicate RowsHave(table: seq<TableRow>, columns: seq<string>) {
    forall row | row in table :: HasNames(row, columns)
  }

  /** A query that is exact copies, from every table, the interval's rows and each as often as it is there. */
  lemma ExactQueryCopiesInterval(q: Query, table: seq<TableRow>, columns: seq<string>, start: Key, inclusive: bool,
                                 end: Key)
    requires SelectsExactly(q, columns, start, inclusive, end) && RowsHave(table, columns)
    ensures multiset(UnionAll(q.selects, table, q.args)) == multiset(Interval(table, columns, start, inclusive, end))
  {
    var all, interval := UnionAll(q.selects, table, q.args), Interval(table, columns, start, inclusive, end);
    forall row ensures multiset(all)[row] == multiset(interval)[row] {
      ExactQueryCount(q, table, columns, start, inclusive, end, row);
    }
  }

  lemma ExactQueryCount(q: Query, table: seq<TableRow>, columns: seq<string>, start: Key, inclusive: bool, end: Key,
                        row: TableRow)
    requires SelectsExactly(q, columns, start, inclusive, end) && RowsHave(table, columns)
    ensures multiset(UnionAll(q.selects, table, q.args))[row] ==
            multiset(Interval(table, columns, start, inclusive, end))[row]
  {
    var m := multiset(table)[row];
    UnionAllCount(q.selects, table, q.args, row);
    IntervalCount(table, columns, start, inclusive, end, row);
    if row in table {
      assert Times(1, m) == m + Times(0, m);
    } else {
      assert row !in multiset(table);
      TimesZero(Hits(q.selects, row, q.args));
    }
  }

  lemma {:induction false} TimesZero(n: nat)
    ensures Times(n, 0) == 0
  {
    if n > 0 {
      TimesZero(n - 1);
    }
  }
}
