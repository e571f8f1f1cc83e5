/**
 The comparison predicates of the query builder, as syntax with positional
 placeholders, and their meaning.
 */
module RangePredicate {
  import opened Wrappers
  import opened Keys
  import opened Projection

  datatype Sign = Lt | Le | Eq | Ge | Gt

  /** A comparison of a column with the value token `value`, which holds one placeholder. */
  datatype Pred =
    | Compare(column: string, sign: Sign, value: string)
    | And(conjuncts: seq<Pred>)
    | Or(disjuncts: seq<Pred>)

  type TableRow = map<string, Value>

  // ----- evaluation: placeholders take the arguments from left to right

  function Holes(p: Pred): nat {
    match p
    case Compare(_, _, _) => 1
    case And(ps) => HolesOf(ps)
    case Or(ps) => HolesOf(ps)
  }

  function HolesOf(ps: seq<Pred>): nat {
    if ps == [] then 0 else Holes(ps[0]) + HolesOf(ps[1..])
  }

  predicate Holds(sign: Sign, a: Value, b: Value) {
    match sign
    case Lt => a < b
    case Le => a <= b
    case Eq => a == b
    case Ge => a >= b
    case Gt => a > b
  }

  /** The predicate on a row; a row lacking a column satisfies no comparison of it. */
  predicate Eval(p: Pred, row: TableRow, args: seq<Value>)
    requires |args| == Holes(p)
  {
    match p
    case Compare(c, sign, _) => c in row && Holds(sign, row[c], args[0])
    case And(ps) => EvalAll(ps, row, args)
    case Or(ps) => EvalAny(ps, row, args)
  }

  predicate EvalAll(ps: seq<Pred>, row: TableRow, args: seq<Value>)
    requires |args| == HolesOf(ps)
  {
    ps == [] || (Eval(ps[0], row, args[..Holes(ps[0])]) && EvalAll(ps[1..], row, args[Holes(ps[0])..]))
  }

  predicate EvalAny(ps: seq<Pred>, row: TableRow, args: seq<Value>)
    requires |args| == HolesOf(ps)
  {
    ps != [] && (Eval(ps[0], row, args[..Holes(ps[0])]) || EvalAny(ps[1..], row, args[Holes(ps[0])..]))
  }

  lemma {:induction false} HolesAppend(a: seq<Pred>, b: seq<Pred>)
    ensures HolesOf(a + b) == HolesOf(a) + HolesOf(b)
  {
    if a == [] {
      assert a + b == b;
    } else {
      assert (a + b)[0] == a[0] && (a + b)[1..] == a[1..] + b;
      HolesAppend(a[1..], b);
    }
  }

  lemma {:induction false} EvalAnyAppend(a: seq<Pred>, b: seq<Pred>, row: TableRow, x: seq<Value>, y: seq<Value>)
    requires |x| == HolesOf(a) && |y| == HolesOf(b)
    ensures HolesOf(a + b) == |x + y|
    ensures EvalAny(a + b, row, x + y) <==> EvalAny(a, row, x) || EvalAny(b, row, y)
  {
    HolesAppend(a, b);
    if a == [] {
      assert a + b == b && x + y == y;
    } else {
      var h := Holes(a[0]);
      assert (a + b)[0] == a[0] && (a + b)[1..] == a[1..] + b;
      assert (x + y)[..h] == x[..h] && (x + y)[h..] == x[h..] + y;
      EvalAnyAppend(a[1..], b, row, x[h..], y);
    }
  }

  lemma OneDisjunct(p: Pred, row: TableRow, args: seq<Value>)
    requires |args| == Holes(p)
    ensures HolesOf([p]) == |args| && (EvalAny([p], row, args) <==> Eval(p, row, args))
  {
    assert [p][1..] == [] && args[..|args|] == args && args[|args|..] == [];
  }

  lemma BothConjuncts(p: Pred, q: Pred, row: TableRow, x: seq<Value>, y: seq<Value>)
    requires |x| == Holes(p) && |y| == Holes(q)
    ensures HolesOf([p, q]) == |x + y|
    ensures EvalAll([p, q], row, x + y) <==> Eval(p, row, x) && Eval(q, row, y)
  {
    assert [p, q][1..] == [q] && [q][1..] == [];
    assert (x + y)[..|x|] == x && (x + y)[|x|..] == y && y[..|y|] == y && y[|y|..] == [];
    assert HolesOf([q]) == |y|;
    assert EvalAll([q], row, y) <==> Eval(q, row, y);
  }

  // ----- what the builders build

  function Equalities(columns: seq<string>, values: seq<string>): seq<Pred>
    requires |columns| == |values|
  {
    if columns == [] then []
    else [Compare(columns[0], Eq, values[0])] + Equalities(columns[1..], values[1..])
  }

  /** The rows that agree with the bound on the columns before `i` and compare as `sign` on column `i`. */
  function RangePart(columns: seq<string>, values: seq<string>, i: nat, sign: Sign): Pred
    requires i < |columns| == |values|
  {
    var comparison := Compare(columns[i], sign, values[i]);
    if i == 0 then comparison else And([And(Equalities(columns[..i], values[..i])), comparison])
  }

  function RangeParts(columns: seq<string>, values: seq<string>, n: nat, sign: Sign): seq<Pred>
    requires n <= |columns| == |values|
  {
    if n == 0 then [] else RangeParts(columns, values, n - 1, sign) + [RangePart(columns, values, n - 1, sign)]
  }

  /** The arguments of the first `n` parts: one, then two, and so on. */
  function Exploded(args: seq<Value>, n: nat): seq<Value>
    requires n <= |args|
  {
    if n == 0 then [] else Exploded(args, n - 1) + args[..n]
  }

  function Strict(sign: Sign): Sign {
    if sign.Le? then Lt else if sign.Ge? then Gt else sign
  }

  predicate IncludesEquals(sign: Sign) {
    sign.Le? || sign.Ge?
  }

  function RangeComparison(columns: seq<string>, values: seq<string>, sign: Sign): Pred
    requires |columns| == |values|
  {
    Or(RangeParts(columns, values, |columns|, Strict(sign)) +
       if IncludesEquals(sign) then [And(Equalities(columns, values))] else [])
  }

  function RangeArgs(args: seq<Value>, sign: Sign): seq<Value> {
    Exploded(args, |args|) + if IncludesEquals(sign) then args else []
  }

  predicate Named(columns: seq<string>, values: seq<string>) {
    |columns| == |values| && forall i | 0 <= i < |columns| :: columns[i] != "" && values[i] != ""
  }

  // ----- the builders

  method BuildValueComparison(column: string, value: string, sign: Sign) returns (r: Result<Pred>)
    ensures r.Ok? <==> column != "" && value != ""
    ensures r.Ok? ==> r.value == Compare(column, sign, value)
  {
    if column == "" {
      return Err("empty column");
    }
    if value == "" {
      return Err("empty value");
    }
    return Ok(Compare(column, sign, value));
  }

  lemma {:induction false} EqualitiesAppend(columns: seq<string>, values: seq<string>, i: nat)
    requires i < |columns| == |values|
    ensures Equalities(columns[..i + 1], values[..i + 1]) ==
            Equalities(columns[..i], values[..i]) + [Compare(columns[i], Eq, values[i])]
  {
    if i > 0 {
      EqualitiesAppend(columns[1..], values[1..], i - 1);
      assert columns[1..][..i] == columns[..i + 1][1..] && values[1..][..i] == values[..i + 1][1..];
      assert columns[1..][..i - 1] == columns[..i][1..] && values[1..][..i - 1] == values[..i][1..];
    }
  }

  method BuildEqualsComparison(columns: seq<string>, values: seq<string>) returns (r: Result<Pred>)
    ensures r.Ok? <==> columns != [] && Named(columns, values)
    ensures r.Ok? ==> r.value == And(Equalities(columns, values))
  {
    if columns == [] {
      return Err("no columns");
    }
    if |columns| != |values| {
      return Err("columns and values differ");
    }
    var comparisons := [];
    for i := 0 to |columns|
      invariant forall j | 0 <= j < i :: columns[j] != "" && values[j] != ""
      invariant comparisons == Equalities(columns[..i], values[..i])
    {
      var comparison := BuildValueComparison(columns[i], values[i], Eq);
      if comparison.Err? {
        return comparison;
      }
      EqualitiesAppend(columns, values, i);
      comparisons := comparisons + [comparison.value];
    }
    assert columns[..|columns|] == columns && values[..|values|] == values;
    return Ok(And(comparisons));
  }

  datatype Built = Built(pred: Pred, args: seq<Value>)

  method BuildRangeComparison(columns: seq<string>, values: seq<string>, args: seq<Value>, sign: Sign)
    returns (r: Result<Built>)
    ensures r.Ok? <==> columns != [] && Named(columns, values) && |columns| == |args|
    ensures r.Ok? ==> r.value == Built(RangeComparison(columns, values, sign), RangeArgs(args, sign))
  {
    if columns == [] {
      return Err("no columns");
    }
    if |columns| != |values| {
      return Err("columns and values differ");
    }
    if |columns| != |args| {
      return Err("columns and args differ");
    }
    var includeEquals, strict := false, sign;
    if strict == Le {
      strict, includeEquals := Lt, true;
    }
    if strict == Ge {
      strict, includeEquals := Gt, true;
    }
    var comparisons: seq<Pred>, explodedArgs: seq<Value> := [], [];
    for i := 0 to |columns|
      invariant forall j | 0 <= j < i :: columns[j] != "" && values[j] != ""
      invariant comparisons == RangeParts(columns, values, i, strict)
      invariant explodedArgs == Exploded(args, i)
    {
      var rangeComparison := BuildValueComparison(columns[i], values[i], strict);
      if rangeComparison.Err? {
        return Err(rangeComparison.error);
      }
      if i > 0 {
        var equalities := BuildEqualsComparison(columns[..i], values[..i]);
        // never fails: earlier iterations checked these names
        assert equalities.Ok?;
        comparisons := comparisons + [And([equalities.value, rangeComparison.value])];
        explodedArgs := explodedArgs + args[..i] + [args[i]];
        assert args[..i] + [args[i]] == args[..i + 1];
      } else {
        comparisons := comparisons + [rangeComparison.value];
        explodedArgs := explodedArgs + [args[i]];
        assert [args[i]] == args[..1];
      }
    }
    if includeEquals {
      var comparison := BuildEqualsComparison(columns, values);
      assert comparison.Ok?;
      comparisons := comparisons + [comparison.value];
      explodedArgs := explodedArgs + args;
    }
    assert comparisons + [] == comparisons && explodedArgs + [] == explodedArgs;
    return Ok(Built(Or(comparisons), explodedArgs));
  }

  // ----- what they mean

  lemma {:induction false} EqualitiesMean(columns: seq<string>, values: seq<string>, row: TableRow, args: seq<Value>)
    requires |columns| == |values| == |args| && HasNames(row, columns)
    ensures HolesOf(Equalities(columns, values)) == |args|
    ensures EvalAll(Equalities(columns, values), row, args) <==> KeyOf(row, columns) == args
  {
    if columns != [] {
      var ps, rest := Equalities(columns, values), Equalities(columns[1..], values[1..]);
      assert ps[0] == Compare(columns[0], Eq, values[0]) && ps[1..] == rest;
      EqualitiesMean(columns[1..], values[1..], row, args[1..]);
      assert KeyOf(row, columns)[1..] == KeyOf(row, columns[1..]);
      assert KeyOf(row, columns) == [row[columns[0]]] + KeyOf(row, columns[1..]);
      assert args == [args[0]] + args[1..] && args[..1][0] == args[0];
    }
  }

  /** Keys `a` and `b` first differ in column `i`, in the direction of `sign`. */
  predicate DiffersAt(a: Key, b: Key, i: nat, sign: Sign)
    requires i < |a| && i < |b|
  {
    a[..i] == b[..i] && Holds(sign, a[i], b[i])
  }

  lemma RangePartMeans(columns: seq<string>, values: seq<string>, i: nat, sign: Sign, row: TableRow, args: seq<Value>)
    requires i < |columns| == |values| == |args| && HasNames(row, columns)
    ensures Holes(RangePart(columns, values, i, sign)) == i + 1
    ensures Eval(RangePart(columns, values, i, sign), row, args[..i + 1]) <==>
            DiffersAt(KeyOf(row, columns), args, i, sign)
  {
    if i == 0 {
      assert KeyOf(row, columns)[..0] == args[..0];
    } else {
      var equal, last := And(Equalities(columns[..i], values[..i])), Compare(columns[i], sign, values[i]);
      EqualitiesMean(columns[..i], values[..i], row, args[..i]);
      BothConjuncts(equal, last, row, args[..i], [args[i]]);
      assert args[..i + 1] == args[..i] + [args[i]];
      assert KeyOf(row, columns)[..i] == KeyOf(row, columns[..i]);
    }
  }

  lemma {:induction false} RangePartsMean(columns: seq<string>, values: seq<string>, n: nat, sign: Sign, row: TableRow,
                                          args: seq<Value>)
    requires n <= |columns| == |values| == |args| && HasNames(row, columns)
    ensures HolesOf(RangeParts(columns, values, n, sign)) == |Exploded(args, n)|
    ensures EvalAny(RangeParts(columns, values, n, sign), row, Exploded(args, n)) <==>
            exists i: nat :: i < n && DiffersAt(KeyOf(row, columns), args, i, sign)
  {
    if n > 0 {
      var last := RangePart(columns, values, n - 1, sign);
      RangePartsMean(columns, values, n - 1, sign, row, args);
      RangePartMeans(columns, values, n - 1, sign, row, args);
      OneDisjunct(last, row, args[..n]);
      EvalAnyAppend(RangeParts(columns, values, n - 1, sign), [last], row, Exploded(args, n - 1), args[..n]);
    }
  }

  lemma {:induction false} LessIsFirstDifference(a: Key, b: Key)
    requires |a| == |b|
    ensures Less(a, b) <==> exists i: nat :: i < |a| && DiffersAt(a, b, i, Lt)
  {
    if a != [] {
      LessIsFirstDifference(a[1..], b[1..]);
      if a[0] < b[0] {
        assert DiffersAt(a, b, 0, Lt);
      } else if a[0] == b[0] && Less(a[1..], b[1..]) {
        var i: nat :| i < |a| - 1 && DiffersAt(a[1..], b[1..], i, Lt);
        assert a[..i + 1] == [a[0]] + a[1..][..i] && b[..i + 1] == [b[0]] + b[1..][..i];
        assert DiffersAt(a, b, i + 1, Lt);
      } else if i: nat :| i < |a| && DiffersAt(a, b, i, Lt) {
        assert i > 0;
        assert a[0] == a[..i][0] == b[..i][0] == b[0];
        assert a[1..][..i - 1] == a[..i][1..] && b[1..][..i - 1] == b[..i][1..];
        assert DiffersAt(a[1..], b[1..], i - 1, Lt);
      }
    }
  }

  lemma GreaterIsFirstDifference(a: Key, b: Key)
    requires |a| == |b|
    ensures Less(b, a) <==> exists i: nat :: i < |a| && DiffersAt(a, b, i, Gt)
  {
    LessIsFirstDifference(b, a);
    assert forall i: nat | i < |a| :: DiffersAt(a, b, i, Gt) <==> DiffersAt(b, a, i, Lt);
  }

  /** The order between keys that a comparison sign stands for. */
  predicate Compares(sign: Sign, a: Key, b: Key) {
    match sign
    case Lt => Less(a, b)
    case Le => Leq(a, b)
    case Eq => a == b
    case Ge => Leq(b, a)
    case Gt => Less(b, a)
  }

  /**
   Lexicographic meaning: for any number of columns, the or-of-ands with its
   exploded arguments holds of a row exactly when the row's key compares with the
   bound as the sign says.
   */
  lemma RangeComparisonIsLexicographic(columns: seq<string>, values: seq<string>, args: seq<Value>, sign: Sign,
                                       row: TableRow)
    requires |columns| == |values| == |args| && HasNames(row, columns) && !sign.Eq?
    ensures Holes(RangeComparison(columns, values, sign)) == |RangeArgs(args, sign)|
    ensures Eval(RangeComparison(columns, values, sign), row, RangeArgs(args, sign)) <==>
            Compares(sign, KeyOf(row, columns), args)
  {
    var n, key, strict := |columns|, KeyOf(row, columns), Strict(sign);
    var parts := RangeParts(columns, values, n, strict);
    RangePartsMean(columns, values, n, strict, row, args);
    LessIsFirstDifference(key, args);
    GreaterIsFirstDifference(key, args);
    if IncludesEquals(sign) {
      var equal := And(Equalities(columns, values));
      EqualitiesMean(columns, values, row, args);
      OneDisjunct(equal, row, args);
      EvalAnyAppend(parts, [equal], row, Exploded(args, n), args);
    } else {
      assert parts + [] == parts && Exploded(args, n) + [] == Exploded(args, n);
    }
  }

  lemma {:induction false} ExplodedCount(args: seq<Value>, n: nat)
    requires n <= |args|
    ensures |Exploded(args, n)| == n * (n + 1) / 2
  {
    if n > 0 {
      ExplodedCount(args, n - 1);
      assert n * (n + 1) == (n - 1) * n + 2 * n;
    }
  }

  /** There are n(n+1)/2 arguments, and n more when equality is included. */
  lemma RangeArgsCount(args: seq<Value>, sign: Sign)
    ensures var n := |args|;
            |RangeArgs(args, sign)| == n * (n + 1) / 2 + if IncludesEquals(sign) then n else 0
  {
    ExplodedCount(args, |args|);
  }
}
