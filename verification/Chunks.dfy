/**
 How the row copy walks the key range, chunk by chunk.
 */
module Chunks {
  import opened Wrappers
  import opened Keys
  import opened Ordering
  import opened RangePredicate
  import opened RangeQuery
  import opened RangeEnd

  /** A copied interval; `inclusive` says whether it includes its start. */
  datatype Chunk = Chunk(start: Key, inclusive: bool, end: Key)

  predicate Covers(c: Chunk, k: Key) {
    Between(c.start, c.inclusive, c.end, k)
  }

  // ----- adjacency

  function LastEnd(chunks: seq<Chunk>, from: Key): Key {
    if chunks == [] then from else chunks[|chunks| - 1].end
  }

  /** Each chunk starts where the one before ends, and only the first may include its start. */
  predicate Adjacent(chunks: seq<Chunk>, from: Key, inclusive: bool) {
    chunks == [] ||
    var before, last := chunks[..|chunks| - 1], chunks[|chunks| - 1];
    && Adjacent(before, from, inclusive)
    && last.start == LastEnd(before, from)
    && last.inclusive == (inclusive && before == [])
    && Covers(last, last.end)
  }

  lemma AdjacentExtend(chunks: seq<Chunk>, from: Key, inclusive: bool, c: Chunk)
    requires Adjacent(chunks, from, inclusive)
    requires c.start == LastEnd(chunks, from) && c.inclusive == (inclusive && chunks == []) && Covers(c, c.end)
    ensures Adjacent(chunks + [c], from, inclusive) && LastEnd(chunks + [c], from) == c.end
  {
    assert (chunks + [c])[..|chunks|] == chunks;
  }

  function Count(chunks: seq<Chunk>, k: Key): nat {
    if chunks == [] then 0
    else if Covers(chunks[|chunks| - 1], k) then Count(chunks[..|chunks| - 1], k) + 1
    else Count(chunks[..|chunks| - 1], k)
  }

  lemma {:induction false} EndsGrow(chunks: seq<Chunk>, from: Key, inclusive: bool)
    requires Adjacent(chunks, from, inclusive)
    ensures Leq(from, LastEnd(chunks, from))
    ensures chunks != [] && !inclusive ==> Less(from, LastEnd(chunks, from))
  {
    if chunks != [] {
      var before := chunks[..|chunks| - 1];
      EndsGrow(before, from, inclusive);
      LeqTransitive(from, LastEnd(before, from), LastEnd(chunks, from));
      if !inclusive && from == LastEnd(chunks, from) {
        LessIrreflexive(from);
        LeqAntisymmetric(from, LastEnd(before, from));
      }
    }
  }

  /** Adjacent chunks have no gap and no overlap: each key up to the last end is in exactly one. */
  lemma {:induction false} ChunksPartition(chunks: seq<Chunk>, from: Key, inclusive: bool, k: Key)
    requires Adjacent(chunks, from, inclusive)
    ensures Count(chunks, k) == if chunks != [] && Between(from, inclusive, LastEnd(chunks, from), k) then 1 else 0
  {
    if chunks != [] {
      var before, last := chunks[..|chunks| - 1], chunks[|chunks| - 1];
      ChunksPartition(before, from, inclusive, k);
      EndsGrow(before, from, inclusive);
      if before != [] {
        SplitInterval(from, inclusive, last.start, last.end, k);
      }
    }
  }

  lemma SplitInterval(from: Key, inclusive: bool, mid: Key, end: Key, k: Key)
    requires Leq(mid, end) && Leq(from, mid) && (inclusive || Less(from, mid))
    ensures Between(from, inclusive, end, k) <==> Between(from, inclusive, mid, k) || Between(mid, false, end, k)
    ensures !(Between(from, inclusive, mid, k) && Between(mid, false, end, k))
  {
    if Leq(k, mid) {
      LeqTransitive(k, mid, end);
      if Less(mid, k) {
        LessAsymmetric(mid, k);
      }
    } else {
      NotLeqIsGreater(k, mid);
      LeqTransitive(from, mid, k);
      if from == k {
        LessAsymmetric(mid, k);
      }
    }
  }

  // ----- the next chunk's end

  /**
   The answers of the two queries, on the tables as they were when each was asked and
   at the chunk size of that moment.
   */
  function NextEnd(first: seq<TableRow>, n: int, second: seq<TableRow>, m: int, columns: seq<string>, start: Key,
                   inclusive: bool, max: Key): Option<Key> {
    var key := Picked(Offset(n - 1), IntervalKeys(first, columns, start, inclusive, max));
    if key.Some? then key else Picked(Last(m), IntervalKeys(second, columns, start, inclusive, max))
  }

  lemma {:induction false} ProjectCount(table: seq<TableRow>, columns: seq<string>, start: Key, inclusive: bool,
                                        end: Key, k: Key)
    requires RowsHave(table, columns)
    ensures RowsHave(Interval(table, columns, start, inclusive, end), columns)
    ensures multiset(Project(Interval(table, columns, start, inclusive, end), columns))[k] ==
            if Between(start, inclusive, end, k) then multiset(Project(table, columns))[k] else 0
  {
    if table != [] {
      ProjectCount(table[1..], columns, start, inclusive, end, k);
    }
  }

  lemma IntervalKeysCount(table: seq<TableRow>, columns: seq<string>, start: Key, inclusive: bool, end: Key, k: Key)
    requires RowsHave(table, columns)
    ensures multiset(IntervalKeys(table, columns, start, inclusive, end))[k] ==
            if Between(start, inclusive, end, k) then multiset(Project(table, columns))[k] else 0
  {
    ProjectCount(table, columns, start, inclusive, end, k);
    SortSorts(Project(Interval(table, columns, start, inclusive, end), columns));
  }

  /** A picked key is a key of the table inside the interval. */
  lemma PickedIsInside(pick: Pick, table: seq<TableRow>, columns: seq<string>, start: Key, inclusive: bool, end: Key)
    requires RowsHave(table, columns)
    requires Picked(pick, IntervalKeys(table, columns, start, inclusive, end)).Some?
    ensures var e := Picked(pick, IntervalKeys(table, columns, start, inclusive, end)).value;
            Between(start, inclusive, end, e) && e in Project(table, columns)
  {
    var keys := IntervalKeys(table, columns, start, inclusive, end);
    var e := Picked(pick, keys).value;
    assert e in keys;
    assert e in multiset(keys);
    IntervalKeysCount(table, columns, start, inclusive, end, e);
    assert e in multiset(Project(table, columns));
  }

  // ----- a table nobody writes to

  ghost predicate UniqueKeys(table: seq<TableRow>, columns: seq<string>)
    requires RowsHave(table, columns)
  {
    forall k :: multiset(Project(table, columns))[k] <= 1
  }

  lemma {:induction false} CountedTwice(table: seq<TableRow>, columns: seq<string>, start: Key, inclusive: bool,
                                        end: Key, k: Key)
    requires RowsHave(table, columns)
    ensures CountTo(table, columns, start, inclusive, end, k, true) <=
            CountTo(table, columns, start, inclusive, end, k, false) + multiset(Project(table, columns))[k]
  {
    if table != [] {
      CountedTwice(table[1..], columns, start, inclusive, end, k);
    }
  }

  /** Where keys are unique, exactly n rows of the interval, or all if there are fewer, lie up to the end. */
  lemma EndCountsRows(e: Key, table: seq<TableRow>, columns: seq<string>, start: Key, inclusive: bool, end: Key,
                      n: int, atMost: bool)
    requires RowsHave(table, columns) && UniqueKeys(table, columns) && n >= 1
    requires IsEnd(Some(e), table, columns, start, inclusive, end, n, atMost)
    ensures var count := |Interval(table, columns, start, inclusive, end)|;
            CountTo(table, columns, start, inclusive, end, e, true) == if atMost && count < n then count else n
  {
    CountedTwice(table, columns, start, inclusive, end, e);
  }

  lemma AboveHead(keys: seq<Key>, m: nat, k: Key)
    requires Sorted(keys) && 0 < m <= |keys| && multiset(keys)[k] <= 1
    ensures multiset(keys[m..])[k] == if Less(keys[m - 1], k) then multiset(keys)[k] else 0
  {
    var e, above := keys[m - 1], keys[m..];
    assert keys == keys[..m] + above;
    assert multiset(keys)[k] == multiset(keys[..m])[k] + multiset(above)[k];
    assert keys[..m][m - 1] == e;
    assert e in multiset(keys[..m]);
    if Less(e, k) {
      LessAsymmetric(e, k);
      assert k !in keys[..m];
      assert k !in multiset(keys[..m]);
    } else {
      assert k in above ==> k == e;
      assert k in multiset(above) ==> k in above;
    }
  }

  /** After a chunk that ends at the m-th key of the interval, the keys from there on remain. */
  lemma RemainingKeys(table: seq<TableRow>, columns: seq<string>, start: Key, inclusive: bool, max: Key, m: nat)
    requires RowsHave(table, columns) && UniqueKeys(table, columns)
    requires 0 < m <= |IntervalKeys(table, columns, start, inclusive, max)|
    ensures var keys := IntervalKeys(table, columns, start, inclusive, max);
            IntervalKeys(table, columns, keys[m - 1], false, max) == keys[m..]
  {
    var keys := IntervalKeys(table, columns, start, inclusive, max);
    var e := keys[m - 1];
    var rest := IntervalKeys(table, columns, e, false, max);
    forall k ensures multiset(rest)[k] == multiset(keys[m..])[k] {
      RemainingCount(table, columns, start, inclusive, max, m, k);
    }
    IntervalKeysSorted(table, columns, start, inclusive, max);
    IntervalKeysSorted(table, columns, e, false, max);
    assert multiset(rest) == multiset(keys[m..]);
    SortedIsUnique(rest, keys[m..]);
  }

  lemma IntervalKeysSorted(table: seq<TableRow>, columns: seq<string>, start: Key, inclusive: bool, end: Key)
    ensures Sorted(IntervalKeys(table, columns, start, inclusive, end))
  {
    IntervalHas(table, columns, start, inclusive, end);
    SortSorts(Project(Interval(table, columns, start, inclusive, end), columns));
  }

  lemma RemainingCount(table: seq<TableRow>, columns: seq<string>, start: Key, inclusive: bool, max: Key, m: nat,
                       k: Key)
    requires RowsHave(table, columns) && UniqueKeys(table, columns)
    requires 0 < m <= |IntervalKeys(table, columns, start, inclusive, max)|
    ensures var keys := IntervalKeys(table, columns, start, inclusive, max);
            multiset(IntervalKeys(table, columns, keys[m - 1], false, max))[k] == multiset(keys[m..])[k]
  {
    var keys := IntervalKeys(table, columns, start, inclusive, max);
    var e := keys[m - 1];
    PickedIsInside(Offset(m - 1), table, columns, start, inclusive, max);
    IntervalKeysCount(table, columns, start, inclusive, max, k);
    IntervalKeysCount(table, columns, e, false, max, k);
    IntervalKeysSorted(table, columns, start, inclusive, max);
    AboveHead(keys, m, k);
    if Less(e, k) {
      LeqTransitive(start, e, k);
      if start == k {
        LessAsymmetric(e, k);
      }
    }
  }

  /** The chunks of a copy of a table that does not change, at a fixed chunk size. */
  function QuietChunks(table: seq<TableRow>, n: nat, columns: seq<string>, start: Key, inclusive: bool,
                       max: Key): seq<Chunk>
    requires RowsHave(table, columns) && UniqueKeys(table, columns) && n >= 1
    decreases |IntervalKeys(table, columns, start, inclusive, max)|
  {
    var keys := IntervalKeys(table, columns, start, inclusive, max);
    var end := NextEnd(table, n, table, n, columns, start, inclusive, max);
    if end.None? then []
    else
      var m := if n <= |keys| then n else |keys|;
      RemainingKeys(table, columns, start, inclusive, max, m);
      [Chunk(start, inclusive, end.value)] + QuietChunks(table, n, columns, end.value, false, max)
  }

  lemma QuietStep(table: seq<TableRow>, n: nat, columns: seq<string>, start: Key, inclusive: bool, max: Key)
    requires RowsHave(table, columns) && UniqueKeys(table, columns) && n >= 1
    requires IntervalKeys(table, columns, start, inclusive, max) != []
    ensures var keys := IntervalKeys(table, columns, start, inclusive, max);
            var m := if n <= |keys| then n else |keys|;
            && IntervalKeys(table, columns, keys[m - 1], false, max) == keys[m..]
            && QuietChunks(table, n, columns, start, inclusive, max) ==
               [Chunk(start, inclusive, keys[m - 1])] + QuietChunks(table, n, columns, keys[m - 1], false, max)
  {
    var keys := IntervalKeys(table, columns, start, inclusive, max);
    var m := if n <= |keys| then n else |keys|;
    RemainingKeys(table, columns, start, inclusive, max, m);
  }

  /** A quiet table of N rows takes exactly ceil(N / n) chunks of size n. */
  lemma {:induction false} QuietTableTakesCeil(table: seq<TableRow>, n: nat, columns: seq<string>, start: Key,
                                               inclusive: bool, max: Key)
    requires RowsHave(table, columns) && UniqueKeys(table, columns) && n >= 1
    ensures var rows := |IntervalKeys(table, columns, start, inclusive, max)|;
            |QuietChunks(table, n, columns, start, inclusive, max)| == (rows + n - 1) / n
    decreases |IntervalKeys(table, columns, start, inclusive, max)|
  {
    var keys := IntervalKeys(table, columns, start, inclusive, max);
    if keys == [] {
      Small(n - 1, n);
    } else {
      var m := if n <= |keys| then n else |keys|;
      QuietStep(table, n, columns, start, inclusive, max);
      QuietTableTakesCeil(table, n, columns, keys[m - 1], false, max);
      CeilStep(|keys|, n);
    }
  }

  lemma CeilStep(rows: nat, n: nat)
    requires rows >= 1 && n >= 1
    ensures (rows + n - 1) / n == 1 + ((if n <= rows then rows - n else 0) + n - 1) / n
  {
    var a := rows - 1;
    assert rows + n - 1 == a + n;
    AddOne(a, n);
    if n > rows {
      Small(a, n);
      Small(n - 1, n);
    }
  }

  lemma Small(a: nat, n: nat)
    requires a < n
    ensures a / n == 0
  {
  }

  lemma AddOne(a: nat, n: nat)
    requires n >= 1
    ensures (a + n) / n == a / n + 1
  {
    var q, r := a / n, a % n;
    assert a == q * n + r;
    Distribute(q, 1, n);
    DivUnique(a + n, n, q + 1, r);
  }

  lemma Distribute(p: int, q: int, n: int)
    ensures (p + q) * n == p * n + q * n
  {
  }

  lemma AtLeast(p: int, n: nat)
    requires p >= 1
    ensures p * n >= n
  {
    Distribute(p - 1, 1, n);
  }

  lemma DivUnique(x: nat, n: nat, q: int, r: nat)
    requires x == q * n + r && r < n
    ensures x / n == q
  {
    var p, s := x / n, x % n;
    assert x == p * n + s;
    if p < q {
      AtLeast(q - p, n);
      Distribute(q - p, p, n);
    } else if q < p {
      AtLeast(p - q, n);
      Distribute(p - q, q, n);
    }
  }
}
