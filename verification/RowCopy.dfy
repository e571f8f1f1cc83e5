/**
 The row copy's state and its operations, which walk the key range in place.
 */
module RowCopy {
  import opened Wrappers
  import opened Keys
  import opened Projection
  import opened RangePredicate
  import opened RangeQuery
  import opened RangeEnd
  import opened Chunks
  import opened Ordering
  import opened Replay
  import Protocol

  /** One look at the table: a chunk-size change that came before it, and the rows seen or the failure. */
  datatype Poll = Poll(resize: Option<int>, table: Result<seq<TableRow>>)

  /** How an insert ends, and the table it read: it may take effect although its call fails. */
  datatype Inserted = Done(table: seq<TableRow>) | Unseen(table: seq<TableRow>, error: string) | Failed(error: string)

  /** One attempt at a chunk: the range-end queries, and the insert. */
  datatype Attempt = Attempt(polls: seq<Poll>, insert: Inserted)

  function Clamp(value: int, low: int, high: int): (r: int)
    requires low <= high
    ensures low <= r <= high && (low <= value <= high ==> r == value)
    ensures (value < low ==> r == low) && (value > high ==> r == high)
  {
    if value < low then low else if value > high then high else value
  }

  function Resized(size: int, resize: Option<int>): int {
    if resize.Some? then Clamp(resize.value, 10, 100000) else size
  }

  /** What the copy has ahead of it: the keys from `start` to `max`. */
  datatype Span = Span(columns: seq<string>, start: Key, inclusive: bool, max: Key)

  function KeysIn(table: seq<TableRow>, span: Span): seq<Key> {
    IntervalKeys(table, span.columns, span.start, span.inclusive, span.max)
  }

  /** What the two range-end queries come to. */
  function Calculated(polls: seq<Poll>, size: int, span: Span): Result<Option<Key>>
    requires |polls| == 2
  {
    if polls[0].table.Err? then Err(polls[0].table.error)
    else
      var n := Resized(size, polls[0].resize);
      var key := Picked(Offset(n - 1), KeysIn(polls[0].table.value, span));
      if key.Some? then Ok(key)
      else if polls[1].table.Err? then Err(polls[1].table.error)
      else Ok(Picked(Last(Resized(n, polls[1].resize)), KeysIn(polls[1].table.value, span)))
  }

  /** The answer is key number `n` of what lies ahead, or the last key if there are fewer and `atMost`. */
  predicate IsEndOf(answer: Option<Key>, table: seq<TableRow>, span: Span, n: int, atMost: bool) {
    IsEnd(answer, table, span.columns, span.start, span.inclusive, span.max, n, atMost)
  }

  /**
   The end is key number `n` of the table as it was first looked at; or there was none, and
   it is key number `m` of the table as it was then, the last one if there are fewer.
   */
  predicate IsNextEnd(polls: seq<Poll>, n: int, m: int, span: Span, end: Option<Key>)
    requires |polls| == 2
  {
    && polls[0].table.Ok?
    && (|| (end.Some? && IsEndOf(end, polls[0].table.value, span, n, false))
        || (&& IsEndOf(None, polls[0].table.value, span, n, false)
            && polls[1].table.Ok? && IsEndOf(end, polls[1].table.value, span, m, true)))
  }

  lemma PickedIsEndOf(answer: Option<Key>, pick: Pick, table: seq<TableRow>, span: Span, n: int)
    requires n >= 1 && (pick == Offset(n - 1) || pick == Last(n))
    ensures IsEndOf(answer, table, span, n, pick.Last?) <==> answer == Picked(pick, KeysIn(table, span))
  {
    PickedIsEnd(answer, pick, table, span.columns, span.start, span.inclusive, span.max, n);
  }

  /** What the two queries come to is the next end, whatever happens to the table and the size in between. */
  lemma CalculatedIsEnd(polls: seq<Poll>, size: int, span: Span)
    requires |polls| == 2 && size >= 1
    ensures var n, m := Resized(size, polls[0].resize), SizeAfter(polls, size, span);
            forall end :: Calculated(polls, size, span) == Ok(end) <==> IsNextEnd(polls, n, m, span, end)
  {
    var n := Resized(size, polls[0].resize);
    var m := Resized(n, polls[1].resize);
    if polls[0].table.Ok? {
      forall end ensures IsEndOf(end, polls[0].table.value, span, n, false) <==>
                         end == Picked(Offset(n - 1), KeysIn(polls[0].table.value, span)) {
        PickedIsEndOf(end, Offset(n - 1), polls[0].table.value, span, n);
      }
    }
    if polls[1].table.Ok? {
      forall end ensures IsEndOf(end, polls[1].table.value, span, m, true) <==>
                         end == Picked(Last(m), KeysIn(polls[1].table.value, span)) {
        PickedIsEndOf(end, Last(m), polls[1].table.value, span, m);
      }
    }
  }

  /** The chunk size after the queries: the second one is made only when the first finds no key. */
  function SizeAfter(polls: seq<Poll>, size: int, span: Span): int
    requires |polls| == 2
  {
    var n := Resized(size, polls[0].resize);
    if polls[0].table.Err? || Picked(Offset(n - 1), KeysIn(polls[0].table.value, span)).Some? then n
    else Resized(n, polls[1].resize)
  }

  /** The chunk size changes a second time exactly if the first query finds no key. */
  lemma SizeAfterIs(polls: seq<Poll>, size: int, span: Span)
    requires |polls| == 2 && size >= 1
    ensures var n := Resized(size, polls[0].resize);
            var silent := polls[0].table.Ok? && IsEndOf(None, polls[0].table.value, span, n, false);
            SizeAfter(polls, size, span) == if silent then Resized(n, polls[1].resize) else n
  {
    if polls[0].table.Ok? {
      var n := Resized(size, polls[0].resize);
      PickedIsEndOf(None, Offset(n - 1), polls[0].table.value, span, n);
    }
  }

  // ----- attempts that failed

  ghost predicate TwoPolls(attempts: seq<Attempt>) {
    forall i | 0 <= i < |attempts| :: |attempts[i].polls| == 2
  }

  ghost function SizeBefore(attempts: seq<Attempt>, size: int, span: Span): int
    requires TwoPolls(attempts)
  {
    if attempts == [] then size
    else
      var n := |attempts| - 1;
      SizeAfter(attempts[n].polls, SizeBefore(attempts[..n], size, span), span)
  }

  /** The end that the attempt's queries give, if any. */
  function Found(polls: seq<Poll>, size: int, span: Span): Option<Key>
    requires |polls| == 2
  {
    var found := Calculated(polls, size, span);
    if found.Ok? then found.value else None
  }

  /** Where the attempts, one after the other, have moved the end of the current chunk. */
  ghost function MovedTo(attempts: seq<Attempt>, size: int, span: Span): Option<Key>
    requires TwoPolls(attempts)
  {
    if attempts == [] then None
    else
      var n := |attempts| - 1;
      var end := Found(attempts[n].polls, SizeBefore(attempts[..n], size, span), span);
      if end.Some? then end else MovedTo(attempts[..n], size, span)
  }

  lemma {:induction false} SizeKept(attempts: seq<Attempt>, size: int, span: Span)
    requires TwoPolls(attempts)
    ensures NoResizes(attempts) ==> SizeBefore(attempts, size, span) == size
    decreases |attempts|
  {
    if attempts != [] && NoResizes(attempts) {
      var n := |attempts| - 1;
      SizeKept(attempts[..n], size, span);
      assert NoResize(attempts[n]);
    }
  }

  /** After the attempts `failed`, from size `size0` and end `end0` on, the chunk has this size and this end. */
  ghost predicate Tried(failed: seq<Attempt>, span: Span, size0: int, end0: Option<Key>, size: int, end: Option<Key>) {
    && TwoPolls(failed) && size == SizeBefore(failed, size0, span)
    && end == if MovedTo(failed, size0, span).Some? then MovedTo(failed, size0, span) else end0
  }

  lemma TriedMore(failed: seq<Attempt>, a: Attempt, span: Span, size0: int, end0: Option<Key>, size: int,
                  end: Option<Key>)
    requires Tried(failed, span, size0, end0, size, end) && |a.polls| == 2
    ensures var found := Found(a.polls, size, span);
            Tried(failed + [a], span, size0, end0, SizeAfter(a.polls, size, span), if found.Some? then found else end)
  {
    assert (failed + [a])[..|failed|] == failed;
  }

  /** Without changes of the chunk size, every attempt finds the size there was. */
  lemma SizesKept(attempts: seq<Attempt>, failed: seq<Attempt>, span: Span, size0: int, end0: Option<Key>, size: int,
                  end: Option<Key>)
    requires TwoPolls(attempts) && failed <= attempts && Tried(failed, span, size0, end0, size, end)
    ensures NoResizes(attempts) ==>
              && size == size0
              && (|failed| < |attempts| ==> SizeAfter(attempts[|failed|].polls, size, span) == size)
  {
    if NoResizes(attempts) {
      assert forall i | 0 <= i < |failed| :: failed[i] == attempts[i];
      SizeKept(failed, size0, span);
      assert |failed| < |attempts| ==> NoResize(attempts[|failed|]);
    }
  }

  /** A key of the span is no end of what comes before it. */
  lemma MovedIsBeyond(moved: Option<Key>, span: Span)
    requires moved.Some? ==> Between(span.start, span.inclusive, span.max, moved.value)
    ensures var end := if span.inclusive then None else Some(span.start);
            (if moved.Some? then moved else end) == end <==> moved.None?
  {
    LessIrreflexive(span.start);
  }

  /** How the values that occur in keys print. */
  type Prints = map<Value, string>

  predicate Printable(k: Key, columns: seq<string>, printed: Prints) {
    |k| == |columns| && forall i | 0 <= i < |k| :: k[i] in printed
  }

  predicate TableHas(table: Result<seq<TableRow>>, columns: seq<string>, printed: Prints) {
    table.Ok? ==>
      RowsHave(table.value, columns) && forall k | k in Project(table.value, columns) :: Printable(k, columns, printed)
  }

  /** Different values print differently. */
  predicate PrintsApart(printed: Prints) {
    forall a, b | a in printed && b in printed && printed[a] == printed[b] :: a == b
  }

  /** The table that the insert reads can be copied. */
  ghost predicate IsInsert(insert: Inserted, columns: seq<string>, sharing: Sharing, printed: Prints) {
    !insert.Failed? ==>
      && TableHas(Ok(insert.table), columns, printed)
      && UniqueKeys(insert.table, columns) && RowsHave(insert.table, sharing.shared)
  }

  ghost predicate IsAttempt(a: Attempt, columns: seq<string>, sharing: Sharing, printed: Prints) {
    && |a.polls| == 2 && TableHas(a.polls[0].table, columns, printed) && TableHas(a.polls[1].table, columns, printed)
    && IsInsert(a.insert, columns, sharing, printed)
  }

  predicate NoResize(a: Attempt) {
    forall i | 0 <= i < |a.polls| :: a.polls[i].resize.None?
  }

  predicate NoResizes(attempts: seq<Attempt>) {
    forall i | 0 <= i < |attempts| :: NoResize(attempts[i])
  }

  /** No query of the attempt fails. */
  predicate Smooth(a: Attempt) {
    a.insert.Done? && forall i | 0 <= i < |a.polls| :: a.polls[i].table.Ok?
  }

  /** Some query of each attempt fails. */
  predicate NoneSmooth(attempts: seq<Attempt>) {
    forall i | 0 <= i < |attempts| :: !Smooth(attempts[i])
  }

  /** Each chunk is tried, and nothing fails at first. */
  predicate AllSmooth(turns: seq<seq<Attempt>>) {
    forall t | 0 <= t < |turns| :: turns[t] != [] && Smooth(turns[t][0])
  }

  /** Each chunk is tried. */
  predicate AllTried(turns: seq<seq<Attempt>>) {
    forall t | 0 <= t < |turns| :: turns[t] != []
  }

  // ----- insert ignore of selected rows

  /** The rows have the key's and the shared columns, and the ghost calls the key's columns alike. */
  ghost predicate Copyable(rows: seq<TableRow>, columns: seq<string>, p: Sharing) {
    RowsHave(rows, columns) && RowsHave(rows, p.shared) && KeepsNames(p, columns)
  }

  /** The original as the ghost is to hold it. */
  ghost function AsTable(rows: seq<TableRow>, columns: seq<string>, p: Sharing): map<Key, TableRow>
    requires Copyable(rows, columns, p)
  {
    if rows == [] then map[] else AsTable(rows[1..], columns, p)[KeyOf(rows[0], columns) := ProjectedRow(p, rows[0])]
  }

  /** Inserts the rows' shared columns under their mapped names, skipping keys that are there. */
  ghost function InsertRows(shadow: map<Key, TableRow>, rows: seq<TableRow>, columns: seq<string>, p: Sharing)
    : map<Key, TableRow>
    requires Copyable(rows, columns, p)
    decreases |rows|
  {
    if rows == [] then shadow
    else
      ProjectedRowKey(p, columns, rows[0]);
      var row := ProjectedRow(p, rows[0]);
      InsertRows(InsertIgnore(shadow, KeyOf(row, columns), row), rows[1..], columns, p)
  }

  /** `row` is the ghost's view of one of the rows, at key `k`. */
  ghost predicate HasRow(rows: seq<TableRow>, columns: seq<string>, p: Sharing, k: Key, row: TableRow)
    requires Copyable(rows, columns, p)
  {
    exists original :: original in rows && KeyOf(original, columns) == k && ProjectedRow(p, original) == row
  }

  lemma {:induction false} InsertedAt(shadow: map<Key, TableRow>, rows: seq<TableRow>, columns: seq<string>,
                                      p: Sharing, k: Key)
    requires Copyable(rows, columns, p)
    ensures var result := InsertRows(shadow, rows, columns, p);
            && (k in result <==> k in shadow || k in Project(rows, columns))
            && (k in shadow ==> result[k] == shadow[k])
            && (k in result && k !in shadow ==> HasRow(rows, columns, p, k, result[k]))
    decreases |rows|
  {
    if rows != [] {
      var row := ProjectedRow(p, rows[0]);
      ProjectedRowKey(p, columns, rows[0]);
      InsertedAt(InsertIgnore(shadow, KeyOf(row, columns), row), rows[1..], columns, p, k);
    }
  }

  lemma {:induction false} AsTableAt(rows: seq<TableRow>, columns: seq<string>, p: Sharing, k: Key, original: TableRow)
    requires Copyable(rows, columns, p) && UniqueKeys(rows, columns)
    ensures k in AsTable(rows, columns, p) <==> k in Project(rows, columns)
    ensures original in rows && KeyOf(original, columns) == k ==>
              k in AsTable(rows, columns, p) && AsTable(rows, columns, p)[k] == ProjectedRow(p, original)
  {
    if rows != [] {
      var first, rest := KeyOf(rows[0], columns), Project(rows[1..], columns);
      assert Project(rows, columns) == [first] + rest;
      forall x ensures multiset(rest)[x] <= 1 {
        assert multiset(Project(rows, columns))[x] == multiset{first}[x] + multiset(rest)[x];
      }
      AsTableAt(rows[1..], columns, p, k, original);
      if original in rows[1..] && KeyOf(original, columns) == k {
        ProjectHas(rows[1..], columns, original);
        assert k in multiset(rest);
        assert multiset(Project(rows, columns))[k] == multiset{first}[k] + multiset(rest)[k];
        assert k != first;
      }
    }
  }

  lemma {:induction false} ProjectHas(rows: seq<TableRow>, columns: seq<string>, row: TableRow)
    requires RowsHave(rows, columns) && row in rows
    ensures KeyOf(row, columns) in Project(rows, columns)
  {
    if row != rows[0] {
      ProjectHas(rows[1..], columns, row);
    }
  }

  /** Exact bounds on rows that can be copied. */
  ghost predicate Selects(q: Query, table: seq<TableRow>, columns: seq<string>, p: Sharing, c: Chunk) {
    && SelectsExactly(q, columns, c.start, c.inclusive, c.end)
    && Copyable(table, columns, p) && UniqueKeys(table, columns)
  }

  /** Inserting what an exact query selects is copying the interval of the projected original. */
  lemma InsertCopiesInterval(shadow: map<Key, TableRow>, q: Query, table: seq<TableRow>, columns: seq<string>,
                             p: Sharing, c: Chunk)
    requires Selects(q, table, columns, p, c)
    ensures Copyable(UnionAll(q.selects, table, q.args), columns, p)
    ensures InsertRows(shadow, UnionAll(q.selects, table, q.args), columns, p) ==
            Protocol.CopyRows(shadow, AsTable(table, columns, p), c.start, c.inclusive, c.end)
  {
    PartsAreUnion(q.selects, table, q.args, columns);
    PartsAreUnion(q.selects, table, q.args, p.shared);
    var result := InsertRows(shadow, UnionAll(q.selects, table, q.args), columns, p);
    var copied := Protocol.CopyRows(shadow, AsTable(table, columns, p), c.start, c.inclusive, c.end);
    forall k ensures k in result <==> k in copied
      ensures k in result ==> result[k] == copied[k]
    {
      InsertCopiesKey(shadow, q, table, columns, p, c, k);
    }
  }

  lemma InsertCopiesKey(shadow: map<Key, TableRow>, q: Query, table: seq<TableRow>, columns: seq<string>,
                        p: Sharing, c: Chunk, k: Key)
    requires Selects(q, table, columns, p, c) && Copyable(UnionAll(q.selects, table, q.args), columns, p)
    ensures var result := InsertRows(shadow, UnionAll(q.selects, table, q.args), columns, p);
            var t := AsTable(table, columns, p);
            && (k in result <==> k in shadow || (k in t && Between(c.start, c.inclusive, c.end, k)))
            && (k in result ==> result[k] == if k in shadow then shadow[k] else t[k])
  {
    var rows := UnionAll(q.selects, table, q.args);
    var result := InsertRows(shadow, rows, columns, p);
    InsertedAt(shadow, rows, columns, p, k);
    SelectedAt(q, table, columns, p, c, k);
    if k in result && k !in shadow {
      var original :| original in rows && KeyOf(original, columns) == k && ProjectedRow(p, original) == result[k];
      SelectedRow(q, table, columns, p, c, k, original);
    }
  }

  lemma SelectedAt(q: Query, table: seq<TableRow>, columns: seq<string>, p: Sharing, c: Chunk, k: Key)
    requires Selects(q, table, columns, p, c) && RowsHave(UnionAll(q.selects, table, q.args), columns)
    ensures k in Project(UnionAll(q.selects, table, q.args), columns) <==>
            k in AsTable(table, columns, p) && Between(c.start, c.inclusive, c.end, k)
  {
    var rows, interval := UnionAll(q.selects, table, q.args), Interval(table, columns, c.start, c.inclusive, c.end);
    ExactQueryCopiesInterval(q, table, columns, c.start, c.inclusive, c.end);
    IntervalHas(table, columns, c.start, c.inclusive, c.end);
    SameRowsSameKeys(rows, interval, columns);
    ProjectCount(table, columns, c.start, c.inclusive, c.end, k);
    AsTableAt(table, columns, p, k, map[]);
    assert k in Project(rows, columns) <==> k in multiset(Project(rows, columns));
    assert k in Project(table, columns) <==> k in multiset(Project(table, columns));
  }

  lemma SelectedRow(q: Query, table: seq<TableRow>, columns: seq<string>, p: Sharing, c: Chunk, k: Key, row: TableRow)
    requires Selects(q, table, columns, p, c)
    requires row in UnionAll(q.selects, table, q.args) && HasNames(row, columns) && KeyOf(row, columns) == k
    ensures row in table && k in AsTable(table, columns, p) && AsTable(table, columns, p)[k] == ProjectedRow(p, row)
  {
    var rows, interval := UnionAll(q.selects, table, q.args), Interval(table, columns, c.start, c.inclusive, c.end);
    ExactQueryCopiesInterval(q, table, columns, c.start, c.inclusive, c.end);
    assert row in multiset(rows);
    IntervalCount(table, columns, c.start, c.inclusive, c.end, row);
    assert row in multiset(table);
    AsTableAt(table, columns, p, k, row);
  }

  // ----- a table that does not change

  function QuietAttempt(table: seq<TableRow>): Attempt {
    Attempt([Poll(None, Ok(table)), Poll(None, Ok(table))], Done(table))
  }

  lemma QuietIsSmooth(table: seq<TableRow>, columns: seq<string>, p: Sharing, printed: Prints)
    requires TableHas(Ok(table), columns, printed) && UniqueKeys(table, columns) && RowsHave(table, p.shared)
    ensures var a := QuietAttempt(table); IsAttempt(a, columns, p, printed) && Smooth(a) && NoResize(a)
  {
  }

  /** An attempt without failures on a quiet table gives the next of its chunks, or none when none remains. */
  lemma QuietNext(table: seq<TableRow>, n: int, span: Span, end: Key)
    requires RowsHave(table, span.columns) && UniqueKeys(table, span.columns) && n >= 1
    requires Calculated(QuietAttempt(table).polls, n, span) == Ok(Some(end))
    ensures QuietChunks(table, n, span.columns, span.start, span.inclusive, span.max) ==
            [Chunk(span.start, span.inclusive, end)] + QuietChunks(table, n, span.columns, end, false, span.max)
  {
    assert NextEnd(table, n, table, n, span.columns, span.start, span.inclusive, span.max) == Some(end);
  }

  lemma QuietNone(table: seq<TableRow>, n: int, columns: seq<string>, start: Key, inclusive: bool, max: Key)
    requires RowsHave(table, columns) && UniqueKeys(table, columns) && n >= 1
    requires IntervalKeys(table, columns, start, inclusive, max) == []
    ensures QuietChunks(table, n, columns, start, inclusive, max) == []
  {
  }

  lemma Regroup(done: seq<Chunk>, c: Chunk, rest: seq<Chunk>)
    ensures (done + [c]) + rest == done + ([c] + rest)
  {
  }

  /** Each key up to the last end is in exactly one chunk. */
  ghost predicate Partition(chunks: seq<Chunk>, from: Key, inclusive: bool) {
    forall k :: Count(chunks, k) == if chunks != [] && Between(from, inclusive, LastEnd(chunks, from), k) then 1 else 0
  }

  lemma Partitioned(chunks: seq<Chunk>, from: Key, inclusive: bool)
    requires Adjacent(chunks, from, inclusive)
    ensures Partition(chunks, from, inclusive)
  {
    forall k
      ensures Count(chunks, k) == if chunks != [] && Between(from, inclusive, LastEnd(chunks, from), k) then 1 else 0
    {
      ChunksPartition(chunks, from, inclusive, k);
    }
  }

  // ----- the copy itself

  /** The part of the migration context and of the applier that the row copy updates. */
  class MigrationContext {
    const columns: seq<string>
    const sharing: Sharing
    const printed: Prints
    var rangeMin: Option<Key>
    var rangeMax: Option<Key>
    var iterMin: Option<Key>
    var iterMax: Option<Key>
    var iteration: nat
    var chunkSize: int
    var lastMin: Option<Key>
    var lastMax: Option<Key>
    var noFurtherRange: bool
    var shadow: map<Key, TableRow>
    /** The chunks copied so far, and where the first of them starts. */
    ghost var chunks: seq<Chunk>
    ghost var from: Key
    ghost var fromInclusive: bool

    /** A usable key; of two columns, values print alike exactly when they are equal. */
    ghost predicate Configured() {
      && columns != [] && "" !in columns && DistinctNames(columns)
      && sharing.shared != [] && KeepsNames(sharing, columns)
      && (|columns| == 2 ==> PrintsApart(printed))
    }

    ghost predicate IsBound(k: Option<Key>) {
      k.Some? ==> Printable(k.value, columns, printed)
    }

    ghost predicate AreAttempts(attempts: seq<Attempt>) {
      forall i | 0 <= i < |attempts| :: IsAttempt(attempts[i], columns, sharing, printed)
    }

    /** The queries for two columns select just the interval. */
    ghost predicate InOrder(start: Key, end: Key) {
      |columns| == 2 ==> |start| == |end| == 2 && start[0] <= end[0]
    }

    ghost predicate Ranged()
      reads this
    {
      && rangeMin.Some? && rangeMax.Some? && IsBound(rangeMin) && IsBound(rangeMax)
      && Printable(from, columns, printed)
      && InOrder(LastEnd(chunks, from), rangeMax.value)
    }

    /** The end of what was copied, or of what the checkpoint says was copied. */
    ghost function EndOfCopied(): Option<Key>
      reads this
    {
      if iteration == 0 then None else Some(LastEnd(chunks, from))
    }

    /** The keys to copy next. */
    ghost function Ahead(): Span
      reads this
      requires rangeMax.Some?
    {
      Span(columns, LastEnd(chunks, from), iteration == 0, rangeMax.value)
    }

    /**
     Between chunks: the iteration's end is the end of the last copied chunk, until
     no key remains. (A failed attempt may have moved it to a chunk that then
     turned out to have no rows left.)
     */
    ghost predicate Valid()
      reads this
    {
      Walked() && (lastMax.Some? ==> lastMax == iterMax)
    }

    ghost predicate Walked()
      reads this
    {
      && Configured() && Ranged() && 10 <= chunkSize <= 100000
      && Adjacent(chunks, from, fromInclusive)
      && IsBound(iterMax)
      && (iteration == 0 <==> fromInclusive && chunks == [])
      && (noFurtherRange || (if iterMax.Some? then iterMax else rangeMin) == Some(LastEnd(chunks, from)))
      && (noFurtherRange || iteration == 0 || iterMax.Some?)
    }

    function Args(k: Key): (args: seq<Arg>)
      requires Printable(k, columns, printed)
      ensures |args| == |k| && Values(args) == k
    {
      var args := seq(|k|, i requires 0 <= i < |k| => Arg(k[i], printed[k[i]]));
      assert Values(args) == k;
      args
    }

    constructor (columns: seq<string>, sharing: Sharing, printed: Prints, min: Key, max: Key,
                 shadow: map<Key, TableRow>)
      requires columns != [] && "" !in columns && DistinctNames(columns)
      requires sharing.shared != [] && KeepsNames(sharing, columns)
      requires |columns| == 2 ==> PrintsApart(printed)
      requires Printable(min, columns, printed) && Printable(max, columns, printed) && Leq(min, max)
      ensures Valid() && !noFurtherRange && this.columns == columns && this.sharing == sharing &&
              this.printed == printed
      ensures chunks == [] && from == min && fromInclusive && rangeMax == Some(max) && chunkSize == 1000
      ensures this.shadow == shadow && iteration == 0
    {
      this.columns, this.sharing, this.printed := columns, sharing, printed;
      rangeMin, rangeMax, iterMin, iterMax, lastMin, lastMax := Some(min), Some(max), None, None, None, None;
      iteration, chunkSize, noFurtherRange, this.shadow := 0, 1000, false, shadow;
      chunks, from, fromInclusive := [], min, true;
      if |columns| == 2 {
        LessTwo(min, max);
      }
    }

    /**
     A migration resumed from a checkpoint continues after the checkpoint's chunk; at its
     end, if the checkpoint was stored before any chunk was copied. The range is read
     anew, and may now end before that chunk; with a key of two columns the queries are
     then right exactly when both ends have the same first value.
     */
    constructor Resume(columns: seq<string>, sharing: Sharing, printed: Prints, min: Key, max: Key,
                       chunkMin: Key, chunkMax: Key, iteration: nat, shadow: map<Key, TableRow>)
      requires columns != [] && "" !in columns && DistinctNames(columns)
      requires sharing.shared != [] && KeepsNames(sharing, columns)
      requires |columns| == 2 ==> PrintsApart(printed)
      requires Printable(min, columns, printed) && Printable(max, columns, printed) &&
               Printable(chunkMax, columns, printed)
      ensures Valid() <==> (|columns| == 2 ==> chunkMax[0] <= max[0])
      ensures !noFurtherRange && this.columns == columns && this.sharing == sharing && this.printed == printed
      ensures chunks == [] && from == chunkMax && (fromInclusive <==> iteration == 0)
      ensures rangeMax == Some(max) && chunkSize == 1000
      ensures this.shadow == shadow && this.iteration == iteration
    {
      this.columns, this.sharing, this.printed := columns, sharing, printed;
      rangeMin, rangeMax, lastMin, lastMax := Some(min), Some(max), None, None;
      iterMin, iterMax := Some(chunkMin), Some(chunkMax);
      this.iteration, chunkSize, noFurtherRange, this.shadow := iteration, 1000, false, shadow;
      chunks, from, fromInclusive := [], chunkMax, iteration == 0;
    }

    method SetChunkSize(size: int)
      modifies this`chunkSize
      ensures chunkSize == Clamp(size, 10, 100000)
      ensures 10 <= size <= 100000 ==> chunkSize == size
      ensures size < 10 ==> chunkSize == 10
      ensures size > 100000 ==> chunkSize == 100000
    {
      var chunkSize' := size;
      if chunkSize' < 10 {
        chunkSize' := 10;
      }
      if chunkSize' > 100000 {
        chunkSize' := 100000;
      }
      chunkSize := chunkSize';
    }

    /** A chunk starts where the last one ended, or at the start of the range. */
    method SetNextIterationRangeMinValues()
      modifies this`iterMin
      ensures iterMin == if iterMax.Some? then iterMax else rangeMin
    {
      iterMin := iterMax;
      if iterMin.None? {
        iterMin := rangeMin;
      }
    }

    /** What both queries and the insert need of the current chunk's start. */
    ghost predicate Started()
      reads this
    {
      && Configured() && 10 <= chunkSize <= 100000
      && iterMin.Some? && IsBound(iterMin) && rangeMax.Some? && IsBound(rangeMax)
      && InOrder(iterMin.value, rangeMax.value)
    }

    /** From the current chunk's start to the end of the range. */
    ghost function FromStart(): Span
      reads this
      requires iterMin.Some? && rangeMax.Some?
    {
      Span(columns, iterMin.value, iteration == 0, rangeMax.value)
    }

    /** Whether the queries select just the interval shows in the bounds' first values. */
    lemma BoundsAreExact(start: Key, inclusive: bool, end: Key)
      requires Configured() && Printable(start, columns, printed) && Printable(end, columns, printed)
      ensures IsExact(columns, Args(start), inclusive, Args(end)) <==> InOrder(start, end)
    {
      if |columns| == 2 {
        assert start[0] in printed && end[0] in printed;
      }
    }

    method BuildRangeEnd(viaTemptable: bool) returns (query: EndQuery)
      requires Started()
      ensures query.pick == if viaTemptable then Last(chunkSize) else Offset(chunkSize - 1)
      ensures FindsEnd(query, chunkSize, viaTemptable, columns, iterMin.value, iteration == 0, rangeMax.value)
    {
      BoundsAreExact(iterMin.value, iteration == 0, rangeMax.value);
      var start, end := Args(iterMin.value), Args(rangeMax.value);
      if viaTemptable {
        var built := BuildRangeEndViaTemptable(columns, start, end, chunkSize, iteration == 0);
        return built.value;
      }
      var built := BuildRangeEndViaOffset(columns, start, end, chunkSize, iteration == 0);
      return built.value;
    }

    /** One of the two range-end queries on the table as it is now. */
    method QueryRangeEnd(viaTemptable: bool, table: Result<seq<TableRow>>) returns (r: Result<Option<Key>>)
      requires Started() && TableHas(table, columns, printed)
      ensures r.Ok? <==> table.Ok?
      ensures r.Ok? ==> IsEndOf(r.value, table.value, FromStart(), chunkSize, viaTemptable)
      ensures table.Err? ==> r == Err(table.error)
    {
      var query := BuildRangeEnd(viaTemptable);
      if table.Err? {
        return Err(table.error);
      }
      return Ok(Answer(query, table.value, columns));
    }

    /** The query finds no key from the current chunk's start to the end of the range. */
    ghost predicate Silent(table: Result<seq<TableRow>>, n: int, atMost: bool)
      reads this
      requires iterMin.Some? && rangeMax.Some?
    {
      table.Ok? && IsEndOf(None, table.value, FromStart(), n, atMost)
    }

    method CalculateNextIterationRangeEndValues(polls: seq<Poll>) returns (r: Result<bool>)
      requires Started() && |polls| == 2
      requires TableHas(polls[0].table, columns, printed) && TableHas(polls[1].table, columns, printed)
      modifies this`iterMax, this`chunkSize
      ensures 10 <= chunkSize <= 100000 && chunkSize == SizeAfter(polls, old(chunkSize), FromStart())
      ensures var found := Calculated(polls, old(chunkSize), FromStart());
              && (r.Err? <==> found.Err?)
              && (r.Ok? ==> r.value == found.value.Some?)
              && iterMax == (if r.Ok? && r.value then found.value else old(iterMax))
      ensures r.Ok? ==> IsNextEnd(polls, Resized(old(chunkSize), polls[0].resize), chunkSize, FromStart(),
                                  if r.value then iterMax else None)
    {
      CalculatedIsEnd(polls, chunkSize, FromStart());
      SizeAfterIs(polls, chunkSize, FromStart());
      for i := 0 to 2
        invariant chunkSize == (if i == 0 then old(chunkSize)
                                else if i == 1 then Resized(old(chunkSize), polls[0].resize)
                                else Resized(Resized(old(chunkSize), polls[0].resize), polls[1].resize))
        invariant iterMax == old(iterMax)
        invariant i > 0 ==> Silent(polls[0].table, Resized(old(chunkSize), polls[0].resize), false)
        invariant i > 1 ==> Silent(polls[1].table, chunkSize, true)
      {
        if polls[i].resize.Some? {
          SetChunkSize(polls[i].resize.value);
        }
        var answer := QueryRangeEnd(i == 1, polls[i].table);
        if answer.Err? {
          return Err(answer.error);
        }
        if answer.value.Some? {
          iterMax := answer.value;
          return Ok(true);
        }
      }
      return Ok(false);
    }

    /** What an insert up to `end` makes of the ghost. */
    ghost function After(insert: Inserted, span: Span, end: Key, before: map<Key, TableRow>): map<Key, TableRow>
      requires Configured() && IsInsert(insert, columns, sharing, printed)
    {
      if insert.Failed? then before
      else Protocol.CopyRows(before, AsTable(insert.table, columns, sharing), span.start, span.inclusive, end)
    }

    /** Copies the current chunk from the table as it is now, or fails with or without having copied it. */
    method ApplyIterationInsertQuery(insert: Inserted) returns (r: Result<()>)
      requires Configured() && iterMin.Some? && IsBound(iterMin) && iterMax.Some? && IsBound(iterMax) && rangeMax.Some?
      requires InOrder(iterMin.value, iterMax.value) && IsInsert(insert, columns, sharing, printed)
      modifies this`shadow
      ensures r.Ok? <==> insert.Done?
      ensures shadow == After(insert, FromStart(), iterMax.value, old(shadow))
    {
      var values, start, end := PreparedValues(columns), Args(iterMin.value), Args(iterMax.value);
      var built := BuildRangeInsertQuery(sharing, columns, values, values, start, end, iteration == 0);
      if insert.Failed? {
        return Err(insert.error);
      }
      BoundsAreExact(iterMin.value, iteration == 0, iterMax.value);
      var query := built.value.query;
      ghost var chunk := Chunk(iterMin.value, iteration == 0, iterMax.value);
      InsertCopiesInterval(shadow, query, insert.table, columns, sharing, chunk);
      shadow := InsertSelected(UnionAll(query.selects, insert.table, query.args));
      return if insert.Done? then Ok(()) else Err(insert.error);
    }

    /** The server inserts the selected rows one by one. */
    method InsertSelected(rows: seq<TableRow>) returns (result: map<Key, TableRow>)
      requires Copyable(rows, columns, sharing)
      ensures result == InsertRows(shadow, rows, columns, sharing)
    {
      result := shadow;
      for i := 0 to |rows|
        invariant InsertRows(shadow, rows, columns, sharing) == InsertRows(result, rows[i..], columns, sharing)
      {
        ProjectedRowKey(sharing, columns, rows[i]);
        var row := ProjectedRow(sharing, rows[i]);
        assert rows[i..][0] == rows[i] && rows[i..][1..] == rows[i + 1..];
        result := InsertIgnore(result, KeyOf(row, columns), row);
      }
    }

    /** The attempt's queries gave that end at that chunk size, and its insert copied the rows up to there. */
    ghost predicate CopiedBy(a: Attempt, size: int, span: Span, end: Key,
                             before: map<Key, TableRow>, after: map<Key, TableRow>) {
      && Configured() && IsAttempt(a, columns, sharing, printed) && a.insert.Done?
      && Calculated(a.polls, size, span) == Ok(Some(end))
      && after == Protocol.CopyRows(before, AsTable(a.insert.table, columns, sharing), span.start, span.inclusive, end)
    }

    /** What one attempt makes of the ghost, whether or not it succeeds. */
    ghost function AfterOne(a: Attempt, size: int, span: Span, before: map<Key, TableRow>): map<Key, TableRow>
      requires Configured() && IsAttempt(a, columns, sharing, printed)
    {
      var end := Found(a.polls, size, span);
      if end.Some? then After(a.insert, span, end.value, before) else before
    }

    /** What failed attempts, one after the other, have made of the ghost. */
    ghost function AfterAll(failed: seq<Attempt>, size: int, span: Span, before: map<Key, TableRow>): map<Key, TableRow>
      requires Configured() && AreAttempts(failed)
    {
      if failed == [] then before
      else
        var n := |failed| - 1;
        AfterOne(failed[n], SizeBefore(failed[..n], size, span), span, AfterAll(failed[..n], size, span, before))
    }

    /** Whatever fails, the ghost only gains rows, and only in the span. */
    lemma {:induction false} FailuresOnlyCopy(failed: seq<Attempt>, size: int, span: Span, before: map<Key, TableRow>,
                                              k: Key)
      requires Configured() && AreAttempts(failed) && span.columns == columns
      ensures var after := AfterAll(failed, size, span, before);
              && (k in before ==> k in after && after[k] == before[k])
              && (k in after && k !in before ==> Between(span.start, span.inclusive, span.max, k))
      decreases |failed|
    {
      if failed != [] {
        var n := |failed| - 1;
        FailuresOnlyCopy(failed[..n], size, span, before, k);
        var size', polls := SizeBefore(failed[..n], size, span), failed[n].polls;
        if Found(polls, size', span).Some? {
          EndIsInside(polls, size', span);
          if Leq(k, Found(polls, size', span).value) {
            LeqTransitive(k, Found(polls, size', span).value, span.max);
          }
        }
      }
    }

    lemma AfterMore(failed: seq<Attempt>, a: Attempt, size: int, span: Span, before: map<Key, TableRow>)
      requires Configured() && AreAttempts(failed) && IsAttempt(a, columns, sharing, printed)
      ensures AfterAll(failed + [a], size, span, before) ==
              AfterOne(a, SizeBefore(failed, size, span), span, AfterAll(failed, size, span, before))
    {
      assert (failed + [a])[..|failed|] == failed;
    }

    /** The attempt's second query found no key in the span. */
    ghost predicate SawNone(a: Attempt, span: Span) {
      IsAttempt(a, columns, sharing, printed) && a.polls[1].table.Ok? && KeysIn(a.polls[1].table.value, span) == []
    }

    /** Ready for an attempt: the chunk starts where the copied ones end. */
    ghost predicate Poised()
      reads this
    {
      && Started() && !noFurtherRange
      && iterMin.value == LastEnd(chunks, from) && (iteration == 0 <==> fromInclusive && chunks == [])
    }

    /** A key of the span, as a bound. */
    ghost predicate Inside(k: Key, span: Span) {
      Printable(k, columns, printed) && Between(span.start, span.inclusive, span.max, k)
    }

    /** One attempt at the current chunk: done, or failed with at most the chunk's end, size and rows changed. */
    method TryChunk(a: Attempt, ghost span: Span) returns (r: Result<()>)
      requires Poised() && span == Ahead() && IsAttempt(a, columns, sharing, printed)
      modifies this`iterMax, this`chunkSize, this`shadow, this`iteration, this`chunks, this`noFurtherRange
      ensures 10 <= chunkSize <= 100000 && chunkSize == SizeAfter(a.polls, old(chunkSize), span)
      ensures var found := Calculated(a.polls, old(chunkSize), span);
              && (r.Ok? <==> found.Ok? && (found.value.None? || a.insert.Done?))
              && (Smooth(a) ==> r.Ok?) && (noFurtherRange <==> found == Ok(None))
      ensures var end := Found(a.polls, old(chunkSize), span);
              && iterMax == (if end.Some? then end else old(iterMax))
              && EndFits(end, span)
      ensures noFurtherRange ==> SawNone(a, span) && shadow == old(shadow)
      ensures shadow == AfterOne(a, old(chunkSize), span, old(shadow))
      ensures if r.Err? || noFurtherRange then chunks == old(chunks) && iteration == old(iteration)
              else && iterMax.Some? && iteration == old(iteration) + 1
                   && chunks == old(chunks) + [Chunk(span.start, span.inclusive, iterMax.value)]
                   && CopiedBy(a, old(chunkSize), span, iterMax.value, old(shadow), shadow)
    {
      ghost var size := chunkSize;
      assert span == FromStart();
      var hasFurtherRange := CalculateNextIterationRangeEndValues(a.polls);
      if hasFurtherRange.Err? {
        return Err(hasFurtherRange.error);
      }
      if !hasFurtherRange.value {
        noFurtherRange := true;
        NoneIsNone(a.polls, size, span);
        return Ok(());
      }
      EndIsInside(a.polls, size, span);
      if |columns| == 2 {
        LessTwo(iterMin.value, iterMax.value);
      }
      r := ApplyIterationInsertQuery(a.insert);
      if r.Err? {
        return;
      }
      chunks := chunks + [Chunk(span.start, span.inclusive, iterMax.value)];
      iteration := iteration + 1;
    }

    lemma NoneIsNone(polls: seq<Poll>, size: int, span: Span)
      requires |polls| == 2 && 10 <= size && Calculated(polls, size, span) == Ok(None)
      ensures polls[1].table.Ok? && KeysIn(polls[1].table.value, span) == []
    {
    }

    lemma EndIsInside(polls: seq<Poll>, size: int, span: Span)
      requires |polls| == 2 && span.columns == columns && Found(polls, size, span).Some?
      requires TableHas(polls[0].table, columns, printed) && TableHas(polls[1].table, columns, printed)
      ensures Inside(Found(polls, size, span).value, span) && Leq(span.start, Found(polls, size, span).value)
    {
      var end, n := Found(polls, size, span).value, Resized(size, polls[0].resize);
      if Picked(Offset(n - 1), KeysIn(polls[0].table.value, span)).Some? {
        PickedIsInside(Offset(n - 1), polls[0].table.value, columns, span.start, span.inclusive, span.max);
        assert end in Project(polls[0].table.value, columns);
      } else {
        var m := Resized(n, polls[1].resize);
        PickedIsInside(Last(m), polls[1].table.value, columns, span.start, span.inclusive, span.max);
        assert end in Project(polls[1].table.value, columns);
      }
    }

    /** The ends that attempts give lie in the span. */
    lemma {:induction false} MovedFits(attempts: seq<Attempt>, size: int, span: Span)
      requires AreAttempts(attempts) && span.columns == columns
      ensures EndFits(MovedTo(attempts, size, span), span)
      decreases |attempts|
    {
      if attempts != [] {
        var n := |attempts| - 1;
        MovedFits(attempts[..n], size, span);
        if Found(attempts[n].polls, SizeBefore(attempts[..n], size, span), span).Some? {
          EndIsInside(attempts[n].polls, SizeBefore(attempts[..n], size, span), span);
        }
      }
    }

    /** The end after attempts that failed is a bound, as the end before them. */
    lemma TriedFits(failed: seq<Attempt>, span: Span, size0: int, end0: Option<Key>, size: int, end: Option<Key>)
      requires AreAttempts(failed) && span.columns == columns && IsBound(end0)
      requires Tried(failed, span, size0, end0, size, end)
      ensures IsBound(end) && (end0.Some? ==> end.Some?)
    {
      MovedFits(failed, size0, span);
    }

    /**
     Tries until an attempt succeeds. `failed` are the attempts before it, `size` and `end`
     the size and the end of the chunk as it found them.
     */
    method RetryChunk(attempts: seq<Attempt>, ghost span: Span)
      returns (r: Result<()>, ghost failed: seq<Attempt>, ghost size: int, ghost end: Option<Key>)
      requires Poised() && span == Ahead() && AreAttempts(attempts)
      modifies this`iterMax, this`chunkSize, this`shadow, this`iteration, this`chunks, this`noFurtherRange
      ensures 10 <= chunkSize <= 100000
      ensures failed <= attempts && (r.Ok? && attempts != [] ==> |failed| < |attempts|)
      ensures Tried(failed, span, old(chunkSize), old(iterMax), size, end)
      ensures chunkSize == if r.Ok? && attempts != [] then SizeAfter(attempts[|failed|].polls, size, span) else size
      ensures r.Err? ==> NoneSmooth(attempts)
      ensures noFurtherRange ==>
                r.Ok? && attempts != [] && SawNone(attempts[|failed|], span) && iterMax == end
      ensures if r.Err? || noFurtherRange || attempts == [] then
                && chunks == old(chunks) && iteration == old(iteration)
                && shadow == AfterAll(failed, old(chunkSize), span, old(shadow))
                && (attempts == [] ==> iterMax == old(iterMax))
              else && iterMax.Some? && Inside(iterMax.value, span) && iteration == old(iteration) + 1
                   && chunks == old(chunks) + [Chunk(span.start, span.inclusive, iterMax.value)]
                   && CopiedBy(attempts[|failed|], size, span, iterMax.value,
                               AfterAll(failed, old(chunkSize), span, old(shadow)), shadow)
    {
      r, failed, size, end := Ok(()), [], chunkSize, iterMax;
      for i := 0 to |attempts|
        invariant Poised() && chunks == old(chunks) && iteration == old(iteration)
        invariant shadow == AfterAll(attempts[..i], old(chunkSize), span, old(shadow))
        invariant failed == attempts[..i] && NoneSmooth(failed) && if i == 0 then r.Ok? else r.Err?
        invariant Tried(failed, span, old(chunkSize), old(iterMax), size, end) && size == chunkSize && end == iterMax
      {
        TriedMore(failed, attempts[i], span, old(chunkSize), old(iterMax), size, end);
        AfterMore(failed, attempts[i], old(chunkSize), span, old(shadow));
        assert attempts[..i + 1] == failed + [attempts[i]];
        r := TryChunk(attempts[i], span);
        if r.Ok? {
          return;
        }
        failed, size, end := failed + [attempts[i]], chunkSize, iterMax;
      }
      assert attempts[..|attempts|] == attempts;
    }

    ghost predicate EndFits(end: Option<Key>, span: Span) {
      end.Some? ==> Inside(end.value, span)
    }

    method Advance(attempts: seq<Attempt>, ghost span: Span)
      returns (r: Result<()>, ghost failed: seq<Attempt>, ghost size: int)
      requires Walked() && span == Ahead() && AreAttempts(attempts)
      modifies this`iterMin, this`iterMax, this`chunkSize, this`shadow, this`iteration, this`chunks, this`noFurtherRange
      ensures r.Ok? ==> Walked() && iterMin.Some? && (old(iterMax).Some? ==> iterMax.Some?)
      ensures failed <= attempts && (r.Ok? && attempts != [] ==> |failed| < |attempts|)
      ensures r.Err? ==> NoneSmooth(attempts)
      ensures NoResizes(attempts) ==> chunkSize == size == old(chunkSize)
      ensures old(noFurtherRange) ==> noFurtherRange && iterMax == old(iterMax)
      ensures !old(noFurtherRange) && noFurtherRange ==>
                && r.Ok? && attempts != [] && SawNone(attempts[|failed|], span)
                && Tried(failed, span, old(chunkSize), old(iterMax), size, iterMax)
      ensures if r.Err? || noFurtherRange || attempts == [] then
                && chunks == old(chunks) && iteration == old(iteration)
                && shadow == AfterAll(failed, old(chunkSize), span, old(shadow))
              else && iterMax.Some? && iteration > 0
                   && chunks == old(chunks) + [Chunk(span.start, span.inclusive, iterMax.value)]
                   && CopiedBy(attempts[|failed|], size, span, iterMax.value,
                               AfterAll(failed, old(chunkSize), span, old(shadow)), shadow)
    {
      SetNextIterationRangeMinValues();
      r, failed, size := Ok(()), [], chunkSize;
      // with no further range every attempt returns at once
      if noFurtherRange {
        return;
      }
      ghost var end;
      r, failed, size, end := RetryChunk(attempts, span);
      SizesKept(attempts, failed, span, old(chunkSize), old(iterMax), size, end);
      TriedFits(failed, span, old(chunkSize), old(iterMax), size, end);
      if |chunks| != |old(chunks)| {
        Extended(old(chunks));
      }
    }

    lemma Extended(before: seq<Chunk>)
      requires Configured() && 10 <= chunkSize <= 100000 && !noFurtherRange
      requires rangeMin.Some? && rangeMax.Some? && IsBound(rangeMin) && IsBound(rangeMax) &&
               Printable(from, columns, printed)
      requires Adjacent(before, from, fromInclusive) && iterMin.Some? && iterMax.Some? && iteration > 0
      requires iterMin.value == LastEnd(before, from)
      requires Inside(iterMax.value, Span(columns, iterMin.value, fromInclusive && before == [], rangeMax.value))
      requires chunks == before + [Chunk(iterMin.value, fromInclusive && before == [], iterMax.value)]
      ensures Walked() && LastEnd(chunks, from) == iterMax.value
    {
      AdjacentExtend(before, from, fromInclusive, chunks[|before|]);
      if |columns| == 2 {
        LessTwo(iterMax.value, rangeMax.value);
      }
    }

    method RecordLastRange()
      requires Walked() && iterMin.Some? && (lastMax.Some? ==> iterMax.Some?)
      modifies this`lastMin, this`lastMax
      ensures Valid() && lastMax == if iterMax.Some? then iterMax else old(lastMax)
    {
      if iterMin.Some? && iterMax.Some? {
        lastMin, lastMax := iterMin, iterMax;
      }
    }

    /**
     Copies the next chunk, trying again after a failed attempt, and records it for the
     next checkpoint. When no key is left, the end recorded is that of what was copied
     exactly if no failed attempt had found a further end before, nor a checkpoint
     recorded one before anything was copied; an end that a failed attempt had found
     lies in a part of the range where no key is left.
     */
    method CopyChunk(attempts: seq<Attempt>) returns (r: Result<()>, ghost failed: seq<Attempt>, ghost size: int)
      requires Valid() && AreAttempts(attempts)
      modifies this`iterMin, this`iterMax, this`chunkSize, this`shadow, this`iteration, this`chunks
      modifies this`noFurtherRange, this`lastMin, this`lastMax
      ensures r.Ok? ==> Valid()
      ensures failed <= attempts && (r.Ok? && attempts != [] ==> |failed| < |attempts|)
      ensures r.Err? ==> NoneSmooth(attempts)
      ensures NoResizes(attempts) ==> chunkSize == size == old(chunkSize)
      ensures old(noFurtherRange) ==> noFurtherRange
      ensures !old(noFurtherRange) && noFurtherRange ==>
                var moved := MovedTo(failed, old(chunkSize), old(Ahead()));
                && r.Ok? && attempts != [] && SawNone(attempts[|failed|], old(Ahead()))
                && lastMax == (if moved.Some? then moved else old(iterMax))
                && (lastMax == old(EndOfCopied()) <==> moved.None? && (old(iteration) > 0 || old(iterMax).None?))
                && EndFits(moved, old(Ahead()))
      ensures if r.Err? || noFurtherRange || attempts == [] then
                && chunks == old(chunks) && iteration == old(iteration)
                && shadow == AfterAll(failed, old(chunkSize), old(Ahead()), old(shadow))
              else && lastMax.Some? && iteration > 0
                   && chunks == old(chunks) + [Chunk(old(Ahead()).start, old(Ahead()).inclusive, lastMax.value)]
                   && CopiedBy(attempts[|failed|], size, old(Ahead()), lastMax.value,
                               AfterAll(failed, old(chunkSize), old(Ahead()), old(shadow)), shadow)
    {
      ghost var span := Ahead();
      r, failed, size := Advance(attempts, span);
      if r.Err? {
        return;
      }
      MovedFits(failed, old(chunkSize), span);
      MovedIsBeyond(MovedTo(failed, old(chunkSize), span), span);
      RecordLastRange();
    }

    /** Copies chunks, each with its own attempts, until no key remains or a chunk fails for good. */
    method IterateChunks(turns: seq<seq<Attempt>>) returns (r: Result<()>)
      requires Valid() && forall t | 0 <= t < |turns| :: AreAttempts(turns[t])
      modifies this`iterMin, this`iterMax, this`chunkSize, this`shadow, this`iteration, this`chunks
      modifies this`noFurtherRange, this`lastMin, this`lastMax
      ensures old(chunks) <= chunks && Adjacent(chunks, from, fromInclusive) && Partition(chunks, from, fromInclusive)
      ensures r.Ok? ==> Valid()
      ensures r.Ok? && AllTried(turns) ==> noFurtherRange || |chunks| == |old(chunks)| + |turns|
      ensures AllSmooth(turns) ==> r.Ok?
    {
      r := Ok(());
      for t := 0 to |turns|
        invariant r.Ok? && Valid() && old(chunks) <= chunks
        invariant AllTried(turns) ==> noFurtherRange || |chunks| == |old(chunks)| + t
      {
        if noFurtherRange {
          break;
        }
        ghost var failed, size;
        r, failed, size := CopyChunk(turns[t]);
        if r.Err? {
          break;
        }
      }
      Partitioned(chunks, from, fromInclusive);
    }

    /** The chunks still to come on a table that does not change. */
    ghost function ToCome(table: seq<TableRow>): seq<Chunk>
      reads this
      requires RowsHave(table, columns) && UniqueKeys(table, columns) && chunkSize >= 1 && rangeMax.Some?
    {
      if noFurtherRange then []
      else QuietChunks(table, chunkSize, columns, LastEnd(chunks, from), iteration == 0, rangeMax.value)
    }

    /** A table nobody writes to, with the columns the copy needs. */
    ghost predicate IsTable(table: seq<TableRow>) {
      TableHas(Ok(table), columns, printed) && UniqueKeys(table, columns) && RowsHave(table, sharing.shared)
    }

    method CopyQuietChunk(table: seq<TableRow>)
      requires Valid() && !noFurtherRange && IsTable(table)
      modifies this
      ensures Valid() && chunkSize == old(chunkSize) && rangeMax == old(rangeMax) && from == old(from)
      ensures |old(chunks)| <= |chunks| && (noFurtherRange || |old(chunks)| < |chunks|)
      ensures chunks + ToCome(table) == old(chunks) + old(ToCome(table))
    {
      ghost var span, toCome := Ahead(), ToCome(table);
      QuietIsSmooth(table, columns, sharing, printed);
      CopySmoothly(QuietAttempt(table));
      if noFurtherRange {
        QuietNone(table, chunkSize, columns, span.start, span.inclusive, span.max);
      } else {
        ghost var end := LastEnd(chunks, from);
        QuietNext(table, chunkSize, span, end);
        Regroup(old(chunks), Chunk(span.start, span.inclusive, end), ToCome(table));
      }
    }

    /** A chunk whose first attempt meets no failure and no change of the chunk size. */
    method CopySmoothly(a: Attempt)
      requires Valid() && !noFurtherRange && IsAttempt(a, columns, sharing, printed) && Smooth(a) && NoResize(a)
      modifies this
      ensures Valid() && chunkSize == old(chunkSize) && rangeMax == old(rangeMax) && from == old(from)
      ensures if noFurtherRange then chunks == old(chunks) && SawNone(a, old(Ahead()))
              else && iteration > 0
                   && chunks ==
                      old(chunks) + [Chunk(LastEnd(old(chunks), from), old(iteration) == 0, LastEnd(chunks, from))]
                   && Calculated(a.polls, chunkSize, old(Ahead())) == Ok(Some(LastEnd(chunks, from)))
    {
      var attempts := [a];
      var r;
      ghost var failed, size;
      r, failed, size := CopyChunk(attempts);
      assert attempts[0] == a && attempts[|failed|] == a;
    }

    /** On a table that nobody writes to, at a fixed chunk size, the copy ends after ceil(N / n) chunks. */
    method IterateQuietTable(table: seq<TableRow>)
      requires Valid() && !noFurtherRange && IsTable(table)
      modifies this
      ensures Valid() && noFurtherRange && rangeMax == old(rangeMax) && from == old(from)
      ensures chunks == old(chunks) + old(ToCome(table))
      ensures var rows, n := |KeysIn(table, old(Ahead()))|, old(chunkSize);
              |chunks| - |old(chunks)| == (rows + n - 1) / n
    {
      QuietTableTakesCeil(table, chunkSize, columns, LastEnd(chunks, from), iteration == 0, rangeMax.value);
      while !noFurtherRange
        invariant Valid() && chunkSize == old(chunkSize) && rangeMax == old(rangeMax) && from == old(from)
        invariant chunks + ToCome(table) == old(chunks) + old(ToCome(table))
        invariant |chunks| <= |old(chunks)| + |old(ToCome(table))|
        decreases |old(chunks)| + |old(ToCome(table))| - |chunks|, !noFurtherRange
      {
        CopyQuietChunk(table);
      }
    }
  }

  // ----- an end that was never copied

  /** The first attempt sees one row and fails to copy it; by the second attempt the row is gone. */
  function LostRow(): (attempts: seq<Attempt>) {
    var seen := Poll(None, Ok([map["id" := 2.0]]));
    [Attempt([seen, seen], Failed("failed")), QuietAttempt([])]
  }

  const FIRST_SPAN := Span(["id"], [1.0], true, [3.0])

  lemma LostRowIsSeen()
    ensures KeysIn([map["id" := 2.0]], FIRST_SPAN) == [[2.0]] && KeysIn([], FIRST_SPAN) == []
  {
    var row: TableRow := map["id" := 2.0];
    var columns := FIRST_SPAN.columns;
    assert KeyOf(row, columns) == [2.0];
    assert [1.0][1..] == [] && [2.0][1..] == [] && [3.0][1..] == [];
    assert Between([1.0], true, [3.0], [2.0]);
    var rows := [row];
    assert rows[1..] == [];
    assert Interval([row], columns, [1.0], true, [3.0]) == [row];
    assert Project([row], columns) == [[2.0]];
    SortOfSorted([[2.0]]);
  }

  lemma LostRowMovesEnd()
    ensures MovedTo(LostRow()[..1], 1000, FIRST_SPAN) == Some([2.0])
    ensures Calculated(LostRow()[1].polls, 1000, FIRST_SPAN) == Ok(None)
  {
    LostRowIsSeen();
    var failed := LostRow()[..1];
    assert failed[..0] == [] && SizeBefore(failed[..0], 1000, FIRST_SPAN) == 1000;
    assert Found(failed[0].polls, 1000, FIRST_SPAN) == Some([2.0]);
  }

  lemma LostRowIsAttempts(printed: Prints)
    requires 2.0 in printed
    ensures forall a | a in LostRow() :: IsAttempt(a, ["id"], Sharing(["id"], ["id"]), printed)
  {
    var row: TableRow := map["id" := 2.0];
    var rows := [row];
    assert KeyOf(row, ["id"]) == [2.0] && rows[1..] == [];
    assert Project([row], ["id"]) == [[2.0]];
  }

  /** The end recorded for the checkpoint may be one that no chunk reached: nothing was copied here. */
  method RecordsUncopiedEnd() returns (recorded: Option<Key>, copied: nat)
    ensures recorded == Some([2.0]) && copied == 0
  {
    var printed := map[1.0 := "1", 2.0 := "2", 3.0 := "3"];
    var sharing := Sharing(["id"], ["id"]);
    assert KeptName(sharing, "id") by {
      assert sharing.mapped[0] == "id" && sharing.shared[0] == "id";
    }
    var context := new MigrationContext(["id"], sharing, printed, [1.0], [3.0], map[]);
    var attempts := LostRow();
    LostRowIsAttempts(printed);
    LostRowMovesEnd();
    assert context.Ahead() == FIRST_SPAN && Smooth(attempts[1]);
    var r;
    ghost var failed, size;
    r, failed, size := context.CopyChunk(attempts);
    recorded, copied := context.lastMax, |context.shadow|;
  }
}
