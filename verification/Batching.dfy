/**
 The apply queue and the worker that drains it in batches.

 A task is a captured row change (named by its position in the log), the
 completion marker of a transaction (named by the log position it ends at), or
 a function to run, such as a cut-over sentinel (named by an identifier).
 */
module Batching {
  import opened Wrappers

  datatype Task = Dml(pos: nat) | Complete(coord: nat) | Write(id: nat)

  /** The row changes among `tasks`, in order. */
  function Rows(tasks: seq<Task>): seq<nat> {
    if tasks == [] then []
    else if tasks[0].Dml? then [tasks[0].pos] + Rows(tasks[1..])
    else Rows(tasks[1..])
  }

  /** The last completion marker among `tasks`. */
  function LastMarker(tasks: seq<Task>): Option<nat> {
    if tasks == [] then None
    else if LastMarker(tasks[1..]).Some? then LastMarker(tasks[1..])
    else if tasks[0].Complete? then Some(tasks[0].coord)
    else None
  }

  /** The functions among `tasks`, in order. */
  function Writes(tasks: seq<Task>): seq<nat> {
    if tasks == [] then []
    else if tasks[0].Write? then [tasks[0].id] + Writes(tasks[1..])
    else Writes(tasks[1..])
  }

  lemma {:induction false} RowsAppend(a: seq<Task>, b: seq<Task>)
    ensures Rows(a + b) == Rows(a) + Rows(b)
  {
    if a == [] {
      assert a + b == b;
    } else {
      assert (a + b)[0] == a[0] && (a + b)[1..] == a[1..] + b;
      RowsAppend(a[1..], b);
    }
  }

  lemma {:induction false} WritesAppend(a: seq<Task>, b: seq<Task>)
    ensures Writes(a + b) == Writes(a) + Writes(b)
  {
    if a == [] {
      assert a + b == b;
    } else {
      assert (a + b)[0] == a[0] && (a + b)[1..] == a[1..] + b;
      WritesAppend(a[1..], b);
    }
  }

  lemma {:induction false} LastMarkerAppend(a: seq<Task>, b: seq<Task>)
    ensures LastMarker(a + b) == if LastMarker(b).Some? then LastMarker(b) else LastMarker(a)
  {
    if a == [] {
      assert a + b == b;
    } else {
      assert (a + b)[1..] == a[1..] + b;
      LastMarkerAppend(a[1..], b);
    }
  }

  /**
   How many tasks of `queue` join a batch that already holds `have` rows: rows
   until there are `size`, markers for free, and the first function ends it.
   */
  function Taken(queue: seq<Task>, have: nat, size: nat): (n: nat)
    ensures n <= |queue|
  {
    if queue == [] || have >= size then 0
    else match queue[0]
      case Dml(_) => 1 + Taken(queue[1..], have + 1, size)
      case Complete(_) => 1 + Taken(queue[1..], have, size)
      case Write(_) => 1
  }

  /**
   The batch that starts at the head of `queue`, when `available` tasks were
   queued behind it at the moment the worker looked.
   */
  function Batch(queue: seq<Task>, available: nat, size: nat): (tasks: seq<Task>)
    requires queue != [] && available < |queue|
    ensures tasks <= queue && tasks != [] && |tasks| <= 1 + available
    ensures tasks[0] == queue[0]
  {
    if queue[0].Dml? then queue[..1 + Taken(queue[1..1 + available], 1, size)] else queue[..1]
  }

  /** A batch holds a function only in last place. */
  predicate FunctionLast(tasks: seq<Task>) {
    forall i | 0 <= i < |tasks| - 1 :: !tasks[i].Write?
  }

  lemma {:induction false} TakenShape(queue: seq<Task>, have: nat, size: nat)
    ensures FunctionLast(queue[..Taken(queue, have, size)])
    ensures |Rows(queue[..Taken(queue, have, size)])| <= if have < size then size - have else 0
    ensures (forall i | 0 <= i < |queue| :: !queue[i].Write?) && Taken(queue, have, size) < |queue| ==>
              have + |Rows(queue[..Taken(queue, have, size)])| >= size
  {
    var n := Taken(queue, have, size);
    if queue != [] && have < size {
      if queue[0].Write? {
        assert queue[..1][1..] == [];
      } else {
        var have' := if queue[0].Dml? then have + 1 else have;
        TakenShape(queue[1..], have', size);
        assert queue[..n][1..] == queue[1..][..n - 1];
        var rest := queue[1..][..n - 1];
        assert forall i | 0 < i < n - 1 :: queue[..n][i] == rest[i - 1];
        assert forall i | 0 <= i < |queue| - 1 :: queue[1..][i] == queue[i + 1];
      }
    }
  }

  /** A batch of rows holds at least one and at most `size` of them. */
  lemma BatchBounds(queue: seq<Task>, available: nat, size: nat)
    requires queue != [] && available < |queue| && queue[0].Dml? && size >= 1
    ensures var tasks := Batch(queue, available, size);
            1 <= |Rows(tasks)| <= size && FunctionLast(tasks)
  {
    var behind := queue[1..1 + available];
    var n := Taken(behind, 1, size);
    TakenShape(behind, 1, size);
    var tasks := Batch(queue, available, size);
    assert tasks[1..] == behind[..n];
    assert forall i | 0 < i < |tasks| :: tasks[i] == behind[..n][i - 1];
  }

  // ----- a whole run of the worker

  /** What the worker does to the outside, in order. */
  datatype Effect = Committed(rows: seq<nat>) | Acked(coord: nat) | Ran(id: nat)

  /** The effects of handling one batch: rows, then the last marker, then the function. */
  function Handle(tasks: seq<Task>): seq<Effect> {
    HandleCommit(tasks) + HandleMarker(tasks) + HandleFunction(tasks)
  }

  function HandleCommit(tasks: seq<Task>): seq<Effect> {
    if Rows(tasks) == [] then [] else [Committed(Rows(tasks))]
  }

  function HandleMarker(tasks: seq<Task>): seq<Effect> {
    if LastMarker(tasks).None? then [] else [Acked(LastMarker(tasks).value)]
  }

  function HandleFunction(tasks: seq<Task>): seq<Effect> {
    if Writes(tasks) == [] then [] else [Ran(Writes(tasks)[0])]
  }

  /** How the worker found the queue when it took a batch. */
  datatype Look = Look(available: nat, size: nat)

  /** Every look is at tasks that are there, and the whole queue gets handled. */
  predicate Drains(queue: seq<Task>, looks: seq<Look>) {
    if queue == [] then looks == []
    else
      && looks != [] && looks[0].available < |queue| && looks[0].size >= 1
      && Drains(queue[|Batch(queue, looks[0].available, looks[0].size)|..], looks[1..])
  }

  function Run(queue: seq<Task>, looks: seq<Look>): seq<Effect>
    requires Drains(queue, looks)
    decreases |queue|
  {
    if queue == [] then []
    else
      var tasks := Batch(queue, looks[0].available, looks[0].size);
      Handle(tasks) + Run(queue[|tasks|..], looks[1..])
  }

  function RowsOf(effects: seq<Effect>): seq<nat> {
    if effects == [] then []
    else if effects[0].Committed? then effects[0].rows + RowsOf(effects[1..])
    else RowsOf(effects[1..])
  }

  lemma {:induction false} RowsOfAppend(a: seq<Effect>, b: seq<Effect>)
    ensures RowsOf(a + b) == RowsOf(a) + RowsOf(b)
  {
    if a == [] {
      assert a + b == b;
    } else {
      assert (a + b)[1..] == a[1..] + b;
      RowsOfAppend(a[1..], b);
    }
  }

  lemma HandleRows(tasks: seq<Task>)
    ensures RowsOf(Handle(tasks)) == Rows(tasks)
  {
    var r, m, w := HandleCommit(tasks), HandleMarker(tasks), HandleFunction(tasks);
    assert RowsOf(r) == Rows(tasks);
    assert RowsOf(m) == [];
    assert RowsOf(w) == [];
    RowsOfAppend(r, m);
    RowsOfAppend(r + m, w);
  }

  /** Every batch of a run commits between one row and the batch size it was taken with. */
  ghost predicate BatchesWithin(effects: seq<Effect>, most: nat) {
    forall i | 0 <= i < |effects| && effects[i].Committed? :: 1 <= |effects[i].rows| <= most
  }

  lemma HandleBounds(queue: seq<Task>, look: Look)
    requires queue != [] && look.available < |queue| && look.size >= 1
    ensures BatchesWithin(Handle(Batch(queue, look.available, look.size)), look.size)
  {
    var tasks := Batch(queue, look.available, look.size);
    if queue[0].Dml? {
      BatchBounds(queue, look.available, look.size);
    } else {
      assert Rows(tasks[1..]) == [];
    }
  }

  lemma RunUnfolds(queue: seq<Task>, looks: seq<Look>)
    requires Drains(queue, looks) && queue != []
    ensures looks != [] && looks[0].available < |queue| && looks[0].size >= 1
    ensures var tasks := Batch(queue, looks[0].available, looks[0].size);
            var rest := queue[|tasks|..];
            Drains(rest, looks[1..]) && Run(queue, looks) == Handle(tasks) + Run(rest, looks[1..])
  {
  }

  /** What a look takes: all of the batch's effects stay within the look's size. */
  lemma BatchShape(queue: seq<Task>, look: Look) returns (tasks: seq<Task>, rest: seq<Task>)
    requires queue != [] && look.available < |queue| && look.size >= 1
    ensures tasks == Batch(queue, look.available, look.size) && rest == queue[|tasks|..]
    ensures queue == tasks + rest && |rest| < |queue| && FunctionLast(tasks)
    ensures BatchesWithin(Handle(tasks), look.size)
  {
    tasks := Batch(queue, look.available, look.size);
    rest := queue[|tasks|..];
    HandleBounds(queue, look);
    BatchFunctionLast(queue, look.available, look.size);
  }

  /** The first batch of a run, and the run that remains. */
  lemma FirstBatch(queue: seq<Task>, looks: seq<Look>) returns (tasks: seq<Task>, rest: seq<Task>)
    requires Drains(queue, looks) && queue != []
    ensures queue == tasks + rest && |rest| < |queue| && FunctionLast(tasks) && looks != []
    ensures Drains(rest, looks[1..]) && Run(queue, looks) == Handle(tasks) + Run(rest, looks[1..])
    ensures BatchesWithin(Handle(tasks), looks[0].size)
  {
    RunUnfolds(queue, looks);
    tasks, rest := BatchShape(queue, looks[0]);
  }

  /**
   Batching loses, repeats and reorders no row: whatever the queue holds and
   however the batches fall, the committed batches concatenate to its rows.
   */
  lemma {:induction false} BatchesPartitionRows(queue: seq<Task>, looks: seq<Look>)
    requires Drains(queue, looks)
    ensures RowsOf(Run(queue, looks)) == Rows(queue)
    decreases |queue|
  {
    if queue != [] {
      var tasks, rest := FirstBatch(queue, looks);
      var later := Run(rest, looks[1..]);
      RowsOfAppend(Handle(tasks), later);
      HandleRows(tasks);
      BatchesPartitionRows(rest, looks[1..]);
      RowsAppend(tasks, rest);
    }
  }

  /** Each committed batch holds between one row and the largest batch size in force. */
  lemma {:induction false} BatchSizes(queue: seq<Task>, looks: seq<Look>, most: nat)
    requires Drains(queue, looks)
    requires forall i | 0 <= i < |looks| :: looks[i].size <= most
    ensures BatchesWithin(Run(queue, looks), most)
    decreases |queue|
  {
    if queue != [] {
      var tasks, rest := FirstBatch(queue, looks);
      BatchSizes(rest, looks[1..], most);
    }
  }

  // ----- every function runs and the last marker is acknowledged

  function RanOf(effects: seq<Effect>): seq<nat> {
    if effects == [] then []
    else if effects[0].Ran? then [effects[0].id] + RanOf(effects[1..])
    else RanOf(effects[1..])
  }

  /** The coordinate acknowledged last. */
  function AckedLast(effects: seq<Effect>): Option<nat> {
    if effects == [] then None
    else
      var n := |effects| - 1;
      if effects[n].Acked? then Some(effects[n].coord) else AckedLast(effects[..n])
  }

  lemma {:induction false} RanOfAppend(a: seq<Effect>, b: seq<Effect>)
    ensures RanOf(a + b) == RanOf(a) + RanOf(b)
  {
    if a == [] {
      assert a + b == b;
    } else {
      assert (a + b)[1..] == a[1..] + b;
      RanOfAppend(a[1..], b);
    }
  }

  lemma {:induction false} AckedLastAppend(a: seq<Effect>, b: seq<Effect>)
    ensures AckedLast(a + b) == if AckedLast(b).Some? then AckedLast(b) else AckedLast(a)
    decreases |b|
  {
    if b == [] {
      assert a + b == a;
    } else {
      assert (a + b)[..|a| + |b| - 1] == a + b[..|b| - 1];
      AckedLastAppend(a, b[..|b| - 1]);
    }
  }

  lemma {:induction false} OneFunction(tasks: seq<Task>)
    requires FunctionLast(tasks)
    ensures |Writes(tasks)| <= 1
  {
    if |tasks| > 1 {
      assert !tasks[0].Write?;
      assert forall i | 0 <= i < |tasks| - 2 :: tasks[1..][i] == tasks[i + 1];
      OneFunction(tasks[1..]);
    } else if |tasks| == 1 {
      assert tasks[1..] == [];
    }
  }

  lemma HandleFunctions(tasks: seq<Task>)
    requires FunctionLast(tasks)
    ensures RanOf(Handle(tasks)) == Writes(tasks) && AckedLast(Handle(tasks)) == LastMarker(tasks)
  {
    var r, m, w := HandleCommit(tasks), HandleMarker(tasks), HandleFunction(tasks);
    OneFunction(tasks);
    OneEffect(r);
    OneEffect(m);
    OneEffect(w);
    RanOfAppend(r, m);
    RanOfAppend(r + m, w);
    AckedLastAppend(r, m);
    AckedLastAppend(r + m, w);
  }

  lemma OneEffect(effects: seq<Effect>)
    requires |effects| <= 1
    ensures RanOf(effects) == if effects != [] && effects[0].Ran? then [effects[0].id] else []
    ensures AckedLast(effects) == if effects != [] && effects[0].Acked? then Some(effects[0].coord) else None
  {
    if effects != [] {
      assert effects[1..] == [] && effects[..0] == [];
    }
  }

  /**
   However the batches fall, every function in the queue runs once, in order, and the
   coordinate acknowledged last is that of the queue's last marker.
   */
  lemma {:induction false} FunctionsAllRun(queue: seq<Task>, looks: seq<Look>)
    requires Drains(queue, looks)
    ensures RanOf(Run(queue, looks)) == Writes(queue) && AckedLast(Run(queue, looks)) == LastMarker(queue)
    decreases |queue|
  {
    if queue != [] {
      var tasks, rest := FirstBatch(queue, looks);
      var later := Run(rest, looks[1..]);
      FunctionsAllRun(rest, looks[1..]);
      HandleFunctions(tasks);
      RanOfAppend(Handle(tasks), later);
      AckedLastAppend(Handle(tasks), later);
      WritesAppend(tasks, rest);
      LastMarkerAppend(tasks, rest);
    }
  }

  /**
   `before` is what was committed ahead of effect `e`, for a queue of which
   `seen` tasks had been handled when the batch of `e` was complete.
   */
  ghost predicate InOrder(e: Effect, before: seq<nat>, seen: seq<Task>) {
    match e
    case Committed(_) => true
    case Acked(c) => Complete(c) in seen && before == Rows(seen)
    case Ran(id) => seen != [] && seen[|seen| - 1] == Write(id) && before == Rows(seen)
  }

  /** Some prefix of the queue explains effect `i` of the run. */
  ghost predicate Explained(queue: seq<Task>, effects: seq<Effect>, i: nat)
    requires i < |effects|
  {
    exists n: nat :: n <= |queue| && InOrder(effects[i], RowsOf(effects[..i]), queue[..n])
  }

  lemma {:induction false} LastMarkerIn(tasks: seq<Task>)
    requires LastMarker(tasks).Some?
    ensures Complete(LastMarker(tasks).value) in tasks
  {
    if LastMarker(tasks[1..]).Some? {
      LastMarkerIn(tasks[1..]);
    }
  }

  lemma {:induction false} FunctionIsLast(tasks: seq<Task>)
    requires FunctionLast(tasks) && Writes(tasks) != []
    ensures tasks != [] && tasks[|tasks| - 1] == Write(Writes(tasks)[0])
  {
    if |tasks| > 1 {
      assert !tasks[0].Write?;
      assert forall i | 0 <= i < |tasks| - 2 :: tasks[1..][i] == tasks[i + 1];
      FunctionIsLast(tasks[1..]);
    }
  }

  lemma HandleInOrder(tasks: seq<Task>, i: nat)
    requires FunctionLast(tasks) && i < |Handle(tasks)|
    ensures InOrder(Handle(tasks)[i], RowsOf(Handle(tasks)[..i]), tasks)
  {
    var effects := Handle(tasks);
    var r := HandleCommit(tasks);
    assert effects[..|r|] == r && RowsOf(r) == Rows(tasks);
    if effects[i].Acked? {
      LastMarkerIn(tasks);
    } else if effects[i].Ran? {
      FunctionIsLast(tasks);
      assert effects[..i] == r + effects[|r|..i];
      RowsOfAppend(r, effects[|r|..i]);
      assert |effects[|r|..i]| <= 1;
      assert RowsOf(effects[|r|..i]) == [];
    }
  }

  lemma BatchFunctionLast(queue: seq<Task>, available: nat, size: nat)
    requires queue != [] && available < |queue| && size >= 1
    ensures FunctionLast(Batch(queue, available, size))
  {
    if queue[0].Dml? {
      BatchBounds(queue, available, size);
    }
  }

  /**
   In every run a function runs when exactly the rows ahead of it in the queue
   are committed, and a transaction is acknowledged only when its marker and
   every row ahead of its marker have been handled.
   */
  lemma {:induction false} EffectsInQueueOrder(queue: seq<Task>, looks: seq<Look>, i: nat)
    requires Drains(queue, looks) && i < |Run(queue, looks)|
    ensures Explained(queue, Run(queue, looks), i)
    decreases |queue|
  {
    var tasks, rest := FirstBatch(queue, looks);
    var later := Run(rest, looks[1..]);
    if i >= |Handle(tasks)| {
      EffectsInQueueOrder(rest, looks[1..], i - |Handle(tasks)|);
    }
    ExplainedInParts(tasks, rest, later, i);
  }

  /** An effect of the first batch, or one that is explained within the rest. */
  lemma ExplainedInParts(tasks: seq<Task>, rest: seq<Task>, later: seq<Effect>, i: nat)
    requires FunctionLast(tasks) && i < |Handle(tasks) + later|
    requires i >= |Handle(tasks)| ==> Explained(rest, later, i - |Handle(tasks)|)
    ensures Explained(tasks + rest, Handle(tasks) + later, i)
  {
    if i < |Handle(tasks)| {
      ExplainedFirst(tasks, rest, later, i);
    } else {
      ExplainedLater(tasks, rest, Handle(tasks), later, i - |Handle(tasks)|);
    }
  }

  lemma ExplainedFirst(tasks: seq<Task>, rest: seq<Task>, later: seq<Effect>, i: nat)
    requires FunctionLast(tasks) && i < |Handle(tasks)|
    ensures Explained(tasks + rest, Handle(tasks) + later, i)
  {
    var effects := Handle(tasks) + later;
    HandleInOrder(tasks, i);
    assert effects[..i] == Handle(tasks)[..i] && (tasks + rest)[..|tasks|] == tasks;
    assert InOrder(effects[i], RowsOf(effects[..i]), (tasks + rest)[..|tasks|]);
  }

  /** An effect explained within the rest of a queue is explained within the queue. */
  lemma ExplainedLater(tasks: seq<Task>, rest: seq<Task>, first: seq<Effect>, later: seq<Effect>, j: nat)
    requires first == Handle(tasks) && j < |later| && Explained(rest, later, j)
    ensures Explained(tasks + rest, first + later, |first| + j)
  {
    var n: nat :| n <= |rest| && InOrder(later[j], RowsOf(later[..j]), rest[..n]);
    assert (first + later)[..|first| + j] == first + later[..j];
    RowsOfAppend(first, later[..j]);
    HandleRows(tasks);
    assert (tasks + rest)[..|tasks| + n] == tasks + rest[..n];
    RowsAppend(tasks, rest[..n]);
    assert InOrder((first + later)[|first| + j], RowsOf((first + later)[..|first| + j]), (tasks + rest)[..|tasks| + n]);
  }
}
